/**
  The state the two servers keep in module globals, owned by one object: the alert
  window, the time of the last spoken alert, and a ghost log of the alerts spoken.
*/
module Server {
  import opened Wrappers
  import opened Estimator
  import opened FaceSelection
  import opened AlertGate
  import opened Settings

  /** One spoken alert: when, at what distance, and the window in force at that moment. */
  datatype Alert = Alert(time: real, distance: real, window: Window)

  /**
    The alerts a run speaks, in order: one for each frame that fired, at that
    frame's time and distance, under the window w of the run.
  */
  function SpokenAlerts(w: Window, frames: seq<Read>, results: seq<FrameResult>): (a: seq<Alert>)
    requires AllCaptured(frames) && |results| == |frames|
    ensures |a| <= |frames|
    ensures forall i :: 0 <= i < |a| ==> a[i].window == w
    decreases |frames|
  {
    if frames == [] then []
    else
      var n := |frames| - 1;
      SpokenAlerts(w, frames[..n], results[..n])
        + (if Fired(results[n]) then [Alert(frames[n].now, results[n].distance, w)] else [])
  }

  /** One more frame adds its alert, if it fired, at the end. */
  lemma SpokenAlertsAppend(w: Window, frames: seq<Read>, results: seq<FrameResult>, rd: Read, r: FrameResult)
    requires AllCaptured(frames) && |results| == |frames| && rd.Captured?
    ensures AllCaptured(frames + [rd])
    ensures SpokenAlerts(w, frames + [rd], results + [r])
            == SpokenAlerts(w, frames, results) + (if Fired(r) then [Alert(rd.now, r.distance, w)] else [])
  {
    assert (frames + [rd])[..|frames|] == frames;
    assert (results + [r])[..|results|] == results;
  }

  class AlertServer {
    var lastSpeechTime: real
    var alertDistanceMin: int
    var alertDistanceMax: int
    /** The alerts handed to the speech engine, oldest first. */
    ghost var alerts: seq<Alert>

    /**
      The window is never empty or inverted; the last-alert time is the time of the
      latest alert, or 0 before any; every alert lay inside its window and came more
      than the interval after time 0 and after every earlier alert.
    */
    ghost predicate Valid()
      reads this
    {
      && alertDistanceMin < alertDistanceMax
      && (alerts == [] ==> lastSpeechTime == 0.0)
      && (alerts != [] ==> lastSpeechTime == alerts[|alerts| - 1].time)
      && (forall i :: 0 <= i < |alerts| ==>
            alerts[i].time > SpeechInterval && InWindow(alerts[i].window, alerts[i].distance))
      && (forall i, j :: 0 <= i < j < |alerts| ==> alerts[j].time - alerts[i].time > SpeechInterval)
    }

    function CurrentWindow(): Window
      reads this
    {
      Window(alertDistanceMin, alertDistanceMax)
    }

    /** The state at start-up: window 50..70 cm, no alert yet. */
    constructor ()
      ensures Valid()
      ensures alertDistanceMin == 50 && alertDistanceMax == 70
      ensures lastSpeechTime == 0.0 && alerts == []
    {
      lastSpeechTime := 0.0;
      alertDistanceMin := 50;
      alertDistanceMax := 70;
      alerts := [];
    }

    /**
      One pass of the frame loop after detection: a zero width is skipped; otherwise
      the distance is estimated and, if it lies in the window and the cooldown has
      passed, an alert is spoken and its time recorded.
    */
    method ProcessFrame(faceWidth: int, focal: real, now: real) returns (r: FrameResult)
      requires Valid()
      modifies this
      ensures Valid()
      ensures r == EvaluateFrame(old(CurrentWindow()), old(lastSpeechTime), focal, faceWidth, now)
      ensures alertDistanceMin == old(alertDistanceMin) && alertDistanceMax == old(alertDistanceMax)
      ensures Fired(r) ==>
        lastSpeechTime == now && alerts == old(alerts) + [Alert(now, r.distance, CurrentWindow())]
      ensures !Fired(r) ==> lastSpeechTime == old(lastSpeechTime) && alerts == old(alerts)
    {
      if faceWidth == 0 {
        return NoFace;
      }
      var distance := DistanceFinder(focal, KnownWidth, faceWidth as real);
      if alertDistanceMin as real <= distance <= alertDistanceMax as real
         && now - lastSpeechTime > SpeechInterval {
        alerts := alerts + [Alert(now, distance, CurrentWindow())];
        lastSpeechTime := now;
        r := Measured(distance, true);
      } else {
        r := Measured(distance, false);
      }
    }

    /**
      The settings form: the window changes only when both fields are integers and
      the minimum is below the maximum.
    */
    method SetDistance(minField: Option<int>, maxField: Option<int>) returns (msg: Message)
      requires Valid()
      modifies this
      ensures Valid()
      ensures msg == CheckSetting(minField, maxField)
      ensures msg.Updated? ==> alertDistanceMin == msg.min && alertDistanceMax == msg.max
      ensures !msg.Updated? ==>
        alertDistanceMin == old(alertDistanceMin) && alertDistanceMax == old(alertDistanceMax)
      ensures lastSpeechTime == old(lastSpeechTime) && alerts == old(alerts)
    {
      msg := CheckSetting(minField, maxField);
      if msg.Updated? {
        alertDistanceMin := msg.min;
        alertDistanceMax := msg.max;
      }
    }

    /**
      The state after streaming the captured frames done from window w0 and
      last-alert time last0: the last-alert time and the results are those of Run,
      and the log grew by exactly the alerts the run spoke.
    */
    ghost predicate Streamed(w0: Window, last0: real, log0: seq<Alert>, focal: real,
                             done: seq<Read>, results: seq<FrameResult>)
      reads this
    {
      && AllCaptured(done)
      && Run(w0, last0, focal, done) == Stream(results, lastSpeechTime)
      && alerts == log0 + SpokenAlerts(w0, done, results)
    }

    /**
      One successful camera read: select the face width, then pass the frame
      through the gate; the streamed state is extended by this frame.
    */
    method ProcessRead(rd: Read, focal: real, ghost w0: Window, ghost last0: real, ghost log0: seq<Alert>,
                       ghost done: seq<Read>, ghost results: seq<FrameResult>) returns (r: FrameResult)
      requires Valid() && rd.Captured? && CurrentWindow() == w0
      requires Streamed(w0, last0, log0, focal, done, results)
      modifies this
      ensures Valid() && CurrentWindow() == w0
      ensures r == EvaluateFrame(w0, old(lastSpeechTime), focal, FaceWidth(rd.faces), rd.now)
      ensures Streamed(w0, last0, log0, focal, done + [rd], results + [r])
    {
      RunAppend(w0, last0, focal, done, rd);
      var faceWidth := FaceData(rd.faces);
      r := ProcessFrame(faceWidth, focal, rd.now);
      SpokenAlertsAppend(w0, done, results, rd, r);
    }

    /**
      The frame generator: calibrate once with the assumed 100 px reference width,
      then process camera reads in order, stopping at the first failed read.
    */
    method GenerateFrames(frames: seq<Read>) returns (results: seq<FrameResult>)
      requires Valid()
      modifies this
      ensures Valid()
      ensures |results| <= |frames| && AllCaptured(frames[..|results|])
      ensures |results| < |frames| ==> frames[|results|].Failed?
      ensures Run(old(CurrentWindow()), old(lastSpeechTime), ServerFocal(), frames[..|results|])
              == Stream(results, lastSpeechTime)
      ensures alerts == old(alerts) + SpokenAlerts(old(CurrentWindow()), frames[..|results|], results)
      ensures alertDistanceMin == old(alertDistanceMin) && alertDistanceMax == old(alertDistanceMax)
    {
      ghost var w0, last0, log0 := CurrentWindow(), lastSpeechTime, alerts;
      var focal := FocalLength(KnownDistance, KnownWidth, ServerReferenceWidth);
      results := [];
      var i := 0;
      while i < |frames|
        invariant Valid()
        invariant 0 <= i <= |frames| && |results| == i
        invariant CurrentWindow() == w0
        invariant Streamed(w0, last0, log0, focal, frames[..i], results)
      {
        if frames[i].Failed? {
          break;
        }
        assert frames[..i + 1] == frames[..i] + [frames[i]];
        var r := ProcessRead(frames[i], focal, w0, last0, log0, frames[..i], results);
        results := results + [r];
        i := i + 1;
      }
    }
  }
}
