/**
  The per-frame alert gate of the two servers as a pure function of the alert window,
  the time of the last alert, the focal length, the frame's face width and the clock,
  and a stream of frames folded through it.
*/
module AlertGate {
  import opened Estimator
  import opened FaceSelection

  /** Seconds that must pass, strictly, between two spoken alerts. */
  const SpeechInterval: real := 5.0

  /** The alert distance bounds, in centimetres, both inclusive. */
  datatype Window = Window(min: int, max: int)

  predicate InWindow(w: Window, d: real)
  {
    w.min as real <= d <= w.max as real
  }

  /** What one frame produced: no face, or a distance and whether an alert was spoken. */
  datatype FrameResult = NoFace | Measured(distance: real, alert: bool)

  predicate Fired(r: FrameResult)
  {
    r.Measured? && r.alert
  }

  /** The gate applied to one frame, before the last-alert time is updated. */
  function EvaluateFrame(w: Window, last: real, focal: real, faceWidth: int, now: real): (r: FrameResult)
    ensures r.NoFace? <==> faceWidth == 0
    ensures r.Measured? ==> r.distance * (faceWidth as real) == KnownWidth * focal
    ensures Fired(r) <==> faceWidth != 0 && InWindow(w, r.distance) && now - last > SpeechInterval
  {
    if faceWidth == 0 then NoFace
    else
      var d := DistanceFinder(focal, KnownWidth, faceWidth as real);
      Measured(d, InWindow(w, d) && now - last > SpeechInterval)
  }

  /** The last-alert time after a frame: the frame's time when it fired, unchanged otherwise. */
  function NextLast(r: FrameResult, last: real, now: real): (n: real)
    ensures Fired(r) ==> n == now
    ensures n != last ==> Fired(r)
  {
    if Fired(r) then now else last
  }

  /** No alert fires within the cooldown, whatever the distance. */
  lemma CooldownBlocksAlert(w: Window, t: real, focal: real, faceWidth: int, now: real)
    requires now - t <= SpeechInterval
    ensures !Fired(EvaluateFrame(w, t, focal, faceWidth, now))
    ensures NextLast(EvaluateFrame(w, t, focal, faceWidth, now), t, now) == t
  {
  }

  /** One captured frame (the detector's rectangles and the clock), or a failed read. */
  datatype Read = Failed | Captured(faces: seq<Detection>, now: real)

  predicate AllCaptured(frames: seq<Read>)
  {
    forall j :: 0 <= j < |frames| ==> frames[j].Captured?
  }

  /** The results of a run of frames and the final last-alert time. */
  datatype Stream = Stream(results: seq<FrameResult>, last: real)

  /** Frames processed in order with a fixed window, starting from last-alert time last. */
  function Run(w: Window, last: real, focal: real, frames: seq<Read>): (s: Stream)
    requires AllCaptured(frames)
    ensures |s.results| == |frames|
    decreases |frames|
  {
    if frames == [] then Stream([], last)
    else
      var prev := Run(w, last, focal, frames[..|frames| - 1]);
      var rd := frames[|frames| - 1];
      var r := EvaluateFrame(w, prev.last, focal, FaceWidth(rd.faces), rd.now);
      Stream(prev.results + [r], NextLast(r, prev.last, rd.now))
  }

  /**
    Every alert of a run comes more than the interval after the starting last-alert
    time, and the final last-alert time is at least the time of every alert.
  */
  lemma {:induction false} RunLastDominates(w: Window, last: real, focal: real, frames: seq<Read>)
    requires AllCaptured(frames)
    ensures Run(w, last, focal, frames).last >= last
    ensures var s := Run(w, last, focal, frames);
      forall j :: 0 <= j < |frames| && Fired(s.results[j]) ==>
        frames[j].now - last > SpeechInterval && s.last >= frames[j].now
    decreases |frames|
  {
    if frames != [] {
      var n := |frames| - 1;
      var front := frames[..n];
      RunLastDominates(w, last, focal, front);
      var prev := Run(w, last, focal, front);
      var s := Run(w, last, focal, frames);
      assert s.results[..n] == prev.results;
      forall j | 0 <= j < |frames| && Fired(s.results[j])
        ensures frames[j].now - last > SpeechInterval && s.last >= frames[j].now
      {
        if j < n {
          assert s.results[j] == prev.results[j];
          assert front[j] == frames[j];
        }
      }
    }
  }

  /** Any two alerts of one run are more than the interval apart. */
  lemma {:induction false} AlertsSpaced(w: Window, last: real, focal: real, frames: seq<Read>)
    requires AllCaptured(frames)
    ensures var s := Run(w, last, focal, frames);
      forall j, k :: 0 <= j < k < |frames| && Fired(s.results[j]) && Fired(s.results[k]) ==>
        frames[k].now - frames[j].now > SpeechInterval
    decreases |frames|
  {
    if frames != [] {
      var n := |frames| - 1;
      var front := frames[..n];
      AlertsSpaced(w, last, focal, front);
      RunLastDominates(w, last, focal, front);
      var prev := Run(w, last, focal, front);
      var s := Run(w, last, focal, frames);
      assert s.results[..n] == prev.results;
      forall j, k | 0 <= j < k < |frames| && Fired(s.results[j]) && Fired(s.results[k])
        ensures frames[k].now - frames[j].now > SpeechInterval
      {
        assert s.results[j] == prev.results[j];
        assert front[j] == frames[j];
        if k < n {
          assert s.results[k] == prev.results[k];
          assert front[k] == frames[k];
        }
      }
    }
  }

  /**
    After an alert at time t, a run of frames all within the interval of t speaks
    no alert and leaves the last-alert time at t.
  */
  lemma {:induction false} CooldownSilencesRun(w: Window, t: real, focal: real, frames: seq<Read>)
    requires AllCaptured(frames)
    requires forall j :: 0 <= j < |frames| ==> frames[j].now - t <= SpeechInterval
    ensures Run(w, t, focal, frames).last == t
    ensures forall j :: 0 <= j < |frames| ==> !Fired(Run(w, t, focal, frames).results[j])
    decreases |frames|
  {
    if frames != [] {
      var n := |frames| - 1;
      var front := frames[..n];
      assert forall j :: 0 <= j < n ==> front[j] == frames[j];
      CooldownSilencesRun(w, t, focal, front);
      var s := Run(w, t, focal, frames);
      assert forall j :: 0 <= j < n ==> s.results[j] == Run(w, t, focal, front).results[j];
    }
  }

  /** One more captured frame is judged against the run's last-alert time and appended. */
  lemma RunAppend(w: Window, last: real, focal: real, frames: seq<Read>, rd: Read)
    requires AllCaptured(frames) && rd.Captured?
    ensures AllCaptured(frames + [rd])
    ensures var prev := Run(w, last, focal, frames);
      var r := EvaluateFrame(w, prev.last, focal, FaceWidth(rd.faces), rd.now);
      Run(w, last, focal, frames + [rd]) == Stream(prev.results + [r], NextLast(r, prev.last, rd.now))
  {
    assert (frames + [rd])[..|frames|] == frames;
  }

  /** A run of a prefix of the frames gives the prefix of the run's results. */
  lemma {:induction false} RunPrefix(w: Window, last: real, focal: real, frames: seq<Read>, m: nat)
    requires AllCaptured(frames)
    requires m <= |frames|
    ensures Run(w, last, focal, frames[..m]).results == Run(w, last, focal, frames).results[..m]
    decreases |frames|
  {
    if m < |frames| {
      var n := |frames| - 1;
      var front := frames[..n];
      assert frames[..m] == front[..m];
      RunPrefix(w, last, focal, front, m);
      assert Run(w, last, focal, frames).results[..n] == Run(w, last, focal, front).results;
    } else {
      assert frames[..m] == frames;
    }
  }

  /** Frame k of a run is judged against the last-alert time left by the frames before it. */
  lemma RunStep(w: Window, last: real, focal: real, frames: seq<Read>, k: nat)
    requires AllCaptured(frames)
    requires k < |frames|
    ensures Run(w, last, focal, frames).results[k]
            == EvaluateFrame(w, Run(w, last, focal, frames[..k]).last, focal,
                             FaceWidth(frames[k].faces), frames[k].now)
  {
    RunPrefix(w, last, focal, frames, k + 1);
    assert frames[..k + 1][..k] == frames[..k];
  }

  /** A run in which nothing fires leaves the last-alert time where it started. */
  lemma {:induction false} QuietRunKeepsLast(w: Window, last: real, focal: real, frames: seq<Read>)
    requires AllCaptured(frames)
    requires forall j :: 0 <= j < |frames| ==> !Fired(Run(w, last, focal, frames).results[j])
    ensures Run(w, last, focal, frames).last == last
    decreases |frames|
  {
    if frames != [] {
      var n := |frames| - 1;
      var front := frames[..n];
      var s := Run(w, last, focal, frames);
      assert s.results[..n] == Run(w, last, focal, front).results;
      assert forall j :: 0 <= j < n ==> s.results[j] == Run(w, last, focal, front).results[j];
      QuietRunKeepsLast(w, last, focal, front);
      var r := EvaluateFrame(w, last, focal, FaceWidth(frames[n].faces), frames[n].now);
      assert s.results[n] == r && !Fired(r);
    }
  }

  /**
    The debouncer is not silent: the first frame of a run with a face inside the
    window, more than the interval after the starting last-alert time and with no
    alert before it, fires.
  */
  lemma FirstEligibleFrameFires(w: Window, last: real, focal: real, frames: seq<Read>, k: nat)
    requires AllCaptured(frames)
    requires k < |frames|
    requires forall j :: 0 <= j < k ==> !Fired(Run(w, last, focal, frames).results[j])
    requires FaceWidth(frames[k].faces) != 0
    requires InWindow(w, DistanceFinder(focal, KnownWidth, FaceWidth(frames[k].faces) as real))
    requires frames[k].now - last > SpeechInterval
    ensures Fired(Run(w, last, focal, frames).results[k])
  {
    RunPrefix(w, last, focal, frames, k);
    var front := frames[..k];
    assert forall j :: 0 <= j < k ==>
      Run(w, last, focal, front).results[j] == Run(w, last, focal, frames).results[j];
    QuietRunKeepsLast(w, last, focal, front);
    RunStep(w, last, focal, frames, k);
  }

  /** With the default window and the server calibration, exactly widths 109..152 px alert. */
  lemma DefaultWindowWidths(faceWidth: int)
    requires faceWidth > 0
    ensures InWindow(Window(50, 70), DistanceFinder(ServerFocal(), KnownWidth, faceWidth as real))
            <==> 109 <= faceWidth <= 152
  {
    var p := faceWidth as real;
    ServerEstimate(p);
    var d := DistanceFinder(ServerFocal(), KnownWidth, p);
    assert d * p == 7620.0;
    if 109 <= faceWidth <= 152 {
      assert 50.0 * p <= 7620.0 <= 70.0 * p;
    } else if faceWidth < 109 {
      assert 70.0 * p < 7620.0;
    } else {
      assert 50.0 * p > 7620.0;
    }
  }
}
