/**
  The standalone script: the focal length comes from the face width measured in a
  reference picture, and every frame whose estimate lies in a fixed 90..100 cm band
  speaks, with no cooldown and no adjustable window.
*/
module Standalone {
  import opened Estimator
  import opened FaceSelection
  import opened AlertGate

  /** The fixed speaking band, in centimetres, both ends inclusive. */
  const TriggerBand: Window := Window(90, 100)

  /** Calibration from the reference picture's detections, whatever width they give. */
  function ReferenceFocal(refFaces: seq<Detection>): (f: real)
    ensures f * KnownWidth == (FaceWidth(refFaces) as real) * KnownDistance
  {
    FocalLength(KnownDistance, KnownWidth, FaceWidth(refFaces) as real)
  }

  /** One pass of the script's loop after detection. */
  function StandaloneFrame(focal: real, faceWidth: int): (r: FrameResult)
    ensures r.NoFace? <==> faceWidth == 0
    ensures r.Measured? ==> r.distance * (faceWidth as real) == KnownWidth * focal
    ensures Fired(r) <==> faceWidth != 0 && 90.0 <= r.distance <= 100.0
  {
    if faceWidth == 0 then NoFace
    else
      var d := DistanceFinder(focal, KnownWidth, faceWidth as real);
      Measured(d, InWindow(TriggerBand, d))
  }

  /** The script gate is the server gate with the band as window and the cooldown always over. */
  lemma StandaloneIsGateWithoutCooldown(focal: real, faceWidth: int, last: real, now: real)
    requires now - last > SpeechInterval
    ensures StandaloneFrame(focal, faceWidth) == EvaluateFrame(TriggerBand, last, focal, faceWidth, now)
  {
  }

  /** Frames processed by the script, one result per frame, each independent of the others. */
  function StandaloneRun(focal: real, widths: seq<int>): (rs: seq<FrameResult>)
    ensures |rs| == |widths|
    ensures forall j :: 0 <= j < |widths| ==> rs[j] == StandaloneFrame(focal, widths[j])
    decreases |widths|
  {
    if widths == [] then []
    else StandaloneRun(focal, widths[..|widths| - 1]) + [StandaloneFrame(focal, widths[|widths| - 1])]
  }

  /** Without a cooldown, a face held in the band speaks on every frame. */
  lemma HeldFaceSpeaksEveryFrame(focal: real, widths: seq<int>)
    requires forall j :: 0 <= j < |widths| ==>
      widths[j] != 0 && InWindow(TriggerBand, DistanceFinder(focal, KnownWidth, widths[j] as real))
    ensures forall j :: 0 <= j < |widths| ==> Fired(StandaloneRun(focal, widths)[j])
  {
  }

  /** A face as wide as in the reference picture is estimated at the reference distance, which is outside the band. */
  lemma ReferenceWidthRoundTrip(refFaces: seq<Detection>)
    requires FaceWidth(refFaces) != 0
    ensures StandaloneFrame(ReferenceFocal(refFaces), FaceWidth(refFaces)) == Measured(KnownDistance, false)
  {
    CalibrationRoundTrip(KnownDistance, KnownWidth, FaceWidth(refFaces) as real);
  }

  /** With no face in the reference picture the focal length is 0, so every estimate is 0 and nothing is spoken. */
  lemma NoReferenceFaceNeverSpeaks(refFaces: seq<Detection>, faceWidth: int)
    requires FaceWidth(refFaces) == 0
    requires faceWidth != 0
    ensures StandaloneFrame(ReferenceFocal(refFaces), faceWidth) == Measured(0.0, false)
  {
  }
}
