/**
  The pinhole-camera distance estimator: one calibration from a reference picture,
  then one division per frame. Arithmetic is on exact reals.
*/
module Estimator {

  /** Distance from the camera to the face in the reference picture, in centimetres. */
  const KnownDistance: real := 76.2
  /** Real width of a face, in centimetres. */
  const KnownWidth: real := 14.3
  /** Face width in pixels that both servers assume for the reference picture. */
  const ServerReferenceWidth: real := 100.0

  /**
    Calibration: the focal length that makes an object of width realWidth, seen
    widthInRfImage pixels wide, lie at measuredDistance.
  */
  function FocalLength(measuredDistance: real, realWidth: real, widthInRfImage: real): (f: real)
    requires realWidth != 0.0
    ensures f * realWidth == widthInRfImage * measuredDistance
  {
    (widthInRfImage * measuredDistance) / realWidth
  }

  /**
    Per-frame estimate: the distance at which an object of real width realFaceWidth
    appears faceWidthInFrame pixels wide. Callers never pass a zero width.
  */
  function DistanceFinder(focalLength: real, realFaceWidth: real, faceWidthInFrame: real): (d: real)
    requires faceWidthInFrame != 0.0
    ensures d * faceWidthInFrame == realFaceWidth * focalLength
  {
    (realFaceWidth * focalLength) / faceWidthInFrame
  }

  /** Estimating with the calibration width gives back the calibration distance. */
  lemma CalibrationRoundTrip(measuredDistance: real, realWidth: real, widthInRfImage: real)
    requires realWidth != 0.0 && widthInRfImage != 0.0
    ensures DistanceFinder(FocalLength(measuredDistance, realWidth, widthInRfImage), realWidth, widthInRfImage)
            == measuredDistance
  {
    var f := FocalLength(measuredDistance, realWidth, widthInRfImage);
    var d := DistanceFinder(f, realWidth, widthInRfImage);
    assert d * widthInRfImage * realWidth == measuredDistance * widthInRfImage * realWidth;
  }

  /** The estimate is inversely proportional to the pixel width. */
  lemma InverseProportional(focalLength: real, realFaceWidth: real, p: real, q: real)
    requires p != 0.0 && q != 0.0
    ensures DistanceFinder(focalLength, realFaceWidth, p) * p == DistanceFinder(focalLength, realFaceWidth, q) * q
  {
  }

  /** A face half as wide is estimated twice as far away. */
  lemma HalfWidthDoublesDistance(focalLength: real, realFaceWidth: real, p: real)
    requires p != 0.0
    ensures DistanceFinder(focalLength, realFaceWidth, p / 2.0) == 2.0 * DistanceFinder(focalLength, realFaceWidth, p)
  {
    InverseProportional(focalLength, realFaceWidth, p / 2.0, p);
  }

  /** With a positive focal length, a wider face is estimated nearer. */
  lemma WiderFaceIsNearer(focalLength: real, realFaceWidth: real, p: real, q: real)
    requires realFaceWidth * focalLength > 0.0
    requires 0.0 < p < q
    ensures DistanceFinder(focalLength, realFaceWidth, q) < DistanceFinder(focalLength, realFaceWidth, p)
  {
    var dp := DistanceFinder(focalLength, realFaceWidth, p);
    var dq := DistanceFinder(focalLength, realFaceWidth, q);
    assert dp * p == dq * q;
    assert dq > 0.0;
  }

  /** The focal length both servers use. */
  function ServerFocal(): (f: real)
    ensures f == 76200.0 / 143.0
  {
    FocalLength(KnownDistance, KnownWidth, ServerReferenceWidth)
  }

  /**
    With the server calibration, the estimate is 7620 divided by the pixel width:
    100 px is 76.2 cm and 50 px is 152.4 cm.
  */
  lemma ServerEstimate(faceWidthInFrame: real)
    requires faceWidthInFrame != 0.0
    ensures DistanceFinder(ServerFocal(), KnownWidth, faceWidthInFrame) == 7620.0 / faceWidthInFrame
    ensures DistanceFinder(ServerFocal(), KnownWidth, 100.0) == KnownDistance
    ensures DistanceFinder(ServerFocal(), KnownWidth, 50.0) == 2.0 * KnownDistance
  {
    CalibrationRoundTrip(KnownDistance, KnownWidth, ServerReferenceWidth);
    HalfWidthDoublesDistance(ServerFocal(), KnownWidth, 100.0);
  }
}
