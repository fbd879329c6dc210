/**
  Choosing one face width from the detector's rectangles. The detector itself is not
  modelled: its output is an abstract sequence of rectangles.
*/
module FaceSelection {

  /**
    One detected rectangle, its components named in the order the source unpacks
    them, (x, y, h, w); the width the source uses is the fourth component.
  */
  datatype Detection = Detection(x: int, y: int, h: int, w: int)

  /**
    The face width held after visiting faces in order, starting from acc: each
    rectangle overwrites it, so it is the start value or one rectangle's width.
  */
  function Scan(acc: int, faces: seq<Detection>): (r: int)
    ensures r == acc || exists i :: 0 <= i < |faces| && faces[i].w == r
    decreases |faces|
  {
    if faces == [] then acc else Scan(faces[0].w, faces[1..])
  }

  /** The scan ends on the last rectangle's width, or on its start value when there is none. */
  lemma {:induction false} ScanEndsOnLast(acc: int, faces: seq<Detection>)
    ensures Scan(acc, faces) == if faces == [] then acc else faces[|faces| - 1].w
    decreases |faces|
  {
    if faces != [] {
      ScanEndsOnLast(faces[0].w, faces[1..]);
    }
  }

  /**
    The face width reported for a frame, the scan started from 0: the last
    rectangle's fourth component, or 0 for no rectangle.
  */
  function FaceWidth(faces: seq<Detection>): (r: int)
    ensures faces == [] ==> r == 0
    ensures faces != [] ==> r == faces[|faces| - 1].w
  {
    ScanEndsOnLast(0, faces);
    Scan(0, faces)
  }

  /** Appending a rectangle makes its width the reported one, whatever came before. */
  lemma AppendedDetectionWins(faces: seq<Detection>, d: Detection)
    ensures FaceWidth(faces + [d]) == d.w
  {
  }

  /** The loop over the detector's rectangles, overwriting the width each time. */
  method FaceData(faces: seq<Detection>) returns (faceWidth: int)
    ensures faces == [] ==> faceWidth == 0
    ensures faces != [] ==> faceWidth == faces[|faces| - 1].w
    ensures faceWidth == FaceWidth(faces)
  {
    faceWidth := 0;
    for i := 0 to |faces|
      invariant faceWidth == if i == 0 then 0 else faces[i - 1].w
    {
      faceWidth := faces[i].w;
    }
  }
}
