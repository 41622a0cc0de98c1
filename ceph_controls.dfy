/** components/CephalometricControls.tsx: the landmark names requested from
    the detector, the scaling of its normalised answer to pixels, and the
    loading and error state of the auto-detect button. */
module CephalometricControls {
  import opened Wrappers
  import opened Types
  import opened Cephalometric

  /** `requiredLandmarks` */
  const RequiredLandmarks: seq<string> := [
    "Sella (S)", "Nasion (N)", "A-point (A)", "B-point (B)", "Pogonion (Pog)",
    "Menton (Me)", "Gonion (Go)", "Gnathion (Gn)", "Porion (Po)", "Orbitale (Or)"]

  /** The request names ten landmarks, among them the four the analysis looks up. */
  lemma RequiredLandmarksCoverAnalysis()
    ensures |RequiredLandmarks| == 10
    ensures RequiredLandmarks[..4] == [SellaName, NasionName, APointName, BPointName]
  {
  }

  /** A normalised point in pixels of a `width` x `height` image. */
  function Scale(p: Point, width: real, height: real): Point {
    Point(p.x * width, p.y * height)
  }

  /** `detectedLandmarks.map(...)`: each point scaled from image fractions to
      pixels of the loaded image. */
  function Denormalise(detected: seq<Landmark>, width: real, height: real): (r: seq<Landmark>)
    ensures |r| == |detected|
    ensures forall i :: 0 <= i < |r| ==> r[i].name == detected[i].name
    ensures forall i :: 0 <= i < |r| ==>
      r[i].point == Point(detected[i].point.x * width, detected[i].point.y * height)
  {
    if detected == [] then []
    else
      var lm := detected[0];
      [Landmark(lm.name, Scale(lm.point, width, height))]
        + Denormalise(detected[1..], width, height)
  }

  /** The analysis finds in the scaled list the scaled point of the same
      landmark, so scaling keeps which landmarks are present. */
  lemma {:induction false} DenormaliseGetPoint(name: string, detected: seq<Landmark>, width: real, height: real)
    ensures GetPoint(name, Denormalise(detected, width, height))
         == if GetPoint(name, detected).None? then None
            else Some(Scale(GetPoint(name, detected).value, width, height))
  {
    if detected != [] {
      DenormaliseGetPoint(name, detected[1..], width, height);
      var r := Denormalise(detected, width, height);
      assert r[1..] == Denormalise(detected[1..], width, height);
      if detected[0].name == name {
        assert GetPoint(name, detected) == Some(detected[0].point);
        assert GetPoint(name, r) == Some(r[0].point);
      } else {
        assert GetPoint(name, detected) == GetPoint(name, detected[1..]);
        assert GetPoint(name, r) == GetPoint(name, r[1..]);
      }
    }
  }

  /** A 1x1 image leaves the landmarks as detected. */
  lemma {:induction false} DenormaliseUnit(detected: seq<Landmark>)
    ensures Denormalise(detected, 1.0, 1.0) == detected
  {
    if detected != [] {
      DenormaliseUnit(detected[1..]);
      assert detected[0] == Landmark(detected[0].name, Point(detected[0].point.x, detected[0].point.y));
    }
  }

  const DetectionFailedMessage := "AI landmark detection failed. Please try again with a clear image."

  /** The component's `isLoadingAI` and `error` state. */
  class Controls {
    var isLoadingAI: bool
    var error: string

    constructor ()
      ensures !isLoadingAI && error == ""
    {
      isLoadingAI := false;
      error := "";
    }

    /** `handleFileChange` with a chosen file: the error is cleared before the
        image is read and handed to `onImageUpload`. */
    method ChooseFile()
      modifies this
      ensures error == "" && isLoadingAI == old(isLoadingAI)
    {
      error := "";
    }

    /** `handleAutoDetect`. The loaded image's size and the detector's reply
        are inputs; the result is the list passed to `onAiDetection`, if any. */
    method AutoDetect(image: Option<string>, mimeType: Option<string>, width: real, height: real,
                      detection: Reply<seq<Landmark>>)
      returns (delivered: Option<seq<Landmark>>)
      modifies this
      ensures !(Truthy(image) && Truthy(mimeType)) ==>
        delivered.None? && isLoadingAI == old(isLoadingAI) && error == old(error)
      ensures Truthy(image) && Truthy(mimeType) ==> !isLoadingAI
      ensures Truthy(image) && Truthy(mimeType) && detection.Answered? ==>
        delivered == Some(Denormalise(detection.value, width, height)) && error == ""
      ensures Truthy(image) && Truthy(mimeType) && detection.Failed? ==>
        delivered.None? && error == DetectionFailedMessage
    {
      delivered := None;
      if !Truthy(image) || !Truthy(mimeType) {
        return;
      }
      isLoadingAI := true;
      error := "";
      match detection {
        case Answered(landmarks) =>
          delivered := Some(Denormalise(landmarks, width, height));
        case Failed(_) =>
          error := DetectionFailedMessage;
      }
      isLoadingAI := false;
    }
  }
}
