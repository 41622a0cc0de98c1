/** views/doctor/CephalometricAnalysisView.tsx: the image, landmark and size
    state of the cephalometric workspace and the report derived from the
    landmarks. */
module CephalometricView {
  import opened Wrappers
  import opened Types
  import opened Cephalometric

  /** The memoised `analysisReport`: null (None) for an empty landmark list,
      otherwise the analysis of the list. */
  function AnalysisReport(m: MathLib, landmarks: seq<Landmark>): (r: Option<CephalometricAnalysis>)
    ensures r.None? <==> landmarks == []
    ensures r.Some? ==> (SteinerKey in r.value <==> HasSteinerLandmarks(landmarks))
    ensures r.Some? ==> r.value == Analyze(m, landmarks)
  {
    if |landmarks| > 0 then Some(Analyze(m, landmarks)) else None
  }

  /** A non-empty list that lacks one of the four Steiner points gives an
      empty report, which is not the same as no report. */
  lemma MissingPointGivesEmptyReport(m: MathLib, landmarks: seq<Landmark>)
    requires landmarks != []
    requires !HasSteinerLandmarks(landmarks)
    ensures AnalysisReport(m, landmarks) == Some(map[])
  {
  }

  /** The view's `image`, `landmarks` and `imageSize` state. */
  class Workspace {
    var imageUrl: Option<string>
    var imageMimeType: Option<string>
    var landmarks: seq<Landmark>
    var width: real
    var height: real

    /** No image, no landmarks, a 0x0 size, and so no report. */
    constructor ()
      ensures imageUrl.None? && imageMimeType.None? && landmarks == []
      ensures width == 0.0 && height == 0.0
    {
      imageUrl := None;
      imageMimeType := None;
      landmarks := [];
      width := 0.0;
      height := 0.0;
    }

    /** The report for the current state. */
    function Report(m: MathLib): Option<CephalometricAnalysis>
      reads this
    {
      AnalysisReport(m, landmarks)
    }

    /** `handleImageUpload`: a new image discards the landmarks, so the
        report becomes null, and records the new size. */
    method ImageUpload(url: string, mimeType: string, w: real, h: real)
      modifies this
      ensures imageUrl == Some(url) && imageMimeType == Some(mimeType)
      ensures landmarks == [] && width == w && height == h
      ensures forall m :: Report(m).None?
    {
      imageUrl := Some(url);
      imageMimeType := Some(mimeType);
      landmarks := [];
      width := w;
      height := h;
    }

    /** `handleAiDetection`: the detected list replaces the landmarks
        wholesale; the image and its size stay. */
    method AiDetection(detected: seq<Landmark>)
      modifies this
      ensures landmarks == detected
      ensures imageUrl == old(imageUrl) && imageMimeType == old(imageMimeType)
      ensures width == old(width) && height == old(height)
      ensures forall m :: Report(m) == AnalysisReport(m, detected)
    {
      landmarks := detected;
    }
  }
}
