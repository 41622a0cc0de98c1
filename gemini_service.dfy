/** The deterministic part of services/geminiService.ts: the analysis
    dispatcher with its breast-analysis bridge, the triage priority rule, and
    the assembly of an image-edit response from the returned parts. The
    provider calls themselves are inputs (`Reply` values). */
module GeminiService {
  import opened Wrappers
  import opened Types
  import opened Text

  /** The analysis path `analyzeScan` takes for a domain. */
  datatype AnalysisPath = BreastScanPath | BreastBridgePath | SkinPhotoPath | PlaceholderPath

  function PathFor(d: HealthDomain): (p: AnalysisPath)
    ensures p == BreastScanPath <==> d == BreastHealth
    ensures p == BreastBridgePath <==> d == BreastCancerAnalysis
    ensures p == SkinPhotoPath <==> d == SkinHealth
    ensures p == PlaceholderPath <==> d !in {BreastHealth, BreastCancerAnalysis, SkinHealth}
  {
    match d
    case BreastHealth => BreastScanPath
    case BreastCancerAnalysis => BreastBridgePath
    case SkinHealth => SkinPhotoPath
    case _ => PlaceholderPath
  }

  /** What the external calls a dispatch may make would settle to:
      `scanReply` for the breast-scan and skin-photo calls (which produce the
      canonical shape), `breastImageReply` for `analyzeBreastImage`, and
      `placeholder` for the mock result of the fallback path. */
  datatype Inference = Inference(
    scanReply: Reply<AnalysisResult>,
    breastImageReply: Reply<BreastAnalysisResult>,
    placeholder: AnalysisResult)

  /** `findings.reduce((acc, f) => Math.max(acc, f.malignancy_probability * 100), acc)` */
  function RiskFold(acc: real, findings: seq<BreastFinding>): (r: real)
    decreases findings
    ensures r >= acc
    ensures forall i :: 0 <= i < |findings| ==> r >= findings[i].malignancyProbability * 100.0
    ensures r == acc || exists i :: 0 <= i < |findings| && r == findings[i].malignancyProbability * 100.0
  {
    if findings == [] then acc
    else
      var p := findings[0].malignancyProbability * 100.0;
      var r := RiskFold(if acc >= p then acc else p, findings[1..]);
      assert forall i :: 1 <= i < |findings| ==> findings[i] == findings[1..][i - 1];
      r
  }

  const SummaryLead := "The analysis identified "
  const SummaryMiddle := " area(s) of interest. The overall assessment category is BI-RADS "
  const SummaryTail := ". Please discuss the detailed findings with your doctor."

  function BridgePatientSummary(count: nat, biRads: int): string {
    SummaryLead + NatToString(count) + SummaryMiddle + IntToString(biRads) + SummaryTail
  }

  /** The patient summary states the finding count right after its lead-in
      and the BI-RADS category right after the middle phrase. */
  lemma BridgePatientSummaryMentions(count: nat, biRads: int)
    ensures OccursAt(BridgePatientSummary(count, biRads), NatToString(count), |SummaryLead|)
    ensures OccursAt(BridgePatientSummary(count, biRads), IntToString(biRads),
                     |SummaryLead| + |NatToString(count)| + |SummaryMiddle|)
  {
    TemplateSlots(SummaryLead, NatToString(count), SummaryMiddle, IntToString(biRads), SummaryTail);
  }

  function BridgeFinding(f: BreastFinding): Finding {
    Finding(f.id, BreastLabelName(f.lesion), f.description, f.boundingBox, f.malignancyProbability)
  }

  /** The simplified bridge from a BI-RADS payload to the canonical result. */
  function BridgeBreastResult(b: BreastAnalysisResult): (r: AnalysisResult)
    ensures r.riskScore >= 0.0
    ensures b.findings == [] ==> r.riskScore == 0.0
    ensures forall i :: 0 <= i < |b.findings| ==> r.riskScore >= b.findings[i].malignancyProbability * 100.0
    ensures r.riskScore == 0.0 || exists i :: 0 <= i < |b.findings| && r.riskScore == b.findings[i].malignancyProbability * 100.0
    ensures r.recommendation == (if b.biRadsScore >= 4 then Biopsy else Routine)
    ensures |r.findings| == |b.findings|
    ensures forall i :: 0 <= i < |b.findings| ==>
              r.findings[i].id == b.findings[i].id
              && r.findings[i].labelText == BreastLabelName(b.findings[i].lesion)
              && r.findings[i].description == b.findings[i].description
              && r.findings[i].boundingBox == b.findings[i].boundingBox
              && r.findings[i].confidence == b.findings[i].malignancyProbability
    ensures r.biRads == Some(b.biRadsScore)
    ensures r.clinicalSummary == b.clinicalSummary
    ensures r.patientSummary == BridgePatientSummary(|b.findings|, b.biRadsScore)
    ensures r.heatmapBase64 == None
  {
    AnalysisResult(
      RiskFold(0.0, b.findings),
      if b.biRadsScore >= 4 then Biopsy else Routine,
      b.clinicalSummary,
      BridgePatientSummary(|b.findings|, b.biRadsScore),
      seq(|b.findings|, i requires 0 <= i < |b.findings| => BridgeFinding(b.findings[i])),
      None,
      Some(b.biRadsScore))
  }

  /** `analyzeScan`: dispatch on the health domain. */
  function AnalyzeScan(c: Case, inference: Inference): (r: Reply<AnalysisResult>)
    ensures PathFor(c.healthDomain) in {BreastScanPath, SkinPhotoPath} ==> r == inference.scanReply
    ensures PathFor(c.healthDomain) == BreastBridgePath ==>
              r == match inference.breastImageReply
                   case Answered(b) => Answered(BridgeBreastResult(b))
                   case Failed(msg) => Failed(msg)
    ensures PathFor(c.healthDomain) == PlaceholderPath ==> r == Answered(inference.placeholder)
  {
    match PathFor(c.healthDomain)
    case BreastScanPath => inference.scanReply
    case SkinPhotoPath => inference.scanReply
    case BreastBridgePath =>
      (match inference.breastImageReply
       case Answered(b) => Answered(BridgeBreastResult(b))
       case Failed(msg) => Failed(msg))
    case PlaceholderPath => Answered(inference.placeholder)
  }

  /** Only a provider failure on one of the three implemented paths makes the
      dispatch fail; domains without coverage always get a result. */
  lemma AnalyzeScanFailsOnlyOnProvider(c: Case, inference: Inference)
    ensures AnalyzeScan(c, inference).Failed? ==>
              (c.healthDomain in {BreastHealth, SkinHealth} && inference.scanReply.Failed?)
              || (c.healthDomain == BreastCancerAnalysis && inference.breastImageReply.Failed?)
  {
  }

  predicate SuspiciousCategory(r: AnalysisResult) {
    r.biRads.Some? && r.biRads.value >= 4
  }

  /** `getCasePriority` */
  function GetCasePriority(r: AnalysisResult): (p: CasePriority)
    ensures p == High <==> r.riskScore > 75.0 || SuspiciousCategory(r)
    ensures p == Medium <==> !SuspiciousCategory(r) && 40.0 < r.riskScore <= 75.0
    ensures p == Low <==> !SuspiciousCategory(r) && r.riskScore <= 40.0
  {
    if r.riskScore > 75.0 || SuspiciousCategory(r) then High
    else if r.riskScore > 40.0 then Medium
    else Low
  }

  /** Position in the triage order: HIGH first. */
  function PriorityRank(p: CasePriority): nat {
    match p
    case High => 0
    case Medium => 1
    case Low => 2
  }

  /** A higher risk score never yields a less urgent priority, and a present
      BI-RADS category never lowers it either. */
  lemma PriorityMonotone(r: AnalysisResult, s: AnalysisResult)
    requires r.riskScore <= s.riskScore
    requires SuspiciousCategory(r) ==> SuspiciousCategory(s)
    ensures PriorityRank(GetCasePriority(s)) <= PriorityRank(GetCasePriority(r))
  {
  }

  /** Worked example: findings at 0.85 and 0.60 with BI-RADS 4 bridge to a
      risk score of 85, a biopsy recommendation and HIGH priority. */
  lemma BridgeExample(f1: BreastFinding, f2: BreastFinding, summary: string)
    requires f1.malignancyProbability == 0.85 && f2.malignancyProbability == 0.60
    ensures var r := BridgeBreastResult(BreastAnalysisResult(4, [f1, f2], summary));
            r.riskScore == 85.0 && r.recommendation == Biopsy && r.biRads == Some(4)
            && GetCasePriority(r) == High
  {
    var fs := [f1, f2];
    assert RiskFold(0.0, fs) == RiskFold(85.0, fs[1..]);
    assert RiskFold(85.0, fs[1..]) == RiskFold(85.0, [f2][1..]);
  }

  // --- Image-edit response assembly ---

  datatype InlineData = InlineData(data: string, mimeType: Option<string>)

  /** One part of the provider's response content. */
  datatype Part = Part(text: Option<string>, inlineData: Option<InlineData>)

  const FallbackEditText := "The model could not edit the image and did not provide an explanation."

  /** `data:${mimeType || 'image/png'};base64,${data}` */
  function ImageDataUrl(d: InlineData): (url: string)
    ensures |url| > 5 && url[..5] == "data:"
    ensures Truthy(d.mimeType) ==> url == "data:" + d.mimeType.value + ";base64," + d.data
    ensures !Truthy(d.mimeType) ==> url == "data:image/png;base64," + d.data
  {
    "data:" + (if Truthy(d.mimeType) then d.mimeType.value else "image/png") + ";base64," + d.data
  }

  predicate IsTextPart(p: Part) { Truthy(p.text) }
  predicate IsImagePart(p: Part) { !Truthy(p.text) && p.inlineData.Some? }

  /** The text of the last part with a non-empty text. */
  function LastText(parts: seq<Part>): (r: Option<string>)
    ensures r.None? <==> forall i :: 0 <= i < |parts| ==> !IsTextPart(parts[i])
    ensures r.Some? ==> exists i :: 0 <= i < |parts| && IsTextPart(parts[i]) && r.value == parts[i].text.value
                          && forall j :: i < j < |parts| ==> !IsTextPart(parts[j])
  {
    if parts == [] then None
    else
      var last := parts[|parts| - 1];
      if IsTextPart(last) then Some(last.text.value)
      else
        var r := LastText(parts[..|parts| - 1]);
        assert forall i :: 0 <= i < |parts| - 1 ==> parts[i] == parts[..|parts| - 1][i];
        r
  }

  /** The data URL of the last image part (one without text). */
  function LastImage(parts: seq<Part>): (r: Option<string>)
    ensures r.None? <==> forall i :: 0 <= i < |parts| ==> !IsImagePart(parts[i])
    ensures r.Some? ==> exists i :: 0 <= i < |parts| && IsImagePart(parts[i])
                          && r.value == ImageDataUrl(parts[i].inlineData.value)
                          && forall j :: i < j < |parts| ==> !IsImagePart(parts[j])
  {
    if parts == [] then None
    else
      var last := parts[|parts| - 1];
      if IsImagePart(last) then Some(ImageDataUrl(last.inlineData.value))
      else
        var r := LastImage(parts[..|parts| - 1]);
        assert forall i :: 0 <= i < |parts| - 1 ==> parts[i] == parts[..|parts| - 1][i];
        r
  }

  /** The response `editImageWithText` returns once the provider has answered
      with `parts` (absent when the response has no candidate content) and
      with `responseText`, the SDK's own `response.text`. */
  method AssembleEditResponse(baseImageDataUrl: string, parts: Option<seq<Part>>, responseText: Option<string>)
    returns (res: EditedImageResponse)
    ensures var ps := parts.GetOr([]);
            LastImage(ps).Some? ==> res == EditedImageResponse(LastImage(ps).value, LastText(ps).GetOr(""))
    ensures var ps := parts.GetOr([]);
            LastImage(ps).None? ==>
              res.imageDataUrl == baseImageDataUrl
              && res.text == (if LastText(ps).Some? then LastText(ps).value
                              else if Truthy(responseText) then responseText.value
                              else FallbackEditText)
  {
    var newImageDataUrl := "";
    var text := "";
    var ps := parts.GetOr([]);
    for i := 0 to |ps|
      invariant newImageDataUrl == LastImage(ps[..i]).GetOr("")
      invariant text == LastText(ps[..i]).GetOr("")
    {
      var part := ps[i];
      assert ps[..i + 1][..i] == ps[..i];
      if Truthy(part.text) {
        text := part.text.value;
      } else if part.inlineData.Some? {
        newImageDataUrl := ImageDataUrl(part.inlineData.value);
      }
    }
    assert ps[..|ps|] == ps;
    if newImageDataUrl == "" {
      var fallback := if Truthy(responseText) then responseText.value else FallbackEditText;
      res := EditedImageResponse(baseImageDataUrl, if text != "" then text else fallback);
    } else {
      res := EditedImageResponse(newImageDataUrl, text);
    }
  }
}
