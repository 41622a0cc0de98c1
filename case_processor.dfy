/** The case lifecycle of hooks/useCaseProcessor.ts over the case table of
    services/db.ts, which is modelled as a map from case id to case. */
module CaseProcessing {
  import opened Wrappers
  import opened Types
  import opened Text
  import opened GeminiService

  const UnknownErrorMessage := "An unknown error occurred."
  /** The error a store `add` rejects with when the key is already present. */
  const ConstraintErrorMessage := "ConstraintError"

  /** A partial update: each present field overwrites the stored one. */
  datatype CaseChanges = CaseChanges(
    analysisResult: Option<AnalysisResult>,
    status: Option<CaseStatus>,
    priority: Option<CasePriority>,
    clinicianDecision: Option<ClinicianDecision>)

  function ApplyChanges(c: Case, ch: CaseChanges): (r: Case)
    ensures r.id == c.id && r.patientId == c.patientId && r.createdAt == c.createdAt
    ensures r.healthDomain == c.healthDomain && r.scanType == c.scanType && r.image == c.image
    ensures r.analysisResult == (if ch.analysisResult.Some? then ch.analysisResult else c.analysisResult)
    ensures r.status == ch.status.GetOr(c.status)
    ensures r.priority == ch.priority.GetOr(c.priority)
    ensures r.clinicianDecision == (if ch.clinicianDecision.Some? then ch.clinicianDecision else c.clinicianDecision)
    ensures r.clinicianNote == c.clinicianNote && r.overrideReason == c.overrideReason
    ensures r.clinicalReport == c.clinicalReport && r.patientReport == c.patientReport
  {
    c.(analysisResult := if ch.analysisResult.Some? then ch.analysisResult else c.analysisResult,
       status := ch.status.GetOr(c.status),
       priority := ch.priority.GetOr(c.priority),
       clinicianDecision := if ch.clinicianDecision.Some? then ch.clinicianDecision else c.clinicianDecision)
  }

  /** Dexie's table of cases. */
  class CaseDatabase {
    var cases: map<string, Case>

    constructor ()
      ensures cases == map[]
    {
      cases := map[];
    }

    /** `db.cases.get(id)` */
    method Get(id: string) returns (c: Option<Case>)
      ensures c == if id in cases then Some(cases[id]) else None
    {
      c := if id in cases then Some(cases[id]) else None;
    }

    /** `db.cases.add(c)`: rejected when the key is taken. */
    method Add(c: Case) returns (ok: bool)
      modifies this
      ensures ok == (c.id !in old(cases))
      ensures cases == if ok then old(cases)[c.id := c] else old(cases)
    {
      ok := c.id !in cases;
      if ok {
        cases := cases[c.id := c];
      }
    }

    /** `db.cases.update(id, changes)`: the number of records changed. */
    method Update(id: string, ch: CaseChanges) returns (updated: nat)
      modifies this
      ensures updated == (if id in old(cases) then 1 else 0)
      ensures cases == if id in old(cases) then old(cases)[id := ApplyChanges(old(cases)[id], ch)] else old(cases)
    {
      if id in cases {
        cases := cases[id := ApplyChanges(cases[id], ch)];
        updated := 1;
      } else {
        updated := 0;
      }
    }
  }

  /** The case `processNewCase` creates from the chosen file. `clock` is
      `Date.now()` and `createdAt` the time of `new Date()`. */
  function NewCase(id: string, clock: nat, createdAt: int, file: FileInfo, dataUrl: string,
                   domain: HealthDomain, scanType: ScanType): (c: Case)
    ensures c.id == id && c.patientId == "P" + NatToString(clock) && c.createdAt == createdAt
    ensures c.status == PendingAnalysis && c.priority == Low && c.analysisResult == None
    ensures c.healthDomain == domain && c.scanType == scanType
    ensures c.image == CaseImage(dataUrl, file.name, file.mimeType)
    ensures c.clinicianDecision == None && c.clinicianNote == None && c.overrideReason == None
    ensures c.clinicalReport == None && c.patientReport == None
  {
    Case(id, "P" + NatToString(clock), createdAt, PendingAnalysis, Low, domain, scanType,
         CaseImage(dataUrl, file.name, file.mimeType), None, None, None, None, None, None)
  }

  function SuccessChanges(result: AnalysisResult): CaseChanges {
    CaseChanges(Some(result), Some(ReviewPending), Some(GetCasePriority(result)), None)
  }

  function FailureChanges(): CaseChanges {
    CaseChanges(None, Some(AnalysisFailed), None, None)
  }

  /** The record after one analysis of `c` has been committed. */
  function CommitAnalysis(c: Case, inference: Inference): Case {
    match AnalyzeScan(c, inference)
    case Answered(result) => ApplyChanges(c, SuccessChanges(result))
    case Failed(_) => ApplyChanges(c, FailureChanges())
  }

  /** The table after `processCaseAnalysis(id)`. */
  function ProcessAnalysis(cases: map<string, Case>, id: string, inference: Inference): (r: map<string, Case>)
    ensures id !in cases ==> r == cases
    ensures r.Keys == cases.Keys
    ensures forall k :: k in cases && k != id ==> r[k] == cases[k]
    ensures id in cases ==> r[id] == CommitAnalysis(cases[id], inference)
  {
    if id in cases then cases[id := CommitAnalysis(cases[id], inference)] else cases
  }

  /** Success: result, REVIEW_PENDING and the computed priority, in one update. */
  lemma CommitOnSuccess(c: Case, inference: Inference, result: AnalysisResult)
    requires AnalyzeScan(c, inference) == Answered(result)
    ensures CommitAnalysis(c, inference).analysisResult == Some(result)
    ensures CommitAnalysis(c, inference).status == ReviewPending
    ensures CommitAnalysis(c, inference).priority == GetCasePriority(result)
  {
  }

  /** Failure: only the status changes. */
  lemma CommitOnFailure(c: Case, inference: Inference)
    requires AnalyzeScan(c, inference).Failed?
    ensures CommitAnalysis(c, inference) == c.(status := AnalysisFailed)
  {
  }

  /** Processing never touches the identity, origin, image or clinician fields. */
  lemma CommitKeepsIdentity(c: Case, inference: Inference)
    ensures var r := CommitAnalysis(c, inference);
            r.id == c.id && r.patientId == c.patientId && r.createdAt == c.createdAt
            && r.healthDomain == c.healthDomain && r.scanType == c.scanType && r.image == c.image
            && r.clinicianNote == c.clinicianNote && r.clinicianDecision == c.clinicianDecision
            && r.overrideReason == c.overrideReason
            && r.clinicalReport == c.clinicalReport && r.patientReport == c.patientReport
  {
  }

  /** A case whose domain has no analysis path of its own still leaves
      PENDING_ANALYSIS: it reaches REVIEW_PENDING with the placeholder result. */
  lemma PlaceholderDomainsComplete(c: Case, inference: Inference)
    requires PathFor(c.healthDomain) == PlaceholderPath
    ensures CommitAnalysis(c, inference).status == ReviewPending
    ensures CommitAnalysis(c, inference).analysisResult == Some(inference.placeholder)
  {
  }

  /** The shape of every record this hook writes: a result is attached exactly
      when the case awaits review. */
  predicate HookShaped(c: Case) {
    c.status in {PendingAnalysis, ReviewPending, AnalysisFailed}
    && (c.analysisResult.Some? <==> c.status == ReviewPending)
  }

  predicate AllHookShaped(cases: map<string, Case>) {
    forall k :: k in cases ==> HookShaped(cases[k])
  }

  /** Analysing a pending case keeps every record hook-shaped. */
  lemma ProcessPendingKeepsShape(cases: map<string, Case>, id: string, inference: Inference)
    requires AllHookShaped(cases)
    requires id in cases ==> cases[id].status == PendingAnalysis
    ensures AllHookShaped(ProcessAnalysis(cases, id, inference))
  {
    var r := ProcessAnalysis(cases, id, inference);
    forall k | k in r ensures HookShaped(r[k]) {
      if k == id {
        var c := cases[id];
        assert c.analysisResult == None;
        match AnalyzeScan(c, inference)
        case Answered(result) => CommitOnSuccess(c, inference, result);
        case Failed(_) => CommitOnFailure(c, inference);
      }
    }
  }

  /** A table of hook-shaped records stays hook-shaped once `processNewCase`
      has added a case under a fresh id and analysed it. */
  lemma NewCaseKeepsShape(cases: map<string, Case>, c: Case, inference: Inference)
    requires AllHookShaped(cases) && c.id !in cases
    requires c.status == PendingAnalysis && c.analysisResult == None
    ensures AllHookShaped(ProcessAnalysis(cases[c.id := c], c.id, inference))
  {
    ProcessPendingKeepsShape(cases[c.id := c], c.id, inference);
  }

  /** The status is not re-checked before the commit: re-analysing a reviewed
      case whose analysis now fails leaves its old result beside ANALYSIS_FAILED. */
  lemma ReanalysisFailureKeepsStaleResult(c: Case, inference: Inference)
    requires c.status == ReviewPending && c.analysisResult.Some?
    requires AnalyzeScan(c, inference).Failed?
    ensures CommitAnalysis(c, inference).status == AnalysisFailed
    ensures CommitAnalysis(c, inference).analysisResult == c.analysisResult
    ensures !HookShaped(CommitAnalysis(c, inference))
  {
    CommitOnFailure(c, inference);
  }

  /** `err.message || 'An unknown error occurred.'` */
  function ErrorText(message: string): (e: string)
    ensures e != ""
    ensures message != "" ==> e == message
  {
    if message != "" then message else UnknownErrorMessage
  }

  function DecisionChanges(d: ClinicianDecision): CaseChanges {
    CaseChanges(None, None, None, Some(d))
  }

  /** The clinician's accept/override decision (views/doctor/ScanViewer.tsx)
      is recorded without any status change: no shown code path writes
      REVIEW_COMPLETED. */
  lemma DecisionKeepsStatus(c: Case, d: ClinicianDecision)
    ensures ApplyChanges(c, DecisionChanges(d)).status == c.status
    ensures ApplyChanges(c, DecisionChanges(d)).clinicianDecision == Some(d)
    ensures ApplyChanges(c, DecisionChanges(d)).analysisResult == c.analysisResult
  {
  }

  /** The `useCaseProcessor` hook: its two state fields and the table it writes. */
  class CaseProcessor {
    const db: CaseDatabase
    var isProcessing: bool
    var error: Option<string>

    constructor (db: CaseDatabase)
      ensures this.db == db && !isProcessing && error == None
    {
      this.db := db;
      isProcessing := false;
      error := None;
    }

    /** `processCaseAnalysis(caseId)`: `thrown` is the message of the error
        it rethrows after recording the failure. */
    method ProcessCaseAnalysis(caseId: string, inference: Inference) returns (thrown: Option<string>)
      modifies db
      ensures db.cases == ProcessAnalysis(old(db.cases), caseId, inference)
      ensures thrown.Some? <==> caseId in old(db.cases) && AnalyzeScan(old(db.cases)[caseId], inference).Failed?
      ensures thrown.Some? ==> thrown == Some(AnalyzeScan(old(db.cases)[caseId], inference).message)
    {
      var found := db.Get(caseId);
      if found.None? {
        return None;
      }
      match AnalyzeScan(found.value, inference)
      case Answered(result) =>
        var _ := db.Update(caseId, SuccessChanges(result));
        thrown := None;
      case Failed(message) =>
        var _ := db.Update(caseId, FailureChanges());
        thrown := Some(message);
    }

    /** `processNewCase`: `dataUrl` is what reading the file settled to (None
        when the reader failed); `id` is the generated UUID. */
    method ProcessNewCase(file: FileInfo, dataUrl: Option<string>, id: string, clock: nat, createdAt: int,
                          domain: HealthDomain, scanType: ScanType, inference: Inference)
      modifies this, db
      ensures !isProcessing
      ensures dataUrl.None? ==> db.cases == old(db.cases) && error == Some(UnknownErrorMessage)
      ensures dataUrl.Some? && id in old(db.cases) ==>
                db.cases == old(db.cases) && error == Some(ConstraintErrorMessage)
      ensures dataUrl.Some? && id !in old(db.cases) ==>
                var c := NewCase(id, clock, createdAt, file, dataUrl.value, domain, scanType);
                && db.cases == old(db.cases)[id := CommitAnalysis(c, inference)]
                && error == match AnalyzeScan(c, inference)
                            case Answered(_) => None
                            case Failed(message) => Some(ErrorText(message))
    {
      isProcessing := true;
      error := None;
      if dataUrl.None? {
        error := Some(UnknownErrorMessage);
      } else {
        var c := NewCase(id, clock, createdAt, file, dataUrl.value, domain, scanType);
        var added := db.Add(c);
        if !added {
          error := Some(ConstraintErrorMessage);
        } else {
          var thrown := ProcessCaseAnalysis(c.id, inference);
          if thrown.Some? {
            error := Some(ErrorText(thrown.value));
          }
        }
      }
      isProcessing := false;
    }
  }
}
