/** views/doctor/DoctorDashboard.tsx: the triage queue. The fetched cases are
    copied and sorted by priority (HIGH, MEDIUM, LOW) and, within a priority,
    newest first; each sorted case is then projected to a grid row. */
module DoctorDashboard {
  import opened Wrappers
  import opened Types
  import opened Sorting
  import opened GeminiService

  /** The queue comparator: the rank difference (`priorityOrder`, which is
      PriorityRank) or, for equal ranks, `b.createdAt - a.createdAt`. */
  function QueueCompare(a: Case, b: Case): (c: int)
    ensures c < 0 <==> PriorityRank(a.priority) < PriorityRank(b.priority)
                       || (a.priority == b.priority && a.createdAt > b.createdAt)
    ensures c == 0 <==> a.priority == b.priority && a.createdAt == b.createdAt
  {
    var ra := PriorityRank(a.priority);
    var rb := PriorityRank(b.priority);
    if ra != rb then ra - rb else b.createdAt - a.createdAt
  }

  /** The sort may keep `a` ahead of `b`: the comparator does not return a positive value. */
  predicate QueueBefore(a: Case, b: Case) {
    QueueCompare(a, b) <= 0
  }

  /** The comparator is consistent, so the sort is well defined. */
  lemma QueueBeforeIsPreorder()
    ensures TotalPreorder(QueueBefore)
  {
    forall a: Case, b: Case, c: Case | QueueBefore(a, b) && QueueBefore(b, c)
      ensures QueueBefore(a, c)
    {
      assert PriorityRank(a.priority) <= PriorityRank(b.priority) <= PriorityRank(c.priority);
    }
  }

  /** `[...cases].sort(comparator)`: the fetched list is a value, so the copy
      leaves it as it was; the result is a permutation of it in triage order. */
  function SortQueue(cases: seq<Case>): (r: seq<Case>)
    ensures multiset(r) == multiset(cases)
    ensures forall i, j :: 0 <= i < j < |r| ==> PriorityRank(r[i].priority) <= PriorityRank(r[j].priority)
    ensures forall i, j :: 0 <= i < j < |r| && r[j].priority == High ==> r[i].priority == High
    ensures forall i, j :: 0 <= i < j < |r| && r[j].priority == Medium ==> r[i].priority != Low
    ensures forall i, j :: 0 <= i < j < |r| && r[i].priority == r[j].priority ==> r[i].createdAt >= r[j].createdAt
  {
    QueueBeforeIsPreorder();
    SortBySorted(cases, QueueBefore);
    SortBy(cases, QueueBefore)
  }

  /** `analysisResult?.risk_score || 0` */
  function RiskScoreOf(c: Case): (score: real)
    ensures c.analysisResult.Some? ==> score == c.analysisResult.value.riskScore
    ensures c.analysisResult.None? ==> score == 0.0
  {
    match c.analysisResult
    case Some(r) => r.riskScore
    case None => 0.0
  }

  /** One row of `gridData`: the case's fields plus the risk score column. */
  datatype GridRow = GridRow(item: Case, riskScore: real)

  /** `sortedCases.map(...)`: one row per case, in the same order. */
  function GridData(sorted: seq<Case>): (rows: seq<GridRow>)
    ensures |rows| == |sorted|
    ensures forall i :: 0 <= i < |rows| ==> rows[i].item == sorted[i]
    ensures forall i :: 0 <= i < |rows| ==> rows[i].riskScore == RiskScoreOf(sorted[i])
  {
    if sorted == [] then []
    else [GridRow(sorted[0], RiskScoreOf(sorted[0]))] + GridData(sorted[1..])
  }

  /** What the dashboard shows: a spinner while the query has not answered,
      the empty-queue notice, or the grid. */
  datatype QueueView = Loading | EmptyQueue | Grid(rows: seq<GridRow>)

  function Dashboard(fetched: Option<seq<Case>>): (v: QueueView)
    ensures v.Loading? <==> fetched.None?
    ensures v.EmptyQueue? <==> fetched == Some([])
    ensures v.Grid? ==> |v.rows| == |fetched.value| > 0
                        && multiset(RowCases(v.rows)) == multiset(fetched.value)
    ensures v.Grid? ==> v.rows == GridData(SortQueue(fetched.value))
  {
    match fetched
    case None => Loading
    case Some(cases) =>
      var sorted := SortQueue(cases);
      if |sorted| == 0 then EmptyQueue
      else
        var rows := GridData(sorted);
        assert RowCases(rows) == sorted;
        Grid(rows)
  }

  /** The cases behind a list of rows. */
  function RowCases(rows: seq<GridRow>): (cs: seq<Case>)
    ensures |cs| == |rows|
    ensures forall i :: 0 <= i < |rows| ==> cs[i] == rows[i].item
  {
    if rows == [] then [] else [rows[0].item] + RowCases(rows[1..])
  }

  /** The queue holds exactly the fetched cases, whatever their order. */
  lemma QueueIsPermutation(cases: seq<Case>, c: Case)
    ensures c in SortQueue(cases) <==> c in cases
  {
    assert c in SortQueue(cases) <==> c in multiset(SortQueue(cases));
    assert c in cases <==> c in multiset(cases);
  }

  /** Two cases with different (priority, createdAt) keys are ordered one way
      only, so the queue order of such cases does not depend on the input order. */
  lemma QueueOrderDecided(a: Case, b: Case)
    requires a.priority != b.priority || a.createdAt != b.createdAt
    ensures QueueBefore(a, b) != QueueBefore(b, a)
  {
  }
}
