/** views/doctor/AllReportsView.tsx: the report list's patient-ID filter, its
    column sort and the header-click toggle. The case list the live query
    delivers is an input. */
module AllReports {
  import opened Wrappers
  import opened Types
  import opened Text
  import opened Sorting

  datatype Order = Asc | Desc

  datatype OrderBy = PatientIdColumn | CreatedAtColumn | HealthDomainColumn

  /** `c[orderBy]`: a string for the patient ID and the domain (its enum
      value), a timestamp for the creation date. */
  datatype SortKey = Str(s: string) | Time(t: int)

  function KeyOf(c: Case, orderBy: OrderBy): (k: SortKey)
    ensures k.Time? <==> orderBy == CreatedAtColumn
  {
    match orderBy
    case PatientIdColumn => Str(c.patientId)
    case CreatedAtColumn => Time(c.createdAt)
    case HealthDomainColumn => Str(DomainName(c.healthDomain))
  }

  /** JavaScript's `<` on two keys of the same column: string order, or the
      order of the timestamps for dates. */
  predicate KeyLess(x: SortKey, y: SortKey) {
    match (x, y)
    case (Str(a), Str(b)) => StrLess(a, b)
    case (Time(a), Time(b)) => a < b
    case _ => false
  }

  predicate SameKind(x: SortKey, y: SortKey) {
    x.Str? == y.Str?
  }

  lemma KeyLessIrreflexive(x: SortKey)
    ensures !KeyLess(x, x)
  {
    if x.Str? { StrLessIrreflexive(x.s); }
  }

  lemma KeyLessTransitive(x: SortKey, y: SortKey, z: SortKey)
    requires KeyLess(x, y) && KeyLess(y, z)
    ensures KeyLess(x, z)
  {
    if x.Str? { StrLessTransitive(x.s, y.s, z.s); }
  }

  lemma KeyLessTotal(x: SortKey, y: SortKey)
    requires SameKind(x, y)
    ensures x == y || KeyLess(x, y) || KeyLess(y, x)
  {
    if x.Str? { StrLessTotal(x.s, y.s); }
  }

  /** The comparator of `sortedAndFilteredCases`. */
  function Compare(a: Case, b: Case, order: Order, orderBy: OrderBy): int {
    var isAsc := if order == Asc then 1 else -1;
    var ka := KeyOf(a, orderBy);
    var kb := KeyOf(b, orderBy);
    if KeyLess(kb, ka) then -1 * isAsc
    else if KeyLess(ka, kb) then 1 * isAsc
    else 0
  }

  /** The comparator returns 0 exactly on equal keys. */
  lemma CompareZeroIffEqualKeys(a: Case, b: Case, order: Order, orderBy: OrderBy)
    ensures Compare(a, b, order, orderBy) == 0 <==> KeyOf(a, orderBy) == KeyOf(b, orderBy)
  {
    KeyLessIrreflexive(KeyOf(a, orderBy));
    KeyLessTotal(KeyOf(a, orderBy), KeyOf(b, orderBy));
  }

  /** With 'asc' the comparator puts the larger key first, with 'desc' the
      smaller one: the direction is the reverse of the header's label. */
  lemma CompareDirection(a: Case, b: Case, order: Order, orderBy: OrderBy)
    requires KeyLess(KeyOf(a, orderBy), KeyOf(b, orderBy))
    ensures order == Asc ==> Compare(a, b, order, orderBy) > 0
    ensures order == Desc ==> Compare(a, b, order, orderBy) < 0
  {
    var ka, kb := KeyOf(a, orderBy), KeyOf(b, orderBy);
    if KeyLess(kb, ka) {
      KeyLessTransitive(ka, kb, ka);
      KeyLessIrreflexive(ka);
    }
  }

  /** The sort may keep `a` ahead of `b`. */
  predicate Before(a: Case, b: Case, order: Order, orderBy: OrderBy) {
    Compare(a, b, order, orderBy) <= 0
  }

  /** In key terms: 'asc' keeps `a` ahead when its key is not smaller, 'desc'
      when it is not larger. */
  lemma BeforeByKey(a: Case, b: Case, order: Order, orderBy: OrderBy)
    ensures order == Asc ==> (Before(a, b, order, orderBy) <==> !KeyLess(KeyOf(a, orderBy), KeyOf(b, orderBy)))
    ensures order == Desc ==> (Before(a, b, order, orderBy) <==> !KeyLess(KeyOf(b, orderBy), KeyOf(a, orderBy)))
  {
    var ka, kb := KeyOf(a, orderBy), KeyOf(b, orderBy);
    if KeyLess(ka, kb) && KeyLess(kb, ka) {
      KeyLessTransitive(ka, kb, ka);
      KeyLessIrreflexive(ka);
    }
  }

  lemma BeforeIsPreorder(order: Order, orderBy: OrderBy)
    ensures TotalPreorder((a: Case, b: Case) => Before(a, b, order, orderBy))
  {
    var before := (a: Case, b: Case) => Before(a, b, order, orderBy);
    forall a: Case, b: Case ensures before(a, b) || before(b, a) {
      var ka, kb := KeyOf(a, orderBy), KeyOf(b, orderBy);
      BeforeByKey(a, b, order, orderBy);
      BeforeByKey(b, a, order, orderBy);
      if KeyLess(ka, kb) && KeyLess(kb, ka) {
        KeyLessTransitive(ka, kb, ka);
        KeyLessIrreflexive(ka);
      }
    }
    forall a: Case, b: Case, c: Case | before(a, b) && before(b, c) ensures before(a, c) {
      var ka, kb, kc := KeyOf(a, orderBy), KeyOf(b, orderBy), KeyOf(c, orderBy);
      BeforeByKey(a, b, order, orderBy);
      BeforeByKey(b, c, order, orderBy);
      BeforeByKey(a, c, order, orderBy);
      KeyLessTotal(ka, kb);
      if order == Asc && KeyLess(ka, kc) && ka != kb {
        KeyLessTransitive(kb, ka, kc);
      }
      if order == Desc && KeyLess(kc, ka) && ka != kb {
        KeyLessTransitive(kc, ka, kb);
      }
    }
  }

  /** `c.patientId.toLowerCase().includes(filter.toLowerCase())` */
  predicate Matches(c: Case, filter: string) {
    Contains(ToLower(c.patientId), ToLower(filter))
  }

  /** `allCases.filter(...)`, keeping the list order. */
  function FilterCases(cases: seq<Case>, filter: string): (r: seq<Case>)
    ensures |r| <= |cases|
    ensures forall c :: multiset(r)[c] == if Matches(c, filter) then multiset(cases)[c] else 0
  {
    if cases == [] then []
    else
      assert cases == [cases[0]] + cases[1..];
      if Matches(cases[0], filter) then [cases[0]] + FilterCases(cases[1..], filter)
      else FilterCases(cases[1..], filter)
  }

  /** The empty filter keeps every case, in the original order. */
  lemma {:induction false} EmptyFilterKeepsAll(cases: seq<Case>)
    ensures FilterCases(cases, "") == cases
  {
    if cases != [] {
      ContainsEmpty(ToLower(cases[0].patientId));
      EmptyFilterKeepsAll(cases[1..]);
    }
  }

  /** `sortedAndFilteredCases`: nothing before the query answers, otherwise the
      matching cases sorted by the comparator. */
  function SortedAndFiltered(allCases: Option<seq<Case>>, filter: string, order: Order, orderBy: OrderBy): (r: seq<Case>)
    ensures allCases.None? ==> r == []
    ensures allCases.Some? ==> multiset(r) == multiset(FilterCases(allCases.value, filter))
    ensures forall c :: c in r <==> allCases.Some? && c in allCases.value && Matches(c, filter)
    ensures order == Asc ==>
      forall i, j :: 0 <= i < j < |r| ==> !KeyLess(KeyOf(r[i], orderBy), KeyOf(r[j], orderBy))
    ensures order == Desc ==>
      forall i, j :: 0 <= i < j < |r| ==> !KeyLess(KeyOf(r[j], orderBy), KeyOf(r[i], orderBy))
  {
    match allCases
    case None => []
    case Some(cases) =>
      var filtered := FilterCases(cases, filter);
      var before := (a: Case, b: Case) => Before(a, b, order, orderBy);
      BeforeIsPreorder(order, orderBy);
      SortBySorted(filtered, before);
      var r := SortBy(filtered, before);
      forall i, j | 0 <= i < j < |r|
        ensures order == Asc ==> !KeyLess(KeyOf(r[i], orderBy), KeyOf(r[j], orderBy))
        ensures order == Desc ==> !KeyLess(KeyOf(r[j], orderBy), KeyOf(r[i], orderBy))
      {
        assert before(r[i], r[j]);
        BeforeByKey(r[i], r[j], order, orderBy);
      }
      forall c ensures c in r <==> c in cases && Matches(c, filter) {
        assert c in r <==> c in multiset(r);
        assert c in cases <==> c in multiset(cases);
      }
      r
  }

  /** The sort state after a click on the header of `property`. */
  function NextSort(order: Order, orderBy: OrderBy, property: OrderBy): (s: (Order, OrderBy))
    ensures s.1 == property
    ensures orderBy == property && order == Asc ==> s.0 == Desc
    ensures orderBy == property && order == Desc ==> s.0 == Asc
    ensures orderBy != property ==> s.0 == Asc
  {
    var isAsc := orderBy == property && order == Asc;
    (if isAsc then Desc else Asc, property)
  }

  /** Two clicks on the active column give back the sort it started from. */
  lemma NextSortTwice(order: Order, orderBy: OrderBy)
    ensures var s := NextSort(order, orderBy, orderBy); NextSort(s.0, s.1, orderBy) == (order, orderBy)
  {
  }

  /** The view's `order`, `orderBy` and `filter` state. */
  class ReportList {
    var order: Order
    var orderBy: OrderBy
    var filter: string

    /** Newest first by creation date, and no filter. */
    constructor ()
      ensures order == Desc && orderBy == CreatedAtColumn && filter == ""
    {
      order := Desc;
      orderBy := CreatedAtColumn;
      filter := "";
    }

    /** `handleRequestSort(property)` */
    method RequestSort(property: OrderBy)
      modifies this
      ensures (order, orderBy) == NextSort(old(order), old(orderBy), property)
      ensures filter == old(filter)
    {
      order, orderBy := NextSort(order, orderBy, property).0, property;
    }

    /** The search field's `onChange`. */
    method SetFilter(text: string)
      modifies this
      ensures filter == text && order == old(order) && orderBy == old(orderBy)
    {
      filter := text;
    }

    /** The rows shown for the current state. */
    function Rows(allCases: Option<seq<Case>>): seq<Case>
      reads this
    {
      SortedAndFiltered(allCases, filter, order, orderBy)
    }
  }
}
