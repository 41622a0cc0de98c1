/** The cephalometric engine (utils/cephalometricCalculations.ts): landmark
    lookup, Euclidean distance, the law-of-cosines angle, and the Steiner
    battery with its interpretation thresholds. */
module Cephalometric {
  import opened Wrappers
  import opened Types

  type PositiveReal = r: real | r > 0.0 witness 1.0

  /** `Math.sqrt`, `Math.acos` and `Math.PI`, left abstract. */
  datatype MathLib = MathLib(sqrt: real -> real, acos: real -> real, pi: PositiveReal)

  /** The facts about the abstract functions that the geometric lemmas use. */
  ghost predicate ValidMath(m: MathLib) {
    && m.sqrt(0.0) == 0.0
    && (forall x :: x >= 0.0 ==> m.sqrt(x) >= 0.0)
    && (forall x :: -1.0 <= x <= 1.0 ==> 0.0 <= m.acos(x) <= m.pi)
  }

  const SellaName := "Sella (S)"
  const NasionName := "Nasion (N)"
  const APointName := "A-point (A)"
  const BPointName := "B-point (B)"
  const SteinerKey := "Steiner Analysis"

  /** Some landmark in the list carries exactly this name. */
  ghost predicate Found(name: string, landmarks: seq<Landmark>) {
    exists i :: 0 <= i < |landmarks| && landmarks[i].name == name
  }

  /** `landmarks.find(lm => lm.name === name)?.point` */
  function GetPoint(name: string, landmarks: seq<Landmark>): (r: Option<Point>)
    ensures r.None? <==> !Found(name, landmarks)
    ensures r.Some? ==> exists i :: 0 <= i < |landmarks| && landmarks[i].name == name
                          && landmarks[i].point == r.value
                          && forall j :: 0 <= j < i ==> landmarks[j].name != name
  {
    if landmarks == [] then None
    else if landmarks[0].name == name then Some(landmarks[0].point)
    else
      var r := GetPoint(name, landmarks[1..]);
      assert forall i :: 1 <= i < |landmarks| ==> landmarks[i] == landmarks[1..][i - 1];
      r
  }

  /** A landmark list whose first entry with the name carries `p` gives `p`,
      whatever later duplicates say. */
  lemma GetPointFirstWins(name: string, p: Point, before: seq<Landmark>, after: seq<Landmark>)
    requires forall j :: 0 <= j < |before| ==> before[j].name != name
    ensures GetPoint(name, before + [Landmark(name, p)] + after) == Some(p)
  {
    var l := before + [Landmark(name, p)] + after;
    assert l[|before|] == Landmark(name, p);
    forall j | 0 <= j < |before| ensures l[j].name != name {
      assert l[j] == before[j];
    }
  }

  function Square(a: real): real { a * a }

  /** `Math.sqrt(Math.pow(p2.x - p1.x, 2) + Math.pow(p2.y - p1.y, 2))` */
  function Distance(m: MathLib, p1: Point, p2: Point): real {
    m.sqrt(Square(p2.x - p1.x) + Square(p2.y - p1.y))
  }

  lemma DistanceSymmetric(m: MathLib, p1: Point, p2: Point)
    ensures Distance(m, p1, p2) == Distance(m, p2, p1)
  {
    assert Square(p2.x - p1.x) == Square(p1.x - p2.x);
    assert Square(p2.y - p1.y) == Square(p1.y - p2.y);
  }

  lemma DistanceNonNegative(m: MathLib, p1: Point, p2: Point)
    requires ValidMath(m)
    ensures Distance(m, p1, p2) >= 0.0
  {
    assert Square(p2.x - p1.x) >= 0.0 && Square(p2.y - p1.y) >= 0.0;
  }

  /** The law of cosines on the two sides adjacent to the vertex and the side
      opposite it, converted to degrees. */
  function LawOfCosines(m: MathLib, adjacent1: real, adjacent2: real, opposite: real): Num {
    var denominator := 2.0 * adjacent1 * adjacent2;
    if denominator == 0.0 then NaN
    else
      var ratio := (adjacent1 * adjacent1 + adjacent2 * adjacent2 - opposite * opposite) / denominator;
      if ratio < -1.0 || ratio > 1.0 then NaN
      else Finite(m.acos(ratio) * (180.0 / m.pi))
  }

  /** The angle at `p1` between the rays to `p2` and `p3`, in degrees. JavaScript
      yields NaN when the denominator is zero (two points coincide) and when
      `Math.acos` gets a ratio outside [-1, 1]. */
  function Angle(m: MathLib, p1: Point, p2: Point, p3: Point): Num {
    LawOfCosines(m, Distance(m, p1, p2), Distance(m, p1, p3), Distance(m, p2, p3))
  }

  lemma LawOfCosinesSymmetric(m: MathLib, a: real, b: real, c: real)
    ensures LawOfCosines(m, a, b, c) == LawOfCosines(m, b, a, c)
  {
    assert 2.0 * a * b == 2.0 * b * a;
    assert a * a + b * b - c * c == b * b + a * a - c * c;
  }

  /** The angle does not depend on the order of the two far points. */
  lemma AngleSymmetric(m: MathLib, p1: Point, p2: Point, p3: Point)
    ensures Angle(m, p1, p2, p3) == Angle(m, p1, p3, p2)
  {
    DistanceSymmetric(m, p2, p3);
    LawOfCosinesSymmetric(m, Distance(m, p1, p2), Distance(m, p1, p3), Distance(m, p2, p3));
  }

  lemma ScaleToDegrees(a: real, pi: PositiveReal)
    requires 0.0 <= a <= pi
    ensures 0.0 <= a * (180.0 / pi) <= 180.0
  {
    var k := 180.0 / pi;
    assert k * pi == 180.0;
    assert a * k <= pi * k;
  }

  /** A defined angle lies in [0, 180] degrees. */
  lemma AngleRange(m: MathLib, p1: Point, p2: Point, p3: Point)
    requires ValidMath(m)
    ensures Angle(m, p1, p2, p3).Finite? ==> 0.0 <= Angle(m, p1, p2, p3).r <= 180.0
  {
    var a, b, c := Distance(m, p1, p2), Distance(m, p1, p3), Distance(m, p2, p3);
    var denominator := 2.0 * a * b;
    if denominator != 0.0 {
      var ratio := (a * a + b * b - c * c) / denominator;
      if -1.0 <= ratio <= 1.0 {
        ScaleToDegrees(m.acos(ratio), m.pi);
      }
    }
  }

  /** Coincident vertex and far point leave the angle undefined (NaN). */
  lemma AngleDegenerate(m: MathLib, p1: Point, p3: Point)
    requires ValidMath(m)
    ensures Angle(m, p1, p1, p3) == NaN
  {
    assert Square(p1.x - p1.x) + Square(p1.y - p1.y) == 0.0;
  }

  /** JavaScript subtraction: NaN is absorbing. */
  function Minus(a: Num, b: Num): (r: Num)
    ensures r.Finite? <==> a.Finite? && b.Finite?
    ensures r.Finite? ==> r.r + b.r == a.r
  {
    if a.Finite? && b.Finite? then Finite(a.r - b.r) else NaN
  }

  /** `v > high ? above : (v < low ? below : 'Normal')`; a comparison with NaN is
      false, so NaN is classified Normal. */
  function Classify(v: Num, high: real, low: real, above: Interpretation, below: Interpretation): (r: Interpretation)
    requires low <= high && above != Normal && below != Normal && above != below
    ensures r == above <==> v.Finite? && v.r > high
    ensures r == below <==> v.Finite? && v.r < low
    ensures r == Normal <==> v.NaN? || low <= v.r <= high
  {
    match v
    case NaN => Normal
    case Finite(x) => if x > high then above else if x < low then below else Normal
  }

  function InterpretSna(v: Num): Interpretation { Classify(v, 84.0, 80.0, Protrusive, Retrusive) }
  function InterpretSnb(v: Num): Interpretation { Classify(v, 82.0, 78.0, Protrusive, Retrusive) }
  function InterpretAnb(v: Num): Interpretation { Classify(v, 4.0, 0.0, SkeletalClassII, SkeletalClassIII) }

  function DegreeMeasurement(name: string, v: Num, range: string, i: Interpretation): Measurement {
    Measurement(name, v, Degrees, Some(range), Some(i))
  }

  /** The three Steiner measurements, ANB being the difference of the other two. */
  function SteinerBattery(sna: Num, snb: Num): (battery: seq<Measurement>)
    ensures |battery| == 3
    ensures battery[0].name == "SNA" && battery[1].name == "SNB" && battery[2].name == "ANB"
    ensures forall k :: 0 <= k < 3 ==> battery[k].unit == Degrees
    ensures battery[0].normalRange == Some("82° ± 2°")
    ensures battery[1].normalRange == Some("80° ± 2°")
    ensures battery[2].normalRange == Some("2° ± 2°")
    ensures battery[0].value == sna && battery[1].value == snb
    ensures battery[2].value == Minus(battery[0].value, battery[1].value)
    ensures battery[0].interpretation == Some(InterpretSna(battery[0].value))
    ensures battery[1].interpretation == Some(InterpretSnb(battery[1].value))
    ensures battery[2].interpretation == Some(InterpretAnb(battery[2].value))
  {
    var anb := Minus(sna, snb);
    [ DegreeMeasurement("SNA", sna, "82° ± 2°", InterpretSna(sna)),
      DegreeMeasurement("SNB", snb, "80° ± 2°", InterpretSnb(snb)),
      DegreeMeasurement("ANB", anb, "2° ± 2°", InterpretAnb(anb)) ]
  }

  ghost predicate HasSteinerLandmarks(landmarks: seq<Landmark>) {
    Found(SellaName, landmarks) && Found(NasionName, landmarks)
    && Found(APointName, landmarks) && Found(BPointName, landmarks)
  }

  /** `analyzeCephalometricData`: the Steiner battery when all four points are
      present, otherwise an empty analysis. */
  function Analyze(m: MathLib, landmarks: seq<Landmark>): (r: CephalometricAnalysis)
    ensures r.Keys <= {SteinerKey}
    ensures SteinerKey in r <==> HasSteinerLandmarks(landmarks)
    ensures !HasSteinerLandmarks(landmarks) ==> r == map[]
    ensures SteinerKey in r ==>
      r[SteinerKey] == SteinerBattery(
        Angle(m, GetPoint(NasionName, landmarks).value, GetPoint(SellaName, landmarks).value,
              GetPoint(APointName, landmarks).value),
        Angle(m, GetPoint(NasionName, landmarks).value, GetPoint(SellaName, landmarks).value,
              GetPoint(BPointName, landmarks).value))
  {
    var s := GetPoint(SellaName, landmarks);
    var n := GetPoint(NasionName, landmarks);
    var a := GetPoint(APointName, landmarks);
    var b := GetPoint(BPointName, landmarks);
    if s.Some? && n.Some? && a.Some? && b.Some? then
      var sna := Angle(m, n.value, s.value, a.value);
      var snb := Angle(m, n.value, s.value, b.value);
      map[SteinerKey := SteinerBattery(sna, snb)]
    else
      map[]
  }

  /** SNA's boundaries 80 and 84 are both Normal; just outside them it is not. */
  lemma SnaThresholds()
    ensures InterpretSna(Finite(80.0)) == Normal && InterpretSna(Finite(84.0)) == Normal
    ensures InterpretSna(Finite(84.5)) == Protrusive && InterpretSna(Finite(79.5)) == Retrusive
  {
  }

  /** ANB's boundaries 0 and 4 are both Normal. */
  lemma AnbThresholds()
    ensures InterpretAnb(Finite(0.0)) == Normal && InterpretAnb(Finite(4.0)) == Normal
    ensures InterpretAnb(Finite(4.5)) == SkeletalClassII && InterpretAnb(Finite(-0.5)) == SkeletalClassIII
  {
  }
}
