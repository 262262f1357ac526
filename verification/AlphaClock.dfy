/** The Alpha clock: an underwritten edge decays linearly over its evidence horizon and is rounded,
half to even, to a ten-thousandth of a basis point.  Instants are whole microseconds, amounts exact.
*/
module AlphaClocks {
  import opened Contracts

  const SECONDS_PER_DAY := 86400

  datatype Instant = Instant(micros: int, aware: bool)

  datatype Stage = Forming | Active | Expiring | Expired

  datatype AlphaClock = AlphaClock(
    knownAt: Instant, freshAt: Instant, horizonDays: int, ageSeconds: int, remainingSeconds: int, retention: real,
    stage: Stage, rawBps: real, adjustedBps: real, clarity: real, facts: seq<nat>)

  datatype ClockError = HorizonOutOfRange | NaiveTime | FutureEvidence | ClarityOutOfRange

  datatype Built = Clock(clock: AlphaClock) | Invalid(error: ClockError)

  // ---- Rounding ---------------------------------------------------------------------------

  /** The nearest integer, and the even one of two that are equally near. */
  function HalfEven(x: real): int {
    var rest := x - x.Floor as real;
    if rest < 0.5 then x.Floor
    else if rest > 0.5 then x.Floor + 1
    else if x.Floor % 2 == 0 then x.Floor
    else x.Floor + 1
  }

  function RoundBps(x: real): real {
    HalfEven(x * 10000.0) as real / 10000.0
  }

  lemma HalfEvenIsNearest(x: real, k: int)
    ensures var r := HalfEven(x); var d := x - r as real;
      && -0.5 <= d <= 0.5
      && (d == 0.5 || d == -0.5 ==> r % 2 == 0)
      && (x - k as real < 0.5 && k as real - x < 0.5 ==> k == r)
  {
  }

  lemma HalfEvenMonotone(x: real, y: real)
    requires x <= y
    ensures HalfEven(x) <= HalfEven(y)
  {
    if HalfEven(x) > HalfEven(y) {
      HalfEvenIsNearest(x, 0);
      HalfEvenIsNearest(y, 0);
    }
  }

  lemma RoundMonotone(x: real, y: real)
    requires x <= y
    ensures RoundBps(x) <= RoundBps(y)
  {
    HalfEvenMonotone(x * 10000.0, y * 10000.0);
  }

  /** What is left of an edge. */
  function Decayed(rawBps: real, retention: real): real {
    RoundBps(rawBps * retention)
  }

  lemma RoundZero()
    ensures RoundBps(0.0) == 0.0
  {
    assert 0.0 * 10000.0 == 0.0 && (0.0).Floor == 0;
  }

  lemma DecayedOfNothing(rawBps: real)
    ensures Decayed(rawBps, 0.0) == 0.0
  {
    assert rawBps * 0.0 == 0.0;
    RoundZero();
  }

  lemma ProductGrows(raw: real, x: real, y: real)
    requires x <= y && raw >= 0.0
    ensures raw * x <= raw * y
  {
    assert raw * y - raw * x == raw * (y - x);
  }

  lemma ProductFalls(raw: real, x: real, y: real)
    requires x <= y && raw <= 0.0
    ensures raw * x >= raw * y
  {
    assert raw * x - raw * y == raw * (x - y);
  }

  lemma DecayedGrows(rawBps: real, x: real, y: real)
    requires x <= y && rawBps >= 0.0
    ensures Decayed(rawBps, x) <= Decayed(rawBps, y)
  {
    ProductGrows(rawBps, x, y);
    RoundMonotone(rawBps * x, rawBps * y);
  }

  lemma DecayedFalls(rawBps: real, x: real, y: real)
    requires x <= y && rawBps <= 0.0
    ensures Decayed(rawBps, y) <= Decayed(rawBps, x)
  {
    ProductFalls(rawBps, x, y);
    RoundMonotone(rawBps * y, rawBps * x);
  }

  lemma DecayedMonotone(rawBps: real, x: real, y: real)
    requires 0.0 <= x <= y
    ensures rawBps >= 0.0 ==> 0.0 <= Decayed(rawBps, x) <= Decayed(rawBps, y)
    ensures rawBps <= 0.0 ==> Decayed(rawBps, y) <= Decayed(rawBps, x) <= 0.0
  {
    DecayedOfNothing(rawBps);
    if rawBps >= 0.0 {
      DecayedGrows(rawBps, x, y);
      DecayedGrows(rawBps, 0.0, x);
    }
    if rawBps <= 0.0 {
      DecayedFalls(rawBps, x, y);
      DecayedFalls(rawBps, 0.0, x);
    }
  }

  // ---- The clock --------------------------------------------------------------------------

  function Clamp(x: int, top: int): int {
    Min(top, if x > 0 then x else 0)
  }

  function AgeSeconds(knownAt: Instant, freshAt: Instant, total: int): int {
    Clamp((knownAt.micros - freshAt.micros) / 1000000, total)
  }

  function StageOf(retention: real): Stage {
    if retention == 0.0 then Expired
    else if retention <= 0.20 then Expiring
    else if retention <= 0.67 then Active
    else Forming
  }

  function Rank(s: Stage): nat {
    match s case Forming => 0 case Active => 1 case Expiring => 2 case Expired => 3
  }

  /** The first occurrence of each fact, in order. */
  function Distinct(facts: seq<nat>): seq<nat> {
    if facts == [] then []
    else
      var front, last := Distinct(facts[..|facts| - 1]), facts[|facts| - 1];
      if last in front then front else front + [last]
  }

  function FirstFour(facts: seq<nat>): seq<nat> {
    if |facts| <= 4 then facts else facts[..4]
  }

  function Build(
    knownAt: Instant, freshAt: Instant, horizonDays: int, rawBps: real, clarity: real, facts: seq<nat>): Built
  {
    if horizonDays < 1 || horizonDays > 365 then Invalid(HorizonOutOfRange)
    else if !knownAt.aware || !freshAt.aware then Invalid(NaiveTime)
    else if freshAt.micros > knownAt.micros then Invalid(FutureEvidence)
    else if !(0.0 <= clarity <= 1.0) then Invalid(ClarityOutOfRange)
    else
      var total := horizonDays * SECONDS_PER_DAY;
      var age := AgeSeconds(knownAt, freshAt, total);
      var retention := (total - age) as real / total as real;
      Clock(AlphaClock(
        knownAt, freshAt, horizonDays, age, total - age, retention, StageOf(retention), rawBps,
        Decayed(rawBps, retention), clarity, FirstFour(Distinct(facts))))
  }

  /** The record's own validator, with its field bounds. */
  predicate ValidClock(c: AlphaClock) {
    && c.knownAt.aware && c.freshAt.aware && c.freshAt.micros <= c.knownAt.micros
    && 1 <= c.horizonDays <= 365 && 0 <= c.ageSeconds && 0 <= c.remainingSeconds
    && c.ageSeconds + c.remainingSeconds == c.horizonDays * SECONDS_PER_DAY
    && 0.0 <= c.retention <= 1.0 && 0.0 <= c.clarity <= 1.0 && |c.facts| <= 4
    && c.adjustedBps == Decayed(c.rawBps, c.retention)
  }

  lemma Ratio(part: int, total: int)
    requires 0 <= part <= total && 0 < total
    ensures 0.0 <= part as real / total as real <= 1.0
    ensures part as real / total as real == 0.0 <==> part == 0
  {
  }

  /** Every admissible input gives a clock that its own validator accepts. */
  lemma BuildIsValid(knownAt: Instant, freshAt: Instant, horizonDays: int, rawBps: real, clarity: real, facts: seq<nat>)
    ensures var built := Build(knownAt, freshAt, horizonDays, rawBps, clarity, facts);
      && (built.Clock? <==>
            && 1 <= horizonDays <= 365 && knownAt.aware && freshAt.aware && freshAt.micros <= knownAt.micros
            && 0.0 <= clarity <= 1.0)
      && (built.Clock? ==> ValidClock(built.clock))
  {
    var built := Build(knownAt, freshAt, horizonDays, rawBps, clarity, facts);
    if built.Clock? {
      Ratio(built.clock.remainingSeconds, horizonDays * SECONDS_PER_DAY);
    }
  }

  /** The edge is spent exactly when the whole horizon has passed since the evidence. */
  lemma ExpiredIffHorizonPassed(
    knownAt: Instant, freshAt: Instant, horizonDays: int, rawBps: real, clarity: real, facts: seq<nat>)
    requires Build(knownAt, freshAt, horizonDays, rawBps, clarity, facts).Clock?
    ensures var c := Build(knownAt, freshAt, horizonDays, rawBps, clarity, facts).clock;
      && (c.stage.Expired? <==> knownAt.micros - freshAt.micros >= horizonDays * SECONDS_PER_DAY * 1000000)
      && (c.stage.Expired? ==> c.adjustedBps == 0.0)
  {
    var c := Build(knownAt, freshAt, horizonDays, rawBps, clarity, facts).clock;
    Ratio(c.remainingSeconds, horizonDays * SECONDS_PER_DAY);
    DecayedOfNothing(rawBps);
  }

  lemma RatioMonotone(a: int, b: int, total: int)
    requires a <= b && 0 < total
    ensures a as real / total as real <= b as real / total as real
  {
    assert b as real / total as real - a as real / total as real == (b - a) as real / total as real;
  }

  lemma StageMonotone(x: real, y: real)
    requires 0.0 <= x <= y
    ensures Rank(StageOf(y)) <= Rank(StageOf(x))
  {
  }

  /** As time passes the retention never rises, a non-negative edge never grows, a negative one never
  deepens, and the stage only moves forward. */
  lemma DecaysOverTime(
    early: Instant, late: Instant, freshAt: Instant, horizonDays: int, rawBps: real, clarity: real, facts: seq<nat>)
    requires early.micros <= late.micros && late.aware
    requires Build(early, freshAt, horizonDays, rawBps, clarity, facts).Clock?
    ensures Build(late, freshAt, horizonDays, rawBps, clarity, facts).Clock?
    ensures var a := Build(early, freshAt, horizonDays, rawBps, clarity, facts).clock;
      var b := Build(late, freshAt, horizonDays, rawBps, clarity, facts).clock;
      && b.retention <= a.retention
      && (rawBps >= 0.0 ==> 0.0 <= b.adjustedBps <= a.adjustedBps)
      && (rawBps <= 0.0 ==> a.adjustedBps <= b.adjustedBps <= 0.0)
      && Rank(a.stage) <= Rank(b.stage)
  {
    var a := Build(early, freshAt, horizonDays, rawBps, clarity, facts).clock;
    var b := Build(late, freshAt, horizonDays, rawBps, clarity, facts).clock;
    var total := horizonDays * SECONDS_PER_DAY;
    RatioMonotone(b.remainingSeconds, a.remainingSeconds, total);
    Ratio(b.remainingSeconds, total);
    StageMonotone(b.retention, a.retention);
    DecayedMonotone(rawBps, b.retention, a.retention);
  }

  predicate NotRaised(built: Built) {
    built.Clock? ==> built.clock.adjustedBps <= built.clock.rawBps
  }

  /** The adjusted edge stays at or below the raw one, at every time, exactly when the raw edge is not
  negative - a negative one decays upward to nothing - and rounding it does not raise it. */
  lemma NeverRaisedIff(freshAt: Instant, horizonDays: int, rawBps: real, clarity: real, facts: seq<nat>)
    requires freshAt.aware && 1 <= horizonDays <= 365 && 0.0 <= clarity <= 1.0
    ensures (forall late: Instant :: NotRaised(Build(late, freshAt, horizonDays, rawBps, clarity, facts)))
            <==> 0.0 <= rawBps && RoundBps(rawBps) <= rawBps
  {
    BuildIsValid(freshAt, freshAt, horizonDays, rawBps, clarity, facts);
    var c := Build(freshAt, freshAt, horizonDays, rawBps, clarity, facts);
    WholeRatio(horizonDays * SECONDS_PER_DAY);
    assert c.clock.adjustedBps == RoundBps(rawBps);
    if rawBps < 0.0 {
      NegativeIsRaised(freshAt, horizonDays, rawBps, clarity, facts);
    } else if RoundBps(rawBps) <= rawBps {
      forall late: Instant
        ensures NotRaised(Build(late, freshAt, horizonDays, rawBps, clarity, facts))
      {
        if Build(late, freshAt, horizonDays, rawBps, clarity, facts).Clock? {
          DecaysOverTime(freshAt, late, freshAt, horizonDays, rawBps, clarity, facts);
        }
      }
    } else {
      assert !NotRaised(c);
    }
  }

  /** Once the horizon has passed nothing is left, which is more than a negative edge. */
  lemma NegativeIsRaised(freshAt: Instant, horizonDays: int, rawBps: real, clarity: real, facts: seq<nat>)
    requires freshAt.aware && 1 <= horizonDays <= 365 && 0.0 <= clarity <= 1.0 && rawBps < 0.0
    ensures exists late: Instant :: !NotRaised(Build(late, freshAt, horizonDays, rawBps, clarity, facts))
  {
    var late := Instant(freshAt.micros + horizonDays * SECONDS_PER_DAY * 1000000, true);
    BuildIsValid(late, freshAt, horizonDays, rawBps, clarity, facts);
    ExpiredIffHorizonPassed(late, freshAt, horizonDays, rawBps, clarity, facts);
    assert !NotRaised(Build(late, freshAt, horizonDays, rawBps, clarity, facts));
  }

  lemma WholeRatio(total: int)
    requires 0 < total
    ensures total as real / total as real == 1.0
  {
  }

  /** For instance an edge of 0.00006 basis points is rounded up to 0.0001. */
  lemma RoundingCanRaise()
    ensures RoundBps(0.00006) == 0.0001
  {
    assert (0.00006 * 10000.0).Floor == 0;
  }

  /** Position `i` is where the fact is first given. */
  predicate FirstAt(facts: seq<nat>, f: nat, i: nat) {
    i < |facts| && facts[i] == f && f !in facts[..i]
  }

  /** Each different fact once, in the order in which they are first given. */
  lemma {:induction false} DistinctFacts(facts: seq<nat>)
    ensures forall i, j | 0 <= i < j < |Distinct(facts)| :: Distinct(facts)[i] != Distinct(facts)[j]
    ensures forall f :: f in Distinct(facts) <==> f in facts
    ensures forall i, j, a, b | 0 <= i < j < |Distinct(facts)|
              && FirstAt(facts, Distinct(facts)[i], a) && FirstAt(facts, Distinct(facts)[j], b) :: a < b
  {
    if facts != [] {
      var m := |facts| - 1;
      var front, d := facts[..m], Distinct(facts);
      DistinctFacts(front);
      assert facts == front + [facts[m]];
      forall i, j, a, b | 0 <= i < j < |d| && FirstAt(facts, d[i], a) && FirstAt(facts, d[j], b)
        ensures a < b
      {
        assert d[i] == Distinct(front)[i] && d[i] in front;
        FirstInFront(facts, d[i], a);
        if j < |Distinct(front)| {
          FirstInFront(facts, d[j], b);
        }
      }
    }
  }

  lemma FirstInFront(facts: seq<nat>, f: nat, i: nat)
    requires facts != [] && FirstAt(facts, f, i) && f in facts[..|facts| - 1]
    ensures i < |facts| - 1 && FirstAt(facts[..|facts| - 1], f, i)
  {
    var front := facts[..|facts| - 1];
    if i < |front| {
      assert front[..i] == facts[..i];
    }
  }

  /** A clock keeps the first four of them, or all when there are fewer. */
  lemma KeptFacts(knownAt: Instant, freshAt: Instant, horizonDays: int, rawBps: real, clarity: real, facts: seq<nat>)
    requires Build(knownAt, freshAt, horizonDays, rawBps, clarity, facts).Clock?
    ensures var kept := Build(knownAt, freshAt, horizonDays, rawBps, clarity, facts).clock.facts;
      && kept <= Distinct(facts)
      && |kept| <= 4 && (|kept| < 4 ==> forall f | f in facts :: f in kept)
  {
    DistinctFacts(facts);
  }
}
