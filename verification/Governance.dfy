/** Capital governance: a rolling window of closed positions is reduced to a posture and a multiplier.

The evidence summary of the window is a parameter: any function of the window's alphas, the minimum
sample and the number of research trials.  Amounts are exact.
*/
module Governance {
  import opened Contracts
  import opened Ordering

  datatype Observation = Observation(positionId: nat, knownAt: int, aware: bool, netPnl: real, alphaBps: real)

  datatype Policy = Policy(
    windowSize: nat, minimumSample: nat, probationSample: nat, drawdownLimitBps: real,
    collecting: real, probation: real, preservation: real)

  predicate ValidPolicy(p: Policy) {
    && 10 <= p.windowSize <= 250 && 10 <= p.minimumSample <= 250 && 5 <= p.probationSample <= 100
    && 0.0 < p.drawdownLimitBps
    && 0.0 < p.collecting <= 1.0 && 0.0 < p.probation <= 1.0 && 0.0 < p.preservation <= 1.0
    && p.minimumSample <= p.windowSize && p.probationSample <= p.minimumSample && p.preservation <= p.probation
  }

  datatype Evidence = Evidence(lower: Option<real>, upper: Option<real>, selectionLower: Option<real>)

  type Summary = (seq<(nat, real)>, nat, nat) -> Evidence

  datatype Metrics = Metrics(mean: Option<real>, drawdownBps: real, evidence: Evidence)

  datatype Reason =
    | DrawdownLimit | NegativeInterval | MeanNegative | NotProven | SampleCollecting | AlphaPositive

  datatype Posture = Collecting | Normal | Probation | Preservation

  datatype Verdict = Verdict(
    posture: Posture, multiplier: real, sample: nat, window: seq<Observation>, metrics: Metrics, reasons: seq<Reason>)

  datatype Invalid = NavNotPositive | NotUnique | TotalTooSmall | NaiveTime | TrialsTooSmall

  datatype Outcome = Governed(verdict: Verdict) | Refused(invalid: Invalid)

  // ---- Drawdown ---------------------------------------------------------------------------

  /** The cumulative result after the first `i` positions. */
  function Prefix(pnl: seq<real>, i: nat): real
    requires i <= |pnl|
  {
    if i == 0 then 0.0 else Prefix(pnl, i - 1) + pnl[i - 1]
  }

  /** A fall from one moment to a later one, or to the same. */
  function Fall(pnl: seq<real>, i: nat, j: nat): real
    requires i <= j <= |pnl|
  {
    Prefix(pnl, i) - Prefix(pnl, j)
  }

  ghost predicate IsDeepestFall(pnl: seq<real>, x: real) {
    && (forall i, j | 0 <= i <= j <= |pnl| :: Fall(pnl, i, j) <= x)
    && (exists i, j | 0 <= i <= j <= |pnl| :: Fall(pnl, i, j) == x)
  }

  function Max(x: real, y: real): real {
    if x >= y then x else y
  }

  function HighWater(pnl: seq<real>, n: nat): real
    requires n <= |pnl|
  {
    if n == 0 then 0.0 else Max(HighWater(pnl, n - 1), Prefix(pnl, n))
  }

  /** The drawdown as the single pass accumulates it. */
  function Drawdown(pnl: seq<real>, n: nat): real
    requires n <= |pnl|
  {
    if n == 0 then 0.0 else Max(Drawdown(pnl, n - 1), HighWater(pnl, n) - Prefix(pnl, n))
  }

  lemma {:induction false} HighWaterIsHighest(pnl: seq<real>, n: nat) returns (top: nat)
    requires n <= |pnl|
    ensures top <= n && Prefix(pnl, top) == HighWater(pnl, n)
    ensures forall i | 0 <= i <= n :: Prefix(pnl, i) <= HighWater(pnl, n)
  {
    top := 0;
    if n > 0 {
      top := HighWaterIsHighest(pnl, n - 1);
      if Prefix(pnl, n) > HighWater(pnl, n - 1) {
        top := n;
      }
    }
  }

  lemma {:induction false} DrawdownIsDeepest(pnl: seq<real>, n: nat) returns (i: nat, j: nat)
    requires n <= |pnl|
    ensures i <= j <= n && Fall(pnl, i, j) == Drawdown(pnl, n)
    ensures forall k, l | 0 <= k <= l <= n :: Fall(pnl, k, l) <= Drawdown(pnl, n)
  {
    i, j := 0, 0;
    if n > 0 {
      i, j := DrawdownIsDeepest(pnl, n - 1);
      var top := HighWaterIsHighest(pnl, n);
      if HighWater(pnl, n) - Prefix(pnl, n) > Drawdown(pnl, n - 1) {
        i, j := top, n;
      }
    }
  }

  /** One pass with a running high-water mark finds the deepest fall between any two moments. */
  method MaximumDrawdown(pnl: seq<real>) returns (maximum: real)
    ensures IsDeepestFall(pnl, maximum) && maximum >= 0.0
    ensures maximum == Drawdown(pnl, |pnl|)
  {
    var cumulative, highWater := 0.0, 0.0;
    maximum := 0.0;
    for n := 0 to |pnl|
      invariant cumulative == Prefix(pnl, n)
      invariant highWater == HighWater(pnl, n)
      invariant maximum == Drawdown(pnl, n) && maximum >= 0.0
    {
      cumulative := cumulative + pnl[n];
      highWater := Max(highWater, cumulative);
      maximum := Max(maximum, highWater - cumulative);
    }
    ghost var i, j := DrawdownIsDeepest(pnl, |pnl|);
    assert Fall(pnl, i, j) == maximum;
  }

  // ---- The window -------------------------------------------------------------------------

  predicate Earlier(x: Observation, y: Observation) {
    x.knownAt < y.knownAt || (x.knownAt == y.knownAt && x.positionId <= y.positionId)
  }

  function PositionIds(s: seq<Observation>): seq<nat> {
    seq(|s|, i requires 0 <= i < |s| => s[i].positionId)
  }

  function Ids(s: seq<Observation>): set<nat> {
    Elements(PositionIds(s))
  }

  function Window(s: seq<Observation>, size: nat): seq<Observation> {
    var ordered := Sorted(s, Earlier);
    if |ordered| <= size then ordered else ordered[|ordered| - size..]
  }

  lemma EarlierTotal()
    ensures TotalOrder(Earlier)
  {
  }

  lemma UniqueIsSeparated(s: seq<Observation>)
    requires |Ids(s)| == |s|
    ensures Separated(s, Earlier)
  {
    CountIffNoRepeats(PositionIds(s));
    assert forall i | 0 <= i < |s| :: PositionIds(s)[i] == s[i].positionId;
  }

  lemma SameElements(s: seq<Observation>, t: seq<Observation>)
    requires multiset(s) == multiset(t)
    ensures |s| == |t| && Ids(s) == Ids(t)
    ensures (exists i | 0 <= i < |s| :: !s[i].aware) <==> (exists i | 0 <= i < |t| :: !t[i].aware)
  {
    assert |multiset(s)| == |s| && |multiset(t)| == |t|;
    forall i | 0 <= i < |s|
      ensures s[i] in t
    {
      SameMultisetIn(s, t, s[i]);
    }
    forall i | 0 <= i < |t|
      ensures t[i] in s
    {
      SameMultisetIn(t, s, t[i]);
    }
    SameIds(s, t);
    SameIds(t, s);
  }

  lemma SameIds(s: seq<Observation>, t: seq<Observation>)
    requires forall i | 0 <= i < |s| :: s[i] in t
    ensures Ids(s) <= Ids(t)
  {
    forall id | id in Ids(s)
      ensures id in Ids(t)
    {
      var i :| 0 <= i < |s| && PositionIds(s)[i] == id;
      var j :| 0 <= j < |t| && t[j] == s[i];
      assert PositionIds(t)[j] == id;
    }
  }

  /** How many observations are too old for the window. */
  function LeftOut(s: seq<Observation>, size: nat): nat {
    if |s| <= size then 0 else |s| - size
  }

  lemma WindowCut(s: seq<Observation>, size: nat)
    ensures LeftOut(s, size) <= |s| == |Sorted(s, Earlier)|
    ensures Window(s, size) == Sorted(s, Earlier)[LeftOut(s, size)..]
  {
  }

  /** The window is the newest observations: everything left out is earlier than everything kept. */
  lemma WindowHoldsNewest(s: seq<Observation>, size: nat)
    ensures var w := Window(s, size); var older := Sorted(s, Earlier)[..LeftOut(s, size)];
      && |w| == (if |s| <= size then |s| else size)
      && multiset(older) + multiset(w) == multiset(s)
      && InOrder(w, Earlier)
      && forall x, y | x in older && y in w :: Earlier(x, y)
  {
    WindowCut(s, size);
    EarlierSorted(s);
    CutInOrder(Sorted(s, Earlier), LeftOut(s, size), Earlier);
  }

  lemma EarlierSorted(s: seq<Observation>)
    ensures multiset(Sorted(s, Earlier)) == multiset(s) && InOrder(Sorted(s, Earlier), Earlier)
  {
    EarlierTotal();
    SortedIsSorted(s, Earlier);
  }

  lemma WindowAnyOrder(s: seq<Observation>, t: seq<Observation>, size: nat)
    requires multiset(s) == multiset(t) && |Ids(s)| == |s|
    ensures Window(s, size) == Window(t, size)
  {
    EarlierTotal();
    UniqueIsSeparated(s);
    SortedAnyOrder(s, t, Earlier);
  }

  // ---- Metrics, reasons and posture -------------------------------------------------------

  function SumAlpha(w: seq<Observation>): real {
    if w == [] then 0.0 else SumAlpha(w[..|w| - 1]) + w[|w| - 1].alphaBps
  }

  function Pnl(w: seq<Observation>): seq<real> {
    seq(|w|, i requires 0 <= i < |w| => w[i].netPnl)
  }

  function Alphas(w: seq<Observation>): seq<(nat, real)> {
    seq(|w|, i requires 0 <= i < |w| => (w[i].positionId, w[i].alphaBps))
  }

  function Measured(w: seq<Observation>, nav: real, policy: Policy, trials: nat, summarize: Summary): Metrics
    requires nav > 0.0
  {
    Metrics(
      if w == [] then None else Some(SumAlpha(w) / |w| as real),
      Drawdown(Pnl(w), |w|) / nav * 10000.0,
      summarize(Alphas(w), policy.minimumSample, trials))
  }

  predicate BreachesDrawdown(m: Metrics, policy: Policy) {
    m.drawdownBps >= policy.drawdownLimitBps
  }

  predicate IntervalNegative(m: Metrics, n: nat, policy: Policy) {
    n >= policy.minimumSample && m.evidence.upper.Some? && m.evidence.upper.value <= 0.0
  }

  predicate MeanBelowZero(m: Metrics, n: nat, policy: Policy) {
    n >= policy.probationSample && m.mean.Some? && m.mean.value < 0.0
  }

  predicate Unproven(m: Metrics, n: nat, policy: Policy) {
    n >= policy.minimumSample && (m.evidence.selectionLower.None? || m.evidence.selectionLower.value <= 0.0)
  }

  /** The four adverse findings, in the order they are looked for. */
  method ReasonCodes(m: Metrics, n: nat, policy: Policy) returns (reasons: seq<Reason>)
    ensures DrawdownLimit in reasons <==> BreachesDrawdown(m, policy)
    ensures NegativeInterval in reasons <==> IntervalNegative(m, n, policy)
    ensures MeanNegative in reasons <==> MeanBelowZero(m, n, policy)
    ensures NotProven in reasons <==> Unproven(m, n, policy)
    ensures SampleCollecting !in reasons && AlphaPositive !in reasons
    ensures reasons == Adverse(m, n, policy)
  {
    reasons := [];
    if m.drawdownBps >= policy.drawdownLimitBps {
      reasons := reasons + [DrawdownLimit];
    }
    if n >= policy.minimumSample && m.evidence.upper.Some? && m.evidence.upper.value <= 0.0 {
      reasons := reasons + [NegativeInterval];
    }
    if n >= policy.probationSample && m.mean.Some? && m.mean.value < 0.0 {
      reasons := reasons + [MeanNegative];
    }
    if n >= policy.minimumSample && (m.evidence.selectionLower.None? || m.evidence.selectionLower.value <= 0.0) {
      reasons := reasons + [NotProven];
    }
  }

  function Adverse(m: Metrics, n: nat, policy: Policy): seq<Reason> {
    (if BreachesDrawdown(m, policy) then [DrawdownLimit] else [])
    + (if IntervalNegative(m, n, policy) then [NegativeInterval] else [])
    + (if MeanBelowZero(m, n, policy) then [MeanNegative] else [])
    + (if Unproven(m, n, policy) then [NotProven] else [])
  }

  function PostureOf(reasons: seq<Reason>, n: nat, policy: Policy): Posture {
    if DrawdownLimit in reasons || NegativeInterval in reasons then Preservation
    else if MeanNegative in reasons || NotProven in reasons then Probation
    else if n < policy.minimumSample then Collecting
    else Normal
  }

  function MultiplierOf(posture: Posture, policy: Policy): real {
    match posture
    case Preservation => policy.preservation
    case Probation => policy.probation
    case Collecting => policy.collecting
    case Normal => 1.0
  }

  /** The posture, and the list with the closing reason of a posture that has no adverse one. */
  method CapitalPosture(reasons: seq<Reason>, n: nat, policy: Policy)
    returns (posture: Posture, multiplier: real, closed: seq<Reason>)
    ensures posture == PostureOf(reasons, n, policy) && multiplier == MultiplierOf(posture, policy)
    ensures closed == reasons + Closing(posture)
  {
    closed := reasons;
    if DrawdownLimit in reasons || NegativeInterval in reasons {
      return Preservation, policy.preservation, closed;
    }
    if MeanNegative in reasons {
      return Probation, policy.probation, closed;
    }
    if NotProven in reasons {
      return Probation, policy.probation, closed;
    }
    if n < policy.minimumSample {
      closed := closed + [SampleCollecting];
      return Collecting, policy.collecting, closed;
    }
    closed := closed + [AlphaPositive];
    return Normal, 1.0, closed;
  }

  function Closing(posture: Posture): seq<Reason> {
    match posture
    case Collecting => [SampleCollecting]
    case Normal => [AlphaPositive]
    case _ => []
  }

  // ---- The whole evaluation ---------------------------------------------------------------

  function Refusal(s: seq<Observation>, nav: real, total: Option<nat>, trials: Option<nat>): Option<Invalid> {
    if nav <= 0.0 then Some(NavNotPositive)
    else if |Ids(s)| != |s| then Some(NotUnique)
    else if total.Some? && total.value < |s| then Some(TotalTooSmall)
    else if exists i | 0 <= i < |s| :: !s[i].aware then Some(NaiveTime)
    else if trials.Some? && trials.value < Total(s, total) then Some(TrialsTooSmall)
    else None
  }

  function Total(s: seq<Observation>, total: Option<nat>): nat {
    if total.Some? then total.value else |s|
  }

  function Trials(s: seq<Observation>, total: Option<nat>, trials: Option<nat>): nat {
    if trials.Some? then trials.value else Total(s, total)
  }

  function Judged(w: seq<Observation>, nav: real, policy: Policy, total: nat, trials: nat, summarize: Summary): Verdict
    requires nav > 0.0
  {
    var m := Measured(w, nav, policy, trials, summarize);
    var adverse := Adverse(m, |w|, policy);
    var posture := PostureOf(adverse, |w|, policy);
    Verdict(posture, MultiplierOf(posture, policy), total, w, m, adverse + Closing(posture))
  }

  function Assessed(
    s: seq<Observation>, nav: real, policy: Policy, total: Option<nat>, trials: Option<nat>, summarize: Summary)
    : Outcome
  {
    var refusal := Refusal(s, nav, total, trials);
    if refusal.Some? then Refused(refusal.value)
    else
      Governed(Judged(Window(s, policy.windowSize), nav, policy, Total(s, total), Trials(s, total, trials), summarize))
  }

  method Judge(w: seq<Observation>, nav: real, policy: Policy, total: nat, trials: nat, summarize: Summary)
    returns (v: Verdict)
    requires nav > 0.0
    ensures v == Judged(w, nav, policy, total, trials, summarize)
  {
    var drawdown := MaximumDrawdown(Pnl(w));
    var mean := if w == [] then None else Some(SumAlpha(w) / |w| as real);
    var evidence := summarize(Alphas(w), policy.minimumSample, trials);
    var m := Metrics(mean, drawdown / nav * 10000.0, evidence);
    var reasons := ReasonCodes(m, |w|, policy);
    var posture, multiplier, closed := CapitalPosture(reasons, |w|, policy);
    v := Verdict(posture, multiplier, total, w, m, closed);
  }

  method Evaluate(
    s: seq<Observation>, nav: real, policy: Policy, total: Option<nat>, trials: Option<nat>, summarize: Summary)
    returns (r: Outcome)
    requires ValidPolicy(policy)
    ensures r == Assessed(s, nav, policy, total, trials, summarize)
  {
    var refusal := Refusal(s, nav, total, trials);
    if refusal.Some? {
      return Refused(refusal.value);
    }
    var w := Window(s, policy.windowSize);
    var v := Judge(w, nav, policy, Total(s, total), Trials(s, total, trials), summarize);
    r := Governed(v);
  }

  /** The result does not depend on the order in which the observations arrive. */
  lemma AnyArrivalOrder(
    s: seq<Observation>, t: seq<Observation>, nav: real, policy: Policy, total: Option<nat>, trials: Option<nat>,
    summarize: Summary)
    requires multiset(s) == multiset(t)
    ensures Assessed(s, nav, policy, total, trials, summarize) == Assessed(t, nav, policy, total, trials, summarize)
  {
    SameElements(s, t);
    if |Ids(s)| == |s| {
      WindowAnyOrder(s, t, policy.windowSize);
    }
  }

  lemma RatioSign(sum: real, n: nat)
    requires n > 0
    ensures sum / n as real < 0.0 <==> sum < 0.0
  {
  }

  lemma ScaledLess(x: real, y: real, nav: real)
    requires nav > 0.0 && x <= y
    ensures x / nav * 10000.0 <= y / nav * 10000.0
  {
    assert y / nav - x / nav == (y - x) / nav >= 0.0;
  }

  /** No fall inside the window reaches the limit. */
  ghost predicate FallsBelow(pnl: seq<real>, nav: real, limit: real)
    requires nav > 0.0
  {
    forall i, j | 0 <= i <= j <= |pnl| :: Fall(pnl, i, j) / nav * 10000.0 < limit
  }

  lemma DrawdownBelowIff(pnl: seq<real>, nav: real, limit: real)
    requires nav > 0.0
    ensures Drawdown(pnl, |pnl|) / nav * 10000.0 < limit <==> FallsBelow(pnl, nav, limit)
  {
    var i, j := DrawdownIsDeepest(pnl, |pnl|);
    if Drawdown(pnl, |pnl|) / nav * 10000.0 < limit {
      forall k, l | 0 <= k <= l <= |pnl|
        ensures Fall(pnl, k, l) / nav * 10000.0 < limit
      {
        ScaledLess(Fall(pnl, k, l), Drawdown(pnl, |pnl|), nav);
      }
    }
  }

  /** Enough samples, every fall under the limit, a mean that is not negative, an upper bound that is not
  known to be non-positive and a proven positive adjusted bound. */
  ghost predicate Proven(w: seq<Observation>, nav: real, policy: Policy, e: Evidence)
    requires nav > 0.0
  {
    && |w| >= policy.minimumSample
    && FallsBelow(Pnl(w), nav, policy.drawdownLimitBps)
    && SumAlpha(w) >= 0.0
    && (e.upper.Some? ==> e.upper.value > 0.0)
    && e.selectionLower.Some? && e.selectionLower.value > 0.0
  }

  /** The normal posture is reached exactly by a proven window. */
  lemma NormalIff(
    s: seq<Observation>, nav: real, policy: Policy, total: Option<nat>, trials: Option<nat>, summarize: Summary)
    requires ValidPolicy(policy) && Refusal(s, nav, total, trials).None?
    ensures var w := Window(s, policy.windowSize);
      var e := summarize(Alphas(w), policy.minimumSample, Trials(s, total, trials));
      Assessed(s, nav, policy, total, trials, summarize).verdict.posture.Normal? <==> Proven(w, nav, policy, e)
  {
    var w := Window(s, policy.windowSize);
    DrawdownBelowIff(Pnl(w), nav, policy.drawdownLimitBps);
    if w != [] {
      RatioSign(SumAlpha(w), |w|);
    }
  }

  /** Capital is never levered, and never whole for an unproven window unless the policy gives an unproven
  window all of it. */
  lemma NeverLevers(
    s: seq<Observation>, nav: real, policy: Policy, total: Option<nat>, trials: Option<nat>, summarize: Summary)
    requires ValidPolicy(policy) && Refusal(s, nav, total, trials).None?
    ensures var multiplier := Assessed(s, nav, policy, total, trials, summarize).verdict.multiplier;
      var w := Window(s, policy.windowSize);
      var e := summarize(Alphas(w), policy.minimumSample, Trials(s, total, trials));
      && 0.0 < multiplier <= 1.0
      && (policy.collecting < 1.0 && policy.probation < 1.0 ==> (multiplier == 1.0 <==> Proven(w, nav, policy, e)))
  {
    NormalIff(s, nav, policy, total, trials, summarize);
  }

  // ---- Does a worse account get less? -----------------------------------------------------

  function Capital(m: Metrics, n: nat, policy: Policy): real {
    MultiplierOf(PostureOf(Adverse(m, n, policy), n, policy), policy)
  }

  /** Everything found against one account is found against the other. */
  predicate Worse(m: Metrics, worse: Metrics, n: nat, policy: Policy) {
    forall r | r in Adverse(m, n, policy) :: r in Adverse(worse, n, policy)
  }

  /** What the validator of a policy would have to check as well. */
  predicate CutsDeepen(n: nat, policy: Policy) {
    n < policy.minimumSample ==>
      && policy.preservation <= policy.collecting
      && (n >= policy.probationSample ==> policy.probation <= policy.collecting)
  }

  lemma SmallCapital(m: Metrics, n: nat, policy: Policy)
    requires ValidPolicy(policy) && n < policy.minimumSample
    ensures Capital(m, n, policy) ==
            if BreachesDrawdown(m, policy) then policy.preservation
            else if MeanBelowZero(m, n, policy) then policy.probation
            else policy.collecting
  {
  }

  lemma WorseGetsLess(m: Metrics, worse: Metrics, n: nat, policy: Policy)
    requires ValidPolicy(policy) && Worse(m, worse, n, policy) && CutsDeepen(n, policy)
    ensures Capital(worse, n, policy) <= Capital(m, n, policy)
  {
    if n < policy.minimumSample {
      SmallCapital(m, n, policy);
      SmallCapital(worse, n, policy);
      assert DrawdownLimit in Adverse(m, n, policy) <==> BreachesDrawdown(m, policy);
      assert DrawdownLimit in Adverse(worse, n, policy) <==> BreachesDrawdown(worse, policy);
      assert MeanNegative in Adverse(m, n, policy) <==> MeanBelowZero(m, n, policy);
      assert MeanNegative in Adverse(worse, n, policy) <==> MeanBelowZero(worse, n, policy);
    } else if Adverse(m, n, policy) != [] {
      assert Adverse(m, n, policy)[0] in Adverse(worse, n, policy);
    }
  }

  /** What an account with a small sample gets, said of its observations. */
  lemma SmallSample(
    s: seq<Observation>, nav: real, policy: Policy, total: Option<nat>, trials: Option<nat>, summarize: Summary)
    requires ValidPolicy(policy) && Refusal(s, nav, total, trials).None? && |s| < policy.minimumSample
    ensures var w := Window(s, policy.windowSize);
      && multiset(w) == multiset(s)
      && Assessed(s, nav, policy, total, trials, summarize).verdict.multiplier ==
         if !FallsBelow(Pnl(w), nav, policy.drawdownLimitBps) then policy.preservation
         else if |s| >= policy.probationSample && SumAlpha(w) < 0.0 then policy.probation
         else policy.collecting
  {
    var w := Window(s, policy.windowSize);
    EarlierSorted(s);
    assert |multiset(Sorted(s, Earlier))| == |multiset(s)|;
    DrawdownBelowIff(Pnl(w), nav, policy.drawdownLimitBps);
    if w != [] {
      RatioSign(SumAlpha(w), |w|);
    }
    SmallCapital(Measured(w, nav, policy, Trials(s, total, trials), summarize), |w|, policy);
  }

  // ---- The exact condition ----------------------------------------------------------------

  /** `n` positions with the same result and the same edge. */
  function Alike(n: nat, pnl: real, alpha: real): seq<Observation> {
    seq(n, i requires 0 <= i < n => Observation(i, i, true, pnl, alpha))
  }

  lemma AlikeAccepted(n: nat, pnl: real, alpha: real, nav: real)
    requires nav > 0.0
    ensures Refusal(Alike(n, pnl, alpha), nav, None, None).None?
  {
    var ids := PositionIds(Alike(n, pnl, alpha));
    assert forall i | 0 <= i < n :: ids[i] == i;
    CountIffNoRepeats(ids);
  }

  lemma {:induction false} ZeroSum(w: seq<Observation>)
    requires forall o | o in w :: o.alphaBps == 0.0
    ensures SumAlpha(w) == 0.0
  {
    if w != [] {
      ZeroSum(w[..|w| - 1]);
      assert w[|w| - 1] in w;
    }
  }

  lemma {:induction false} NegativeSum(w: seq<Observation>)
    requires w != [] && forall o | o in w :: o.alphaBps < 0.0
    ensures SumAlpha(w) < 0.0
  {
    assert w[|w| - 1] in w;
    if |w| > 1 {
      NegativeSum(w[..|w| - 1]);
    }
  }

  lemma {:induction false} FlatPrefix(pnl: seq<real>, i: nat)
    requires i <= |pnl| && forall k | 0 <= k < |pnl| :: pnl[k] == 0.0
    ensures Prefix(pnl, i) == 0.0
  {
    if i > 0 {
      FlatPrefix(pnl, i - 1);
    }
  }

  lemma FlatFallsBelow(w: seq<Observation>, nav: real, limit: real)
    requires nav > 0.0 && limit > 0.0 && forall o | o in w :: o.netPnl == 0.0
    ensures FallsBelow(Pnl(w), nav, limit)
  {
    assert forall k | 0 <= k < |w| :: Pnl(w)[k] == w[k].netPnl;
    forall i, j | 0 <= i <= j <= |Pnl(w)|
      ensures Fall(Pnl(w), i, j) / nav * 10000.0 < limit
    {
      FlatPrefix(Pnl(w), i);
      FlatPrefix(Pnl(w), j);
    }
  }

  /** One loss of the limit or more is a breach wherever it stands in the window. */
  lemma LossBreaches(w: seq<Observation>, loss: Observation, nav: real, limit: real)
    requires nav > 0.0 && loss in w && -loss.netPnl / nav * 10000.0 >= limit
    ensures !FallsBelow(Pnl(w), nav, limit)
  {
    var i :| 0 <= i < |w| && w[i] == loss;
    assert Fall(Pnl(w), i, i + 1) == -loss.netPnl;
  }

  /** At one window size, everything found against one account is found against the other as well. */
  predicate WorseOff(v: Verdict, worse: Verdict, policy: Policy) {
    |v.window| == |worse.window| && Worse(v.metrics, worse.metrics, |v.window|, policy)
  }

  /** With so many positions, an account with more found against it gets more capital. */
  ghost predicate Pays(
    s: seq<Observation>, worse: seq<Observation>, n: nat, nav: real, policy: Policy, summarize: Summary)
  {
    && |s| == |worse| == n && Refusal(s, nav, None, None).None? && Refusal(worse, nav, None, None).None?
    && var v, v' := Assessed(s, nav, policy, None, None, summarize).verdict,
                    Assessed(worse, nav, policy, None, None, summarize).verdict;
       WorseOff(v, v', policy) && v'.multiplier > v.multiplier
  }

  /** An account with more found against it never gets more capital than one of the same size, if and only if
  both have no position or the cuts of the policy deepen.  The validator compares preservation with probation
  alone, so they need not. */
  lemma WorseNeverPaysIff(n: nat, nav: real, policy: Policy, summarize: Summary)
    requires ValidPolicy(policy) && nav > 0.0
    ensures (forall s, worse :: !Pays(s, worse, n, nav, policy, summarize)) <==> n == 0 || CutsDeepen(n, policy)
  {
    if n == 0 || CutsDeepen(n, policy) {
      forall s, worse
        ensures !Pays(s, worse, n, nav, policy, summarize)
      {
        NeverPays(s, worse, n, nav, policy, summarize);
      }
    } else if policy.collecting < policy.preservation {
      BreachPays(n, nav, policy, summarize);
    } else {
      LosingPays(n, nav, policy, summarize);
    }
  }

  lemma NeverPays(s: seq<Observation>, worse: seq<Observation>, n: nat, nav: real, policy: Policy, summarize: Summary)
    requires ValidPolicy(policy) && (n == 0 || CutsDeepen(n, policy))
    ensures !Pays(s, worse, n, nav, policy, summarize)
  {
    if Pays(s, worse, n, nav, policy, summarize) {
      var v := Assessed(s, nav, policy, None, None, summarize).verdict;
      var v' := Assessed(worse, nav, policy, None, None, summarize).verdict;
      var k := |v.window|;
      if n > 0 {
        assert CutsDeepen(k, policy);
        WorseGetsLess(v.metrics, v'.metrics, k, policy);
      }
    }
  }

  lemma IdleWindow(n: nat, nav: real, policy: Policy)
    requires ValidPolicy(policy) && nav > 0.0 && n < policy.minimumSample
    ensures var w := Window(Alike(n, 0.0, 0.0), policy.windowSize);
      |w| == n && FallsBelow(Pnl(w), nav, policy.drawdownLimitBps) && SumAlpha(w) == 0.0
  {
    var s := Alike(n, 0.0, 0.0);
    var w := Window(s, policy.windowSize);
    EarlierSorted(s);
    FromWindow(s, w);
    ZeroSum(w);
    FlatFallsBelow(w, nav, policy.drawdownLimitBps);
  }

  /** Idle positions give nothing to find. */
  lemma IdleUnfound(w: seq<Observation>, nav: real, policy: Policy, trials: nat, summarize: Summary)
    requires nav > 0.0 && |w| < policy.minimumSample
    requires FallsBelow(Pnl(w), nav, policy.drawdownLimitBps) && SumAlpha(w) == 0.0
    ensures Adverse(Measured(w, nav, policy, trials, summarize), |w|, policy) == []
  {
    DrawdownBelowIff(Pnl(w), nav, policy.drawdownLimitBps);
    if w != [] {
      RatioSign(SumAlpha(w), |w|);
    }
  }

  lemma IdleCollects(n: nat, nav: real, policy: Policy, summarize: Summary)
    requires ValidPolicy(policy) && nav > 0.0 && n < policy.minimumSample
    ensures Refusal(Alike(n, 0.0, 0.0), nav, None, None).None?
    ensures var v := Assessed(Alike(n, 0.0, 0.0), nav, policy, None, None, summarize).verdict;
      |v.window| == n && v.multiplier == policy.collecting && Adverse(v.metrics, n, policy) == []
  {
    var s := Alike(n, 0.0, 0.0);
    AlikeAccepted(n, 0.0, 0.0, nav);
    IdleWindow(n, nav, policy);
    IdleUnfound(Window(s, policy.windowSize), nav, policy, Trials(s, None, None), summarize);
    SmallSample(s, nav, policy, None, None, summarize);
  }

  /** So any other account of the same size that gets more capital is one that is paid. */
  lemma PaysMoreThanIdle(worse: seq<Observation>, n: nat, nav: real, policy: Policy, summarize: Summary)
    requires ValidPolicy(policy) && nav > 0.0 && |worse| == n < policy.minimumSample
    requires Refusal(worse, nav, None, None).None?
    requires Assessed(worse, nav, policy, None, None, summarize).verdict.multiplier > policy.collecting
    ensures exists s :: Pays(s, worse, n, nav, policy, summarize)
  {
    IdleCollects(n, nav, policy, summarize);
    WindowCut(worse, policy.windowSize);
    assert |Assessed(worse, nav, policy, None, None, summarize).verdict.window| == n;
    assert Pays(Alike(n, 0.0, 0.0), worse, n, nav, policy, summarize);
  }

  lemma FromWindow(s: seq<Observation>, w: seq<Observation>)
    requires multiset(w) == multiset(s)
    ensures |w| == |s| && forall o | o in w :: o in s
  {
    assert |multiset(w)| == |w| && |multiset(s)| == |s|;
    forall o | o in w
      ensures o in s
    {
      SameMultisetIn(w, s, o);
    }
  }

  lemma BreachPays(n: nat, nav: real, policy: Policy, summarize: Summary)
    requires ValidPolicy(policy) && nav > 0.0 && 0 < n < policy.minimumSample
    requires policy.collecting < policy.preservation
    ensures exists s, worse :: Pays(s, worse, n, nav, policy, summarize)
  {
    var pnl := -(policy.drawdownLimitBps * nav);
    var worse := Alike(n, pnl, 0.0);
    AlikeAccepted(n, pnl, 0.0, nav);
    SmallSample(worse, nav, policy, None, None, summarize);
    BreachingWindow(n, pnl, nav, policy);
    PaysMoreThanIdle(worse, n, nav, policy, summarize);
  }

  lemma BreachingWindow(n: nat, pnl: real, nav: real, policy: Policy)
    requires ValidPolicy(policy) && nav > 0.0 && 0 < n < policy.minimumSample
    requires pnl == -(policy.drawdownLimitBps * nav)
    ensures !FallsBelow(Pnl(Window(Alike(n, pnl, 0.0), policy.windowSize)), nav, policy.drawdownLimitBps)
  {
    var s := Alike(n, pnl, 0.0);
    var w := Window(s, policy.windowSize);
    EarlierSorted(s);
    FromWindow(s, w);
    assert w[0] in w && w[0] in s && w[0].netPnl == pnl;
    WholeLoss(policy.drawdownLimitBps, nav);
    LossBreaches(w, w[0], nav, policy.drawdownLimitBps);
  }

  lemma WholeLoss(limit: real, nav: real)
    requires limit > 0.0 && nav > 0.0
    ensures limit * nav / nav * 10000.0 >= limit
  {
    assert limit * nav / nav == limit;
  }

  lemma LosingPays(n: nat, nav: real, policy: Policy, summarize: Summary)
    requires ValidPolicy(policy) && nav > 0.0 && 0 < n < policy.minimumSample && n >= policy.probationSample
    requires policy.collecting < policy.probation
    ensures exists s, worse :: Pays(s, worse, n, nav, policy, summarize)
  {
    var worse := Alike(n, 0.0, -1.0);
    AlikeAccepted(n, 0.0, -1.0, nav);
    SmallSample(worse, nav, policy, None, None, summarize);
    var w := Window(worse, policy.windowSize);
    FromWindow(worse, w);
    NegativeSum(w);
    FlatFallsBelow(w, nav, policy.drawdownLimitBps);
    PaysMoreThanIdle(worse, n, nav, policy, summarize);
  }

  // ---- A loss that pays -------------------------------------------------------------------

  lemma BreachPreserves(
    s: seq<Observation>, nav: real, policy: Policy, total: Option<nat>, trials: Option<nat>, summarize: Summary)
    requires Refusal(s, nav, total, trials).None?
    requires !FallsBelow(Pnl(Window(s, policy.windowSize)), nav, policy.drawdownLimitBps)
    ensures Assessed(s, nav, policy, total, trials, summarize).verdict.multiplier == policy.preservation
  {
    DrawdownBelowIff(Pnl(Window(s, policy.windowSize)), nav, policy.drawdownLimitBps);
  }

  lemma LargeCapital(m: Metrics, n: nat, policy: Policy)
    requires ValidPolicy(policy) && n >= policy.minimumSample
    ensures Capital(m, n, policy) >= policy.preservation
  {
  }

  lemma LargeSample(
    s: seq<Observation>, nav: real, policy: Policy, total: Option<nat>, trials: Option<nat>, summarize: Summary)
    requires ValidPolicy(policy) && Refusal(s, nav, total, trials).None? && |s| >= policy.minimumSample
    ensures Assessed(s, nav, policy, total, trials, summarize).verdict.multiplier >= policy.preservation
  {
    var w := Window(s, policy.windowSize);
    WindowCut(s, policy.windowSize);
    LargeCapital(Measured(w, nav, policy, Trials(s, total, trials), summarize), |w|, policy);
  }

  /** An account that has not breached its drawdown limit closes one more position, and then it has.  Its
  capital goes up if and only if its sample was still small, the policy collects with less than it preserves
  with, and the account was not already on probation for a negative mean. */
  lemma LossPaysIff(
    s: seq<Observation>, loss: Observation, nav: real, policy: Policy, total: Option<nat>, trials: Option<nat>,
    summarize: Summary)
    requires ValidPolicy(policy)
    requires Refusal(s, nav, total, trials).None? && Refusal(s + [loss], nav, total, trials).None?
    requires FallsBelow(Pnl(Window(s, policy.windowSize)), nav, policy.drawdownLimitBps)
    requires !FallsBelow(Pnl(Window(s + [loss], policy.windowSize)), nav, policy.drawdownLimitBps)
    ensures var before := Assessed(s, nav, policy, total, trials, summarize).verdict.multiplier;
      var after := Assessed(s + [loss], nav, policy, total, trials, summarize).verdict.multiplier;
      after > before <==>
        && |s| < policy.minimumSample && policy.collecting < policy.preservation
        && (|s| < policy.probationSample || SumAlpha(Window(s, policy.windowSize)) >= 0.0)
  {
    BreachPreserves(s + [loss], nav, policy, total, trials, summarize);
    if |s| < policy.minimumSample {
      SmallSample(s, nav, policy, total, trials, summarize);
    } else {
      LargeSample(s, nav, policy, total, trials, summarize);
    }
  }

  /** In particular one loss of the whole limit is enough, wherever it stands. */
  lemma BigLossPaysIff(
    s: seq<Observation>, loss: Observation, nav: real, policy: Policy, total: Option<nat>, trials: Option<nat>,
    summarize: Summary)
    requires ValidPolicy(policy) && |s| < policy.minimumSample
    requires Refusal(s, nav, total, trials).None? && Refusal(s + [loss], nav, total, trials).None?
    requires FallsBelow(Pnl(Window(s, policy.windowSize)), nav, policy.drawdownLimitBps)
    requires -loss.netPnl / nav * 10000.0 >= policy.drawdownLimitBps
    ensures var before := Assessed(s, nav, policy, total, trials, summarize).verdict.multiplier;
      var after := Assessed(s + [loss], nav, policy, total, trials, summarize).verdict.multiplier;
      after > before <==>
        && policy.collecting < policy.preservation
        && (|s| < policy.probationSample || SumAlpha(Window(s, policy.windowSize)) >= 0.0)
  {
    var w := Window(s + [loss], policy.windowSize);
    EarlierSorted(s + [loss]);
    assert |s + [loss]| <= policy.windowSize && w == Sorted(s + [loss], Earlier);
    assert (s + [loss])[|s|] == loss;
    SameMultisetIn(s + [loss], w, loss);
    LossBreaches(w, loss, nav, policy.drawdownLimitBps);
    LossPaysIff(s, loss, nav, policy, total, trials, summarize);
  }

  const TIMID := Policy(30, 30, 10, 100.0, 0.05, 0.5, 0.1)
  const GAIN := Observation(1, 10, true, 20.0, 5.0)
  const LOSS := Observation(2, 20, true, -150.0, -40.0)

  lemma ExampleAccepted()
    ensures Refusal([GAIN], 10000.0, None, None).None? && Refusal([GAIN, LOSS], 10000.0, None, None).None?
  {
    assert PositionIds([GAIN]) == [1] && PositionIds([GAIN, LOSS]) == [1, 2];
    CountIffNoRepeats(PositionIds([GAIN]));
    CountIffNoRepeats(PositionIds([GAIN, LOSS]));
  }

  lemma ExampleWindows()
    ensures Window([GAIN], 30) == [GAIN] && Window([GAIN, LOSS], 30) == [GAIN, LOSS]
    ensures Pnl([GAIN]) == [20.0] && Pnl([GAIN, LOSS]) == [20.0, -150.0]
  {
    assert [GAIN][..0] == [] && [GAIN, LOSS][..1] == [GAIN];
  }

  lemma ExampleDrawdowns()
    ensures Drawdown([20.0], 1) == 0.0 && Drawdown([20.0, -150.0], 2) == 150.0
  {
    var one, two := [20.0], [20.0, -150.0];
    assert Prefix(one, 0) == 0.0 && Prefix(one, 1) == 20.0 && HighWater(one, 1) == 20.0;
    assert Prefix(two, 0) == 0.0 && Prefix(two, 1) == 20.0 && Prefix(two, 2) == -130.0;
    assert HighWater(two, 1) == 20.0 && HighWater(two, 2) == 20.0;
    assert Drawdown(two, 1) == 0.0;
  }

  /** For instance: one gain, then a loss of 150 basis points against a limit of 100, doubles the capital. */
  lemma CollectingBelowPreservation(summarize: Summary)
    ensures ValidPolicy(TIMID)
    ensures Assessed([GAIN], 10000.0, TIMID, None, None, summarize).Governed?
    ensures Assessed([GAIN, LOSS], 10000.0, TIMID, None, None, summarize).Governed?
    ensures var before := Assessed([GAIN], 10000.0, TIMID, None, None, summarize).verdict;
      var after := Assessed([GAIN, LOSS], 10000.0, TIMID, None, None, summarize).verdict;
      && before.posture.Collecting? && before.multiplier == 0.05
      && after.posture.Preservation? && after.multiplier == 0.1 && DrawdownLimit in after.reasons
  {
    ExampleAccepted();
    ExampleWindows();
    ExampleDrawdowns();
    assert !BreachesDrawdown(Measured([GAIN], 10000.0, TIMID, 1, summarize), TIMID);
    assert BreachesDrawdown(Measured([GAIN, LOSS], 10000.0, TIMID, 2, summarize), TIMID);
  }
}
