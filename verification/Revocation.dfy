/** What revoking an account stops, and the one gap in it. */
module Revocation {
  import opened Contracts
  import opened Ledgers
  import opened Accounts
  import opened PlanSafety
  import opened PlanTheorems

  /** Nothing in flight or admissible can buy. */
  ghost predicate BuysBarred(n: Node) {
    && !RawMode(n.authority).Entries?
    && (n.phase.Dispatching? ==> n.phase.intent.side.Sell?)
  }

  lemma StepKeepsBuysBarred(n: Node, s: Step)
    requires BuysBarred(n) && Enabled(n, s) && !s.Authorize?
    ensures BuysBarred(Apply(n, s))
    ensures Apply(n, s).posts == n.posts || (s.Post? && n.phase.intent.side.Sell?)
  {
    if s.Prepare? {
      Admitted(n.profile, n.rows, n.authority, s.intent, s.quote, s.snapshot, s.clock);
    }
  }

  lemma {:induction false} RunKeepsBuysBarred(n: Node, run: seq<Step>, k: nat)
    requires Legal(n, run) && k <= |run|
    requires Legal(n, run[..k]) && BuysBarred(After(n, run[..k]))
    requires forall i | k <= i < |run| :: !run[i].Authorize?
    ensures BuysBarred(After(n, run))
    decreases |run|
  {
    if k == |run| {
      assert run[..k] == run;
    } else {
      var front := run[..|run| - 1];
      assert front[..k] == run[..k];
      RunKeepsBuysBarred(n, front, k);
      StepKeepsBuysBarred(After(n, front), run[|run| - 1]);
    }
  }

  /** After the first write of a revoke, and until the next authorization, only sells are posted. */
  lemma NoBuyUntilAuthorized(profile: Profile, run: seq<Step>, k: nat, j: nat)
    requires Legal(Fresh(profile), run) && k < j < |run| && run[k].RevokeAuthority? && run[j].Post?
    requires forall i | k < i < j :: !run[i].Authorize?
    ensures Legal(Fresh(profile), run[..j])
    ensures After(Fresh(profile), run[..j]).phase.Dispatching?
    ensures After(Fresh(profile), run[..j]).phase.intent.side.Sell?
  {
    var n := Fresh(profile);
    BarredAfterRevoke(n, run, k);
    NextAfter(n, run, j);
    assert run[..j][..k + 1] == run[..k + 1];
    RunKeepsBuysBarred(n, run[..j], k + 1);
    PostDispatches(After(n, run[..j]), run[j]);
  }

  lemma NextAfter(n: Node, run: seq<Step>, k: nat)
    requires Legal(n, run) && k < |run|
    ensures Legal(n, run[..k]) && Legal(n, run[..k + 1]) && Enabled(After(n, run[..k]), run[k])
    ensures After(n, run[..k + 1]) == Apply(After(n, run[..k]), run[k])
  {
    LegalPrefix(n, run, k);
    LegalPrefix(n, run, k + 1);
    assert run[..k + 1][..k] == run[..k];
  }

  lemma RevokeBarsBuys(n: Node)
    requires Enabled(n, RevokeAuthority)
    ensures BuysBarred(Apply(n, RevokeAuthority))
  {
  }

  lemma BarredAfterRevoke(n: Node, run: seq<Step>, k: nat)
    requires Legal(n, run) && k < |run| && run[k].RevokeAuthority?
    ensures Legal(n, run[..k + 1]) && BuysBarred(After(n, run[..k + 1]))
  {
    NextAfter(n, run, k);
    RevokeBarsBuys(After(n, run[..k]));
  }

  lemma PostDispatches(n: Node, s: Step)
    requires Enabled(n, s) && s.Post?
    ensures n.phase.Dispatching?
  {
  }

  /** Once both writes of a revoke are done, a plan that was staged with no submitted entry is never
  posted, even if the account is authorized again. */
  lemma RevokedPlanNeverPosted(profile: Profile, run: seq<Step>, k: nat, i: nat)
    requires PlannedRun(profile, run) && k < |run| && run[k].RevokePlans? && PlannedRun(profile, run[..k])
    requires var before := Reached(profile, run[..k]);
      i < |before.plans| && before.plans[i].state.Staged?
      && Find(before.rows, EntryId(before.plans[i])).None?
    ensures var entry := Reached(profile, run[..k]).plans[i].plan.entry;
      forall d | d in Reached(profile, run).posts :: d.intent.clientId != entry.clientId
  {
    NextReached(profile, run, k);
    var before, revoked, n := Reached(profile, run[..k]), Reached(profile, run[..k + 1]), Reached(profile, run);
    assert revoked.plans[i] == RevokedPlan(before.rows, before.plans[i]);
    PhasesOnlyForward(profile, run, k + 1);
    assert PlanGrows(revoked.plans[i], n.plans[i]);
    ReachedKept(profile, run);
    assert PlanOk(n.rows, n.plans[i]);
  }

  // ---- The gap between the two writes -----------------------------------------------------

  /** Continuing with `s`, some run still posts this entry. */
  ghost predicate CanStillPost(n: Node, s: Step, entry: Intent) {
    exists run: seq<Step> :: PostsAfter(n, s, entry, run)
  }

  ghost predicate PostsAfter(n: Node, s: Step, entry: Intent, run: seq<Step>) {
    run != [] && run[0] == s && Legal(n, run) && Planned(n, run)
    && exists d | d in After(n, run).posts :: d.intent == entry
  }

  /** A staged, unsent plan of the current revision, within the order limit, as the second write of a
  revoke finds it. */
  ghost predicate AwaitsSecondWrite(n: Node) {
    && Kept(n) && ValidProfile(n.profile) && n.phase.Revoking? && n.plans != []
    && var p := n.plans[|n.plans| - 1];
       p.state.Staged? && Find(n.rows, EntryId(p)).None? && Bound(n.profile, p.plan)
       && Notional(p.plan.entry) <= n.profile.maxOrderNotional
  }

  function QuietSnapshot(profile: Profile, at: int, cash: real): Snapshot {
    Snapshot(profile.binding, at, cash, cash, [], [], true, true, true, false)
  }

  function TightQuote(entry: Intent, at: int): Quote {
    Quote(entry.symbol, entry.limitPrice, entry.limitPrice, at, true)
  }

  /** Crash, authorize again, admit the old entry, post it. */
  function Resurrection(profile: Profile, entry: Intent): seq<Step> {
    var at := entry.expiresAt - 1;
    var s := QuietSnapshot(profile, at, Notional(entry) * 2.0);
    [Crash, Authorize(s, at), Prepare(entry, TightQuote(entry, at), s, Clock(at, at, at)), Post]
  }

  lemma EntryAdmissible(profile: Profile, rows: seq<Row>, entry: Intent)
    requires ValidProfile(profile) && ValidIntent(entry) && entry.side.Buy?
    requires FlatAndSettled(rows) && Notional(entry) <= profile.maxOrderNotional
    ensures var at := entry.expiresAt - 1; var q := TightQuote(entry, at);
      ValidQuote(q) &&
      Refusal(profile, rows, Some(Authority(Entries, profile.revision, profile.binding)), entry, q,
              QuietSnapshot(profile, at, Notional(entry) * 2.0), Clock(at, at, at)) == None
  {
    var q := TightQuote(entry, entry.expiresAt - 1);
    assert Holdings([]) == map[];
    NotionalPositive(entry);
    NoSpread(q);
  }

  lemma NotionalPositive(i: Intent)
    requires ValidIntent(i)
    ensures 0.0 < Notional(i)
  {
  }

  lemma NoSpread(q: Quote)
    requires 0.0 < q.bid == q.ask
    ensures SpreadBps(q) == 0.0
  {
  }

  lemma AuthorizeAgain(n: Node, at: int, cash: real)
    requires n.phase.Idle? && FlatAndSettled(n.rows)
    ensures Enabled(n, Authorize(QuietSnapshot(n.profile, at, cash), at))
    ensures Apply(n, Authorize(QuietSnapshot(n.profile, at, cash), at)) == WithAuthority(n, Entries)
  {
  }

  lemma PrepareAgain(n: Node, entry: Intent)
    requires n.phase.Idle? && FlatAndSettled(n.rows) && ValidProfile(n.profile)
    requires n.authority == Some(Authority(Entries, n.profile.revision, n.profile.binding))
    requires ValidIntent(entry) && entry.side.Buy? && Find(n.rows, entry.clientId).None?
    requires Notional(entry) <= n.profile.maxOrderNotional
    ensures var s := Resurrection(n.profile, entry)[2];
      Enabled(n, s) && Apply(n, s).phase.Dispatching? && Apply(n, s).phase.intent == entry
  {
    EntryAdmissible(n.profile, n.rows, entry);
  }

  /** A run of four steps, written out. */
  lemma FourSteps(n: Node, a: Step, b: Step, c: Step, d: Step)
    requires Enabled(n, a) && Enabled(Apply(n, a), b) && Enabled(Apply(Apply(n, a), b), c)
    requires Enabled(Apply(Apply(Apply(n, a), b), c), d)
    ensures Legal(n, [a, b, c, d])
    ensures After(n, [a, b, c, d]) == Apply(Apply(Apply(Apply(n, a), b), c), d)
    ensures [a, b, c, d][..2] == [a, b] && Legal(n, [a, b]) && After(n, [a, b]) == Apply(Apply(n, a), b)
  {
    LegalSnoc(n, [], a);
    assert [] + [a] == [a];
    LegalSnoc(n, [a], b);
    assert [a] + [b] == [a, b];
    LegalSnoc(n, [a, b], c);
    assert [a, b] + [c] == [a, b, c];
    LegalSnoc(n, [a, b, c], d);
    assert [a, b, c] + [d] == [a, b, c, d];
  }

  lemma AwaitingIsFlat(n: Node)
    requires AwaitsSecondWrite(n)
    ensures FlatAndSettled(n.rows) && ValidPlan(n.plans[|n.plans| - 1].plan)
    ensures Audited(n.audits, n.plans[|n.plans| - 1].plan) && n.plans[|n.plans| - 1].exitRequest.None?
  {
    var p := n.plans[|n.plans| - 1];
    assert PlanOk(n.rows, p);
    EndedIsFlat(n.rows, n.profile.binding, p);
  }

  lemma CrashResurrects(n: Node)
    requires AwaitsSecondWrite(n)
    ensures CanStillPost(n, Crash, n.plans[|n.plans| - 1].plan.entry)
  {
    AwaitingIsFlat(n);
    var p := n.plans[|n.plans| - 1];
    ResurrectionRuns(n, p);
    assert PostsAfter(n, Crash, p.plan.entry, Resurrection(n.profile, p.plan.entry));
  }

  lemma ResurrectionRuns(n: Node, p: PlanRow)
    requires FlatAndSettled(n.rows) && ValidProfile(n.profile) && ValidPlan(p.plan)
    requires n.plans != [] && p == n.plans[|n.plans| - 1]
    requires p.state.Staged? && p.exitRequest.None? && Audited(n.audits, p.plan) && Bound(n.profile, p.plan)
    requires Find(n.rows, EntryId(p)).None? && Notional(p.plan.entry) <= n.profile.maxOrderNotional
    ensures PostsAfter(n, Crash, p.plan.entry, Resurrection(n.profile, p.plan.entry))
  {
    var entry := p.plan.entry;
    var run := Resurrection(n.profile, entry);
    ResurrectionLegal(n, entry);
    var n2 := After(n, run[..2]);
    assert AskedBy(n2, p, entry);
    assert n2.plans[|n2.plans| - 1] == p && Asked(n2, entry);
    assert Planned(n, run) by {
      forall k | 0 <= k < |run| && run[k].Prepare?
        ensures k == 2
      {
      }
    }
  }

  /** The first two steps leave an authorized, idle account with the old ledger and plans. */
  lemma ResurrectionOpens(n: Node, entry: Intent)
    requires FlatAndSettled(n.rows)
    ensures var run := Resurrection(n.profile, entry); var n1 := n.(phase := Idle);
      && Enabled(n, run[0]) && Apply(n, run[0]) == n1
      && Enabled(n1, run[1]) && Apply(n1, run[1]) == WithAuthority(n1, Entries)
  {
    AuthorizeAgain(n.(phase := Idle), entry.expiresAt - 1, Notional(entry) * 2.0);
  }

  lemma ResurrectionLegal(n: Node, entry: Intent)
    requires FlatAndSettled(n.rows) && ValidProfile(n.profile)
    requires ValidIntent(entry) && entry.side.Buy? && Find(n.rows, entry.clientId).None?
    requires Notional(entry) <= n.profile.maxOrderNotional
    ensures var run := Resurrection(n.profile, entry);
      && Legal(n, run) && Legal(n, run[..2])
      && After(n, run[..2]) == WithAuthority(n.(phase := Idle), Entries)
      && exists d | d in After(n, run).posts :: d.intent == entry
  {
    var run := Resurrection(n.profile, entry);
    var n2 := WithAuthority(n.(phase := Idle), Entries);
    ResurrectionOpens(n, entry);
    PrepareAgain(n2, entry);
    PostAppends(Apply(n2, run[2]));
    assert run == [run[0], run[1], run[2], run[3]];
    FourSteps(n, run[0], run[1], run[2], run[3]);
  }

  lemma PostAppends(n: Node)
    requires n.phase.Dispatching?
    ensures Enabled(n, Post) && exists d | d in Apply(n, Post).posts :: d.intent == n.phase.intent
  {
    var d := Dispatch(n.phase.intent, n.phase.deadline);
    assert Apply(n, Post).posts[|n.posts|] == d;
  }

  /** After the second write no planned continuation posts the entry. */
  lemma {:induction false} SecondWriteIsFinal(n: Node, run: seq<Step>)
    requires AwaitsSecondWrite(n) && Legal(n, run) && Planned(n, run) && run != [] && run[0].RevokePlans?
    ensures forall d | d in After(n, run).posts :: d.intent != n.plans[|n.plans| - 1].plan.entry
  {
    var p := n.plans[|n.plans| - 1];
    RunGrows(n, run, 1);
    assert run[..1][..0] == [] && run[..1] == [run[0]];
    LegalSnoc(n, [], run[0]);
    assert [] + [run[0]] == run[..1];
    var revoked, last := After(n, run[..1]), After(n, run);
    assert revoked.plans[|n.plans| - 1] == RevokedPlan(n.rows, p);
    assert PlanGrows(revoked.plans[|n.plans| - 1], last.plans[|n.plans| - 1]);
    RunKept(n, run);
    assert PlanOk(last.rows, last.plans[|n.plans| - 1]);
  }

  /** A revoked plan can come back to life exactly when the process dies between the two writes. */
  lemma RevokedPlanReturnsIffCrashed(n: Node, s: Step)
    requires AwaitsSecondWrite(n) && Enabled(n, s)
    ensures CanStillPost(n, s, n.plans[|n.plans| - 1].plan.entry) <==> s.Crash?
  {
    var entry := n.plans[|n.plans| - 1].plan.entry;
    assert s.Crash? || s.RevokePlans?;
    if s.Crash? {
      CrashResurrects(n);
    } else if CanStillPost(n, s, entry) {
      var run :| PostsAfter(n, s, entry, run);
      SecondWriteIsFinal(n, run);
      assert false;
    }
  }

  const EXAMPLE_PROFILE := Profile(Binding(Alpaca, Environment.Paper, 1), 1, 10000.0, 25000.0, 10, 30.0)
  const EXAMPLE_ENTRY := Intent(Named(1), 7, Buy, 10.0, 100.0, 5, 60)
  const EXAMPLE_PLAN := Plan(1, EXAMPLE_PROFILE.binding, 1, 5, 0, EXAMPLE_ENTRY, 3600, 90.0, 120.0)
  const EXAMPLE_EMPTY := Snapshot(EXAMPLE_PROFILE.binding, 0, 100000.0, 100000.0, [], [], true, true, true, false)

  /** The account after authorizing, storing the receipt and staging the plan. */
  const EXAMPLE_STAGED := Node(
    EXAMPLE_PROFILE, [], Some(Authority(Entries, 1, EXAMPLE_PROFILE.binding)), [PlanRow(EXAMPLE_PLAN, Staged, None)],
    map[1 := Audit(EXAMPLE_PLAN, 5, 1, 1)], Idle, [])

  const EXAMPLE_AUDITED := EXAMPLE_STAGED.(plans := [])

  const EXAMPLE_AUTHORIZED := EXAMPLE_AUDITED.(audits := map[])

  lemma ExampleAuthorizes()
    ensures Enabled(Fresh(EXAMPLE_PROFILE), Authorize(EXAMPLE_EMPTY, 0))
    ensures Apply(Fresh(EXAMPLE_PROFILE), Authorize(EXAMPLE_EMPTY, 0)) == EXAMPLE_AUTHORIZED
  {
    assert Flat([]);
  }

  lemma ExampleAudits()
    ensures var receipt := Accounts.Receipt(5, 1, 1, EXAMPLE_PLAN);
      && Enabled(EXAMPLE_AUTHORIZED, PutAudit(EXAMPLE_PLAN, receipt))
      && Apply(EXAMPLE_AUTHORIZED, PutAudit(EXAMPLE_PLAN, receipt)) == EXAMPLE_AUDITED
  {
    assert (10.0).Floor == 10 && (100.0 * 100.0).Floor == 10000;
  }

  lemma ExampleStages()
    ensures Enabled(EXAMPLE_AUDITED, Stage(EXAMPLE_PLAN, Clock(0, 0, 0)))
    ensures Apply(EXAMPLE_AUDITED, Stage(EXAMPLE_PLAN, Clock(0, 0, 0))) == EXAMPLE_STAGED
  {
    assert (10.0).Floor == 10 && (100.0 * 100.0).Floor == 10000;
  }

  /** For instance: authorized, audited, staged, half revoked, dead - and the plan can still buy. */
  lemma RevokedPlanComesBack()
    ensures var run := [Authorize(EXAMPLE_EMPTY, 0), PutAudit(EXAMPLE_PLAN, Accounts.Receipt(5, 1, 1, EXAMPLE_PLAN)),
                        Stage(EXAMPLE_PLAN, Clock(0, 0, 0)), RevokeAuthority];
      PlannedRun(EXAMPLE_PROFILE, run) && CanStillPost(Reached(EXAMPLE_PROFILE, run), Crash, EXAMPLE_ENTRY)
  {
    var receipt := Accounts.Receipt(5, 1, 1, EXAMPLE_PLAN);
    var run := [Authorize(EXAMPLE_EMPTY, 0), PutAudit(EXAMPLE_PLAN, receipt), Stage(EXAMPLE_PLAN, Clock(0, 0, 0)),
                RevokeAuthority];
    ExampleAuthorizes();
    ExampleAudits();
    ExampleStages();
    FourSteps(Fresh(EXAMPLE_PROFILE), run[0], run[1], run[2], run[3]);
    assert run == [run[0], run[1], run[2], run[3]];
    ReachedKept(EXAMPLE_PROFILE, run);
    ExampleAwaits(Reached(EXAMPLE_PROFILE, run));
    CrashResurrects(Reached(EXAMPLE_PROFILE, run));
  }

  lemma ExampleAwaits(n: Node)
    requires Kept(n) && n == Apply(EXAMPLE_STAGED, RevokeAuthority)
    ensures AwaitsSecondWrite(n) && n.plans[|n.plans| - 1].plan.entry == EXAMPLE_ENTRY
  {
    assert Notional(EXAMPLE_ENTRY) == 1000.0;
  }
}
