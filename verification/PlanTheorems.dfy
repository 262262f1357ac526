/** The lifecycle's promises over whole planned runs, crashes included, from an empty account. */
module PlanTheorems {
  import opened Contracts
  import opened Ledgers
  import opened Accounts
  import opened LedgerSafety
  import opened PlanSafety

  ghost predicate PlannedRun(profile: Profile, run: seq<Step>) {
    Legal(Fresh(profile), run) && Planned(Fresh(profile), run)
  }

  ghost function Reached(profile: Profile, run: seq<Step>): Node
    requires PlannedRun(profile, run)
  {
    After(Fresh(profile), run)
  }

  lemma ReachedKept(profile: Profile, run: seq<Step>)
    requires PlannedRun(profile, run)
    ensures Kept(Reached(profile, run))
  {
    FreshKept(profile);
    RunKept(Fresh(profile), run);
  }

  lemma InactiveIsFlat(rows: seq<Row>, plans: seq<PlanRow>, audits: map<PlanId, Audit>)
    requires PlansOk(rows, plans, audits)
    requires forall i | 0 <= i < |plans| :: Inactive(plans[i].state)
    ensures FlatAndSettled(rows)
  {
    if plans == [] {
      assert Flat(rows);
    } else {
      assert Inactive(plans[|plans| - 1].state);
    }
  }

  /** When no plan is active the ledger is flat and settled. */
  lemma NoActivePlanIsFlat(profile: Profile, run: seq<Step>)
    requires PlannedRun(profile, run)
    requires forall i | 0 <= i < |Reached(profile, run).plans| :: Inactive(Reached(profile, run).plans[i].state)
    ensures FlatAndSettled(Reached(profile, run).rows)
  {
    ReachedKept(profile, run);
    var n := Reached(profile, run);
    InactiveIsFlat(n.rows, n.plans, n.audits);
  }

  /** At most one plan is active: the research pipe's refusal of several active plans never happens. */
  lemma AtMostOneActive(profile: Profile, run: seq<Step>, i: nat, j: nat)
    requires PlannedRun(profile, run)
    requires i < |Reached(profile, run).plans| && !Inactive(Reached(profile, run).plans[i].state)
    requires j < |Reached(profile, run).plans| && !Inactive(Reached(profile, run).plans[j].state)
    ensures i == j == |Reached(profile, run).plans| - 1
  {
    ReachedKept(profile, run);
  }

  function FoundFill(row: Option<Row>): real {
    if row.Some? then FilledOf(row.value) else 0.0
  }

  /** The book is what the last plan's entry brought in less what its exit took out. */
  lemma LastPlanBook(rows: seq<Row>, binding: Binding, p: PlanRow, symbol: Symbol)
    requires RowsOk(rows, binding) && PlanOk(rows, p) && OwnsTheEnd(rows, p)
    ensures Held(rows, symbol) ==
            if symbol == p.plan.entry.symbol
            then FoundFill(Find(rows, EntryId(p))) - FoundFill(Find(rows, ExitId(p)))
            else 0.0
  {
    OwnBook(rows, p, symbol);
    OwnPlaces(rows, binding, p);
    var c := OwnCount(rows, p);
    if c >= 1 {
      assert RowOk(rows[|rows| - c], binding);
    }
    if c == 2 {
      assert RowOk(rows[|rows| - 1], binding);
    }
  }

  lemma ScaleBound(held: real, quantity: real, price: real, limit: real)
    requires 0.0 <= held <= quantity && 0.0 < price && quantity * price <= limit
    ensures held * price <= limit
  {
    assert held * price <= quantity * price;
  }

  lemma FillWithinRequest(rows: seq<Row>, binding: Binding, id: ClientId)
    requires RowsOk(rows, binding)
    ensures 0.0 <= FoundFill(Find(rows, id))
    ensures Find(rows, id).Some? ==> FoundFill(Find(rows, id)) <= Find(rows, id).value.request.quantity
  {
    if Find(rows, id).Some? {
      assert RowOk(rows[IndexOf(rows, id)], binding);
    }
  }

  lemma LastPlanBounds(rows: seq<Row>, binding: Binding, p: PlanRow)
    requires RowsOk(rows, binding) && PlanOk(rows, p)
    ensures 0.0 <= FoundFill(Find(rows, ExitId(p))) <= FoundFill(Find(rows, EntryId(p))) <= p.plan.entry.quantity
  {
    FillWithinRequest(rows, binding, EntryId(p));
    FillWithinRequest(rows, binding, ExitId(p));
  }

  /** At any moment the whole book is at most one symbol: the last plan's, between nothing and its
  entry quantity, and worth at the entry limit no more than the account's order limit. */
  lemma OneBoundedPosition(profile: Profile, run: seq<Step>, symbol: Symbol)
    requires PlannedRun(profile, run) && Held(Reached(profile, run).rows, symbol) != 0.0
    ensures Reached(profile, run).plans != []
    ensures var n := Reached(profile, run); var entry := n.plans[|n.plans| - 1].plan.entry;
      && symbol == entry.symbol
      && 0.0 < Held(n.rows, symbol) <= entry.quantity
      && Held(n.rows, symbol) * entry.limitPrice <= n.profile.maxOrderNotional
  {
    BoundedNode(profile, run, symbol);
    var n := Reached(profile, run);
    var entry := n.plans[|n.plans| - 1].plan.entry;
    ScaleBound(Held(n.rows, symbol), entry.quantity, entry.limitPrice, n.profile.maxOrderNotional);
  }

  lemma BoundedNode(profile: Profile, run: seq<Step>, symbol: Symbol)
    requires PlannedRun(profile, run) && Held(Reached(profile, run).rows, symbol) != 0.0
    ensures Reached(profile, run).plans != []
    ensures var n := Reached(profile, run); var entry := n.plans[|n.plans| - 1].plan.entry;
      symbol == entry.symbol && 0.0 < Held(n.rows, symbol) <= entry.quantity
      && Notional(entry) <= n.profile.maxOrderNotional && 0.0 < entry.limitPrice
  {
    ReachedKept(profile, run);
    var n := Reached(profile, run);
    BoundedBook(n.rows, n.profile.binding, n.plans, n.audits, n.profile.maxOrderNotional, symbol);
  }

  lemma BoundedBook(rows: seq<Row>, binding: Binding, plans: seq<PlanRow>, audits: map<PlanId, Audit>, limit: real,
                    symbol: Symbol)
    requires RowsOk(rows, binding) && PlansOk(rows, plans, audits) && CostOk(rows, plans, limit)
    requires Held(rows, symbol) != 0.0
    ensures plans != []
    ensures var entry := plans[|plans| - 1].plan.entry;
      symbol == entry.symbol && 0.0 < Held(rows, symbol) <= entry.quantity
      && Notional(entry) <= limit && 0.0 < entry.limitPrice
  {
    NotFlat(rows, symbol);
    var p := plans[|plans| - 1];
    assert PlanOk(rows, p) && OwnsTheEnd(rows, p);
    LastPlanBook(rows, binding, p, symbol);
    LastPlanBounds(rows, binding, p);
  }

  lemma NotFlat(rows: seq<Row>, symbol: Symbol)
    requires Held(rows, symbol) != 0.0
    ensures !FlatAndSettled(rows)
  {
  }

  /** Between any two moments: plans are never lost or rewritten, phases never go back, final phases
  and a written exit request are for ever. */
  lemma PhasesOnlyForward(profile: Profile, run: seq<Step>, k: nat)
    requires PlannedRun(profile, run) && k <= |run|
    ensures PlannedRun(profile, run[..k])
    ensures PlansGrow(Reached(profile, run[..k]).plans, Reached(profile, run).plans)
  {
    FreshKept(profile);
    RunGrows(Fresh(profile), run, k);
  }

  /** The post is the audited entry of this plan, or its frozen exit for the entry's final fill. */
  ghost predicate PostOf(n: Node, d: Dispatch, p: PlanRow) {
    || (d.intent == p.plan.entry && Audited(n.audits, p.plan))
    || (p.exitRequest == Some(d.intent) && ExitFrozen(n.rows, p))
  }

  ghost predicate PostOfSome(n: Node, d: Dispatch) {
    exists i | 0 <= i < |n.plans| :: PostOf(n, d, n.plans[i])
  }

  /** Everything ever posted is one plan's entry or exit, and no intent is posted twice: so a plan
  posts at most one buy and one sell, and the sell is for exactly the entry's final fill. */
  lemma PostsBelongToPlans(profile: Profile, run: seq<Step>)
    requires PlannedRun(profile, run)
    ensures var n := Reached(profile, run);
      && (forall k | 0 <= k < |n.posts| :: PostOfSome(n, n.posts[k]))
      && (forall j, k | 0 <= j < k < |n.posts| :: n.posts[j].intent.clientId != n.posts[k].intent.clientId)
      && DistinctPlans(n.plans)
  {
    ReachedKept(profile, run);
    var n := Reached(profile, run);
    forall k | 0 <= k < |n.posts|
      ensures PostOfSome(n, n.posts[k])
    {
      var id := n.posts[k].intent.clientId;
      assert OwnedBy(n.plans, n.rows[IndexOf(n.rows, id)].request.clientId);
      var i :| 0 <= i < |n.plans| && (id == EntryId(n.plans[i]) || id == ExitId(n.plans[i]));
      assert PlanOk(n.rows, n.plans[i]);
      assert PostOf(n, n.posts[k], n.plans[i]);
    }
  }

  /** A closed plan's two orders net to zero, and still do whatever happens afterwards. */
  lemma ClosedNetsToZeroForEver(profile: Profile, run: seq<Step>, k: nat, i: nat)
    requires PlannedRun(profile, run) && k <= |run| && PlannedRun(profile, run[..k])
    requires i < |Reached(profile, run[..k]).plans| && Reached(profile, run[..k]).plans[i].state.Closed?
    ensures var n := Reached(profile, run);
      && i < |n.plans| && n.plans[i] == Reached(profile, run[..k]).plans[i]
      && var entry, exit := Find(n.rows, EntryId(n.plans[i])), Find(n.rows, ExitId(n.plans[i]));
         && entry.Some? && Terminal(entry.value.state) && exit.Some? && exit.value.state.Filled?
         && (forall s: Symbol :: Contribution(entry.value, s) + Contribution(exit.value, s) == 0.0)
  {
    PhasesOnlyForward(profile, run, k);
    ReachedKept(profile, run);
    var n := Reached(profile, run);
    var p := n.plans[i];
    assert PlanGrows(Reached(profile, run[..k]).plans[i], p);
    assert PlanOk(n.rows, p);
    assert RowOk(n.rows[IndexOf(n.rows, EntryId(p))], n.profile.binding);
    assert RowOk(n.rows[IndexOf(n.rows, ExitId(p))], n.profile.binding);
  }

  /** An audit receipt named a plan's exact payload before the plan was staged, and neither the
  receipt nor the stored payload is different at any later moment. */
  lemma AuditedBeforeStaging(profile: Profile, run: seq<Step>, k: nat)
    requires PlannedRun(profile, run) && k < |run| && run[k].Stage?
    ensures PlannedRun(profile, run[..k])
    ensures var before, n := Reached(profile, run[..k]), Reached(profile, run); var plan := run[k].plan;
      && Audited(before.audits, plan)
      && Audited(n.audits, plan) && n.audits[plan.planId] == before.audits[plan.planId]
      && |before.plans| < |n.plans| && n.plans[|before.plans|].plan == plan
  {
    NextReached(profile, run, k);
    ReceiptsKept(profile, run, k);
    var before, staged, n := Reached(profile, run[..k]), Reached(profile, run[..k + 1]), Reached(profile, run);
    StageEffect(before, run[k]);
    PhasesOnlyForward(profile, run, k + 1);
    assert PlanGrows(staged.plans[|before.plans|], n.plans[|before.plans|]);
  }

  lemma ReceiptsKept(profile: Profile, run: seq<Step>, k: nat)
    requires PlannedRun(profile, run) && k <= |run|
    ensures PlannedRun(profile, run[..k])
    ensures ReceiptsGrow(Reached(profile, run[..k]).audits, Reached(profile, run).audits)
  {
    FreshKept(profile);
    RunGrows(Fresh(profile), run, k);
  }

  /** The moment after the next step. */
  lemma NextReached(profile: Profile, run: seq<Step>, k: nat)
    requires PlannedRun(profile, run) && k < |run|
    ensures PlannedRun(profile, run[..k]) && PlannedRun(profile, run[..k + 1])
    ensures Enabled(Reached(profile, run[..k]), run[k])
    ensures Reached(profile, run[..k + 1]) == Apply(Reached(profile, run[..k]), run[k])
  {
    PlannedPrefix(Fresh(profile), run, k);
    PlannedPrefix(Fresh(profile), run, k + 1);
    assert run[..k + 1][..k] == run[..k];
  }

  lemma StageEffect(n: Node, s: Step)
    requires s.Stage? && Enabled(n, s)
    ensures Audited(n.audits, s.plan)
    ensures Apply(n, s) == n.(plans := n.plans + [PlanRow(s.plan, Staged, None)])
  {
  }

  /** Only plans are bought: every posted buy is the entry of a stored, audited plan. */
  lemma EveryBuyHasItsPlan(profile: Profile, run: seq<Step>, d: Dispatch)
    requires PlannedRun(profile, run) && d in Reached(profile, run).posts && d.intent.side.Buy?
    ensures var n := Reached(profile, run);
      exists i | 0 <= i < |n.plans| :: n.plans[i].plan.entry == d.intent && Audited(n.audits, n.plans[i].plan)
  {
    PostsBelongToPlans(profile, run);
    var n := Reached(profile, run);
    var k :| 0 <= k < |n.posts| && n.posts[k] == d;
    var i :| 0 <= i < |n.plans| && PostOf(n, n.posts[k], n.plans[i]);
    assert n.plans[i].plan.entry == d.intent;
  }
}
