/** `ExecutionLifecycle`: stages audited plans and moves one plan by one bounded step at a time. */
module Lifecycles {
  import opened Contracts
  import opened Ledgers
  import opened Accounts
  import opened LedgerSafety
  import opened PlanSafety
  import opened Engines

  /** Engine calls that admit nothing keep a run planned. */
  lemma {:induction false} PlannedExtends(n: Node, run: seq<Step>, run': seq<Step>)
    requires Legal(n, run) && Planned(n, run)
    requires Legal(n, run') && run <= run' && NoneAdmitted(run', |run|)
    ensures Planned(n, run')
  {
    forall k | 0 <= k < |run'| && run'[k].Prepare?
      ensures Legal(n, run'[..k]) && Asked(After(n, run'[..k]), run'[k].intent)
    {
      assert run'[..k] == run[..k];
    }
  }

  /** A submission keeps a run planned when a plan asks for the intent. */
  lemma PlannedAdmits(n: Node, run: seq<Step>, run': seq<Step>, intent: Intent)
    requires Legal(n, run) && Planned(n, run) && Legal(n, run') && run <= run'
    requires Admits(After(n, run), intent, run, run') && Asked(After(n, run), intent)
    ensures Planned(n, run')
  {
    var s := run'[|run|];
    PlannedSnoc(n, run, s);
    assert run + [s] <= run';
    PlannedExtends(n, run + [s], run');
  }

  /** The plan's own row after a call that reports on one of its orders. */
  ghost predicate OnlyRows(n: Node, n': Node) {
    n' == n.(rows := n'.rows, posts := n'.posts) && n.posts <= n'.posts
  }

  /** The order that was returned is what the ledger now says about this id. */
  ghost predicate Reports(n: Node, id: ClientId, o: Order) {
    Find(n.rows, id).Some? && Find(n.rows, id).value.result == Some(o) && Find(n.rows, id).value.state == o.state
  }

  lemma AnsweredReports(n: Node, id: ClientId, r: Result<Order>, n': Node)
    requires Answered(n, id, r, n')
    ensures OnlyRows(n, n') && (r.Ok? ==> Reports(n', id, r.value))
  {
  }

  lemma SentReports(n: Node, intent: Intent, quote: Quote, r: Result<Order>, n': Node)
    requires Sent(n, intent, quote, r, n') && Sound(n') && r.Ok?
    ensures OnlyRows(n, n') && Reports(n', intent.clientId, r.value)
  {
    FindAt(n'.rows, |n.rows|);
  }

  class ExecutionLifecycle {
    const engine: BrokerEngine

    constructor (engine: BrokerEngine)
      ensures this.engine == engine
    {
      this.engine := engine;
    }

    ghost predicate Valid()
      reads engine, engine.ledger, engine.adapter
    {
      && engine.Valid()
      && Planned(engine.start, engine.run)
      && Kept(engine.start)
    }

    /** A planned run keeps the plan invariant, so the present state has it. */
    lemma KeptNow()
      requires Valid()
      ensures Kept(engine.State())
    {
      RunKept(engine.start, engine.run);
    }

    /** `StoredAudit.put`: a receipt is written once, and only for the exact plan it names. */
    method PutAudit(plan: Plan, receipt: Accounts.Receipt) returns (r: Result<bool>)
      requires Valid() && ValidPlan(plan)
      modifies engine`run, engine.ledger`audits
      ensures Valid() && engine.State() == old(engine.State()).(audits := engine.ledger.audits)
      ensures ReceiptsGrow(old(engine.ledger.audits), engine.ledger.audits)
      ensures r.Ok? ==> Audited(engine.ledger.audits, plan)
      ensures r.Err? ==> engine.ledger.audits == old(engine.ledger.audits)
      ensures !Bound(engine.profile, plan) ==> r == Err(PlanRevisionMismatch)
      ensures Bound(engine.profile, plan) && (receipt.auditId != plan.auditId || receipt.planHash != plan) ==>
                r == Err(AuditPlanMismatch)
    {
      if !Bound(engine.profile, plan) {
        return Err(PlanRevisionMismatch);
      }
      if receipt.auditId != plan.auditId || receipt.planHash != plan {
        return Err(AuditPlanMismatch);
      }
      var audit := Audit(plan, plan.auditId, receipt.expressionHash, receipt.artifactHash);
      if plan.planId in engine.ledger.audits {
        if engine.ledger.audits[plan.planId] != audit {
          return Err(AuditReceiptConflict);
        }
        return Ok(true);
      }
      ghost var before, logged := engine.State(), engine.run;
      engine.ledger.audits := engine.ledger.audits[plan.planId := audit];
      engine.Log(before, Step.PutAudit(plan, receipt));
      PlannedExtends(engine.start, logged, engine.run);
      r := Ok(true);
    }

    /** Staging the same plan again answers its state; a changed plan under the same id is refused. */
    method Stage(plan: Plan) returns (r: Result<PlanState>)
      requires Valid() && ValidPlan(plan)
      modifies engine`run, engine.ledger`plans
      ensures Valid() && engine.State() == old(engine.State()).(plans := engine.ledger.plans)
      ensures !Bound(engine.profile, plan) ==> r == Err(PlanRevisionMismatch)
      ensures r.Err? ==> engine.ledger.plans == old(engine.ledger.plans)
      ensures Bound(engine.profile, plan) && PlanIndex(old(engine.ledger.plans), plan.planId) >= 0 ==>
                engine.ledger.plans == old(engine.ledger.plans) &&
                r == StagedAgain(old(engine.ledger.plans)[PlanIndex(old(engine.ledger.plans), plan.planId)], plan)
      ensures Bound(engine.profile, plan) && PlanIndex(old(engine.ledger.plans), plan.planId) < 0 ==>
                exists clock: Clock ::
                  StagedNew(old(engine.State()), plan, clock, r, engine.ledger.plans)
    {
      if !Bound(engine.profile, plan) {
        return Err(PlanRevisionMismatch);
      }
      var i := PlanIndex(engine.ledger.plans, plan.planId);
      if i >= 0 {
        return StagedAgain(engine.ledger.plans[i], plan);
      }
      var first := engine.adapter.Now();
      var second := engine.adapter.Now();
      var clock := Clock(first, second, second);
      var refusal := StageRefusal(
        engine.profile, engine.ledger.intents, engine.authority, engine.ledger.plans, engine.ledger.audits,
        plan, clock);
      ghost var before, logged := engine.State(), engine.run;
      if refusal.Some? {
        r := Err(refusal.value);
        assert StagedNew(before, plan, clock, r, engine.ledger.plans);
        return;
      }
      engine.ledger.plans := engine.ledger.plans + [PlanRow(plan, Staged, None)];
      engine.Log(before, Step.Stage(plan, clock));
      PlannedExtends(engine.start, logged, engine.run);
      r := Ok(Staged);
      assert StagedNew(before, plan, clock, r, engine.ledger.plans);
    }

    /** `_save`. */
    method Save(planId: PlanId, state: PlanState, exit: Option<Intent>, ghost s: Step)
      requires Valid() && SavedState(s) == Some(state) && Enabled(engine.State(), s) && s.planId == planId
      requires exit == if s.PlanExits? then Some(FrozenExit(engine.State(), planId, s.quote, s.clock)) else None
      modifies engine`run, engine.ledger`plans
      ensures Valid() && engine.run == old(engine.run) + [s] && engine.State() == Apply(old(engine.State()), s)
      ensures engine.State() == old(engine.State()).(plans := engine.ledger.plans)
    {
      ghost var before, logged := engine.State(), engine.run;
      var i := PlanIndex(engine.ledger.plans, planId);
      var row := engine.ledger.plans[i];
      var exitRequest := if exit.Some? then exit else row.exitRequest;
      engine.ledger.plans := engine.ledger.plans[i := row.(state := state, exitRequest := exitRequest)];
      engine.Log(before, s);
      PlannedExtends(engine.start, logged, engine.run);
    }

    /** A current realtime quote of the symbol, or an error. */
    method CurrentQuote(symbol: Symbol) returns (r: Result<Quote>, ghost at: int)
      ensures r.Ok? ==> ValidQuote(r.value) && QuoteFresh(engine.profile, symbol, r.value, at)
      ensures r.Err? ==> r.error == TrustedQuoteUnavailable || r.error == QuoteStaleOrDelayed
    {
      at := 0;
      var quote := engine.adapter.TrustedQuote();
      if quote.None? {
        return Err(TrustedQuoteUnavailable), at;
      }
      var now := engine.adapter.Now();
      at := now;
      if !QuoteFresh(engine.profile, symbol, quote.value, now) {
        return Err(QuoteStaleOrDelayed), at;
      }
      r := Ok(quote.value);
    }

    /** Sends an order some plan asks for, once. */
    method SubmitAsked(intent: Intent, quote: Quote) returns (r: Result<Order>)
      requires Valid() && ValidIntent(intent) && ValidQuote(quote)
      requires Find(engine.ledger.intents, intent.clientId).None? && Asked(engine.State(), intent)
      modifies engine.adapter, engine`run, engine`phase, engine`posts, engine.ledger`intents
      ensures Valid() && old(engine.run) <= engine.run && OnlyRows(old(engine.State()), engine.State())
      ensures r.Ok? ==> Reports(engine.State(), intent.clientId, r.value)
      ensures PostsOnly(old(engine.posts), intent, engine.posts)
      ensures r.Ok? ==> engine.posts != old(engine.posts)
    {
      ghost var before, logged := engine.State(), engine.run;
      r := engine.Submit(intent, quote);
      if engine.State() != before {
        PlannedAdmits(engine.start, logged, engine.run, intent);
        if r.Ok? {
          SentReports(before, intent, quote, r, engine.State());
        }
      }
    }

    method Follow(id: ClientId) returns (r: Result<Order>)
      requires Valid() && Find(engine.ledger.intents, id).Some?
      modifies engine`run, engine.ledger`intents
      ensures Valid() && old(engine.run) <= engine.run && OnlyRows(old(engine.State()), engine.State())
      ensures r.Ok? ==> Reports(engine.State(), id, r.value)
      ensures Find(engine.ledger.intents, id).Some?
      ensures engine.posts == old(engine.posts)
    {
      ghost var before, logged := engine.State(), engine.run;
      r := engine.ReconcileOrder(id);
      PlannedExtends(engine.start, logged, engine.run);
      AnsweredReports(before, id, r, engine.State());
    }

    method CancelOwn(id: ClientId) returns (r: Result<Order>)
      requires Valid() && Find(engine.ledger.intents, id).Some?
      modifies engine.adapter, engine`run, engine.ledger`intents
      ensures Valid() && old(engine.run) <= engine.run && OnlyRows(old(engine.State()), engine.State())
      ensures r.Ok? ==> Reports(engine.State(), id, r.value)
      ensures engine.posts == old(engine.posts)
    {
      ghost var before, logged := engine.State(), engine.run;
      r := engine.Cancel(id);
      PlannedExtends(engine.start, logged, engine.run);
      AnsweredReports(before, id, r, engine.State());
    }

    /** A plan is closed only after a snapshot has shown the positions that the ledger computes. */
    method ProveClosure(planId: PlanId) returns (r: Result<bool>)
      requires Valid() && Exiting(engine.State(), planId)
      requires ExitRow(engine.State(), planId).Some? && ExitRow(engine.State(), planId).value.state.Filled?
      modifies engine`run, engine`authority, engine.ledger`intents
      ensures Valid() && old(engine.run) <= engine.run && engine.posts == old(engine.posts)
      ensures engine.ledger.plans == old(engine.ledger.plans)
      ensures r.Ok? ==> Enabled(engine.State(), ExitCloses(planId)) && FlatAndSettled(engine.ledger.intents)
      ensures r.Ok? ==> ProvenBySome(engine.State())
    {
      ghost var before, logged := engine.State(), engine.run;
      r := engine.ReconcileAll();
      PlannedExtends(engine.start, logged, engine.run);
      if r.Err? {
        return;
      }
      var flat := engine.ledger.IsFlatAndSettled();
      if !flat {
        return Err(PositionDrift);
      }
      FilledStays(before, planId, engine.State());
    }

    method CloseOut(planId: PlanId) returns (r: Result<PlanState>)
      requires Valid() && Exiting(engine.State(), planId)
      requires ExitRow(engine.State(), planId).Some? && ExitRow(engine.State(), planId).value.state.Filled?
      modifies engine`run, engine`authority, engine.ledger`intents, engine.ledger`plans
      ensures Valid() && old(engine.run) <= engine.run && engine.posts == old(engine.posts)
      ensures Moved(old(engine.run), planId, r, engine.run)
      ensures r.Ok? ==> r.value == Closed && FlatAndSettled(engine.ledger.intents) && ProvenBySome(engine.State())
      ensures r.Err? ==> engine.ledger.plans == old(engine.ledger.plans)
    {
      var proven := ProveClosure(planId);
      if proven.Err? {
        return Err(proven.error);
      }
      ghost var before := engine.State();
      Save(planId, Closed, None, ExitCloses(planId));
      ProvenStays(before, engine.State());
      r := Ok(Closed);
    }

    /** The exit's order as the ledger reports it after this tick's submission or lookup. */
    method ExitOrder(planId: PlanId) returns (r: Result<Order>)
      requires Valid() && Exiting(engine.State(), planId)
      modifies engine.adapter, engine`run, engine`phase, engine`posts, engine.ledger`intents
      ensures Valid() && old(engine.run) <= engine.run && OnlyRows(old(engine.State()), engine.State())
      ensures r.Ok? ==> Reports(engine.State(), PlanAt(old(engine.State()), planId).exitRequest.value.clientId, r.value)
      ensures PostsOnly(old(engine.posts), PlanAt(old(engine.State()), planId).exitRequest.value, engine.posts)
    {
      ghost var before := engine.State();
      var row := engine.ledger.plans[PlanIndex(engine.ledger.plans, planId)];
      var request := row.exitRequest.value;
      if Find(engine.ledger.intents, request.clientId).Some? {
        r := Follow(request.clientId);
        return;
      }
      var quote, _ := CurrentQuote(request.symbol);
      if quote.Err? {
        return Err(quote.error);
      }
      KeptNow();
      RequestValid(before, planId);
      assert AskedBy(before, row, request);
      r := SubmitAsked(request, quote.value);
    }

    /** `_exit`: one step for the frozen exit request. */
    method Exit(planId: PlanId) returns (r: Result<PlanState>)
      requires Valid() && Exiting(engine.State(), planId)
      modifies engine.adapter, engine`run, engine`phase, engine`posts
      modifies engine`authority, engine.ledger`intents, engine.ledger`plans
      ensures Valid() && old(engine.run) <= engine.run
      ensures Moved(old(engine.run), planId, r, engine.run)
      ensures r.Ok? ==> r.value in {Closed, ManualReview, ExitWorking}
      ensures r.Err? ==> engine.ledger.plans == old(engine.ledger.plans)
      ensures PostsOnly(old(engine.posts), PlanAt(old(engine.State()), planId).exitRequest.value, engine.posts)
    {
      ghost var before := engine.State();
      var request := engine.ledger.plans[PlanIndex(engine.ledger.plans, planId)].exitRequest.value;
      if Find(engine.ledger.intents, request.clientId).None? {
        var now := engine.adapter.Now();
        if now >= request.expiresAt {
          Save(planId, ManualReview, None, ExitReview(planId, now));
          return Ok(ManualReview);
        }
      }
      var order := ExitOrder(planId);
      if order.Err? {
        return Err(order.error);
      }
      StillExiting(before, planId, engine.State());
      r := ExitOutcome(planId, order.value);
    }

    /** An order that is still open past its deadline is cancelled before anything is concluded. */
    method Latest(id: ClientId, order: Order, overdue: bool) returns (r: Result<Order>)
      requires Valid() && Reports(engine.State(), id, order)
      modifies engine.adapter, engine`run, engine.ledger`intents
      ensures Valid() && old(engine.run) <= engine.run && OnlyRows(old(engine.State()), engine.State())
      ensures engine.posts == old(engine.posts)
      ensures r.Ok? ==> Reports(engine.State(), id, r.value)
      ensures Terminal(order.state) || !overdue ==> r == Ok(order) && engine.State() == old(engine.State())
    {
      if Terminal(order.state) || !overdue {
        return Ok(order);
      }
      r := CancelOwn(id);
    }

    /** What the exit's reported order means for the plan. */
    method ExitOutcome(planId: PlanId, order: Order) returns (r: Result<PlanState>)
      requires Valid() && Exiting(engine.State(), planId)
      requires Reports(engine.State(), PlanAt(engine.State(), planId).exitRequest.value.clientId, order)
      modifies engine.adapter, engine`run, engine`authority, engine.ledger`intents, engine.ledger`plans
      ensures Valid() && old(engine.run) <= engine.run && engine.posts == old(engine.posts)
      ensures Moved(old(engine.run), planId, r, engine.run)
      ensures r.Ok? ==> r.value in {Closed, ManualReview, ExitWorking}
      ensures r.Err? ==> engine.ledger.plans == old(engine.ledger.plans)
    {
      ghost var before := engine.State();
      var request := engine.ledger.plans[PlanIndex(engine.ledger.plans, planId)].exitRequest.value;
      var now := engine.adapter.Now();
      var latest := Latest(request.clientId, order, now >= request.expiresAt);
      if latest.Err? {
        return Err(latest.error);
      }
      StillExiting(before, planId, engine.State());
      r := ExitVerdict(planId, latest.value);
    }

    method ExitVerdict(planId: PlanId, order: Order) returns (r: Result<PlanState>)
      requires Valid() && Exiting(engine.State(), planId)
      requires Reports(engine.State(), PlanAt(engine.State(), planId).exitRequest.value.clientId, order)
      modifies engine`run, engine`authority, engine.ledger`intents, engine.ledger`plans
      ensures Valid() && old(engine.run) <= engine.run && engine.posts == old(engine.posts)
      ensures Moved(old(engine.run), planId, r, engine.run)
      ensures r.Ok? ==> r.value == if order.state.Filled? then Closed
                                   else if Terminal(order.state) then ManualReview else ExitWorking
      ensures r.Err? ==> order.state.Filled? && engine.ledger.plans == old(engine.ledger.plans)
    {
      if order.state.Filled? {
        r := CloseOut(planId);
      } else if Terminal(order.state) {
        Save(planId, ManualReview, None, ExitReview(planId, 0));
        r := Ok(ManualReview);
      } else {
        ReportedUnresolved(engine.State(), PlanAt(engine.State(), planId).exitRequest.value.clientId, order);
        Save(planId, ExitWorking, None, ExitWaits(planId));
        r := Ok(ExitWorking);
      }
    }

    /** The exit's terms are stored with the plan. */
    method Freeze(planId: PlanId, exit: Intent, ghost s: Step)
      requires Valid() && s.PlanExits? && s.planId == planId && Enabled(engine.State(), s)
      requires exit == FrozenExit(engine.State(), planId, s.quote, s.clock)
      modifies engine`run, engine.ledger`plans
      ensures Valid() && engine.run == old(engine.run) + [s] && engine.posts == old(engine.posts)
      ensures Exiting(engine.State(), planId) && PlanAt(engine.State(), planId).exitRequest == Some(exit)
    {
      KeptNow();
      ghost var before := engine.State();
      Save(planId, ExitPrepared, Some(exit), s);
      KeptDistinct(before);
      SavedIsOpen(before, planId, ExitPrepared, Some(exit), engine.State());
    }

    /** The exit is stored before it is sent, with the whole fill and the quote that made it due. */
    method FreezeAndExit(planId: PlanId, order: Order, quote: Quote, now: int, ghost at: int)
      returns (r: Result<PlanState>)
      requires Valid() && EntryFilled(engine.State(), planId)
      requires EntryRow(engine.State(), planId).value.result == Some(order)
      requires EffectiveMode(engine.profile, engine.authority).Ok?
      requires QuoteFresh(engine.profile, PlanAt(engine.State(), planId).plan.entry.symbol, quote, at)
      requires ExitDue(PlanAt(engine.State(), planId).plan,
                       EffectiveMode(engine.profile, engine.authority).value, quote, now)
      modifies engine.adapter, engine`run, engine`phase, engine`posts
      modifies engine`authority, engine.ledger`intents, engine.ledger`plans
      ensures Valid() && old(engine.run) <= engine.run
      ensures Moved(old(engine.run), planId, r, engine.run)
      ensures r.Ok? ==> r.value in {Closed, ManualReview, ExitWorking}
      ensures SoldOnly(old(engine.posts), planId, engine.posts)
      ensures engine.run == old(engine.run) ==> r == Err(ExitTermsInvalid) && engine.State() == old(engine.State())
      ensures engine.run != old(engine.run) ==> exists later: int ::
                FrozenFirst(old(engine.State()), PlanExits(planId, quote, Clock(at, now, later)), old(engine.run),
                            engine.run, old(engine.posts), engine.posts)
    {
      ghost var before := engine.State();
      var plan := engine.ledger.plans[PlanIndex(engine.ledger.plans, planId)].plan;
      var later := engine.adapter.Now();
      var exit := ExitIntent(engine.profile, plan, order.filled, quote, later);
      if !ValidIntent(exit) {
        return Err(ExitTermsInvalid);
      }
      ghost var logged := engine.run;
      Freeze(planId, exit, PlanExits(planId, quote, Clock(at, now, later)));
      r := Exit(planId);
      assert FrozenFirst(before, PlanExits(planId, quote, Clock(at, now, later)), logged, engine.run,
                         before.posts, engine.posts);
    }

    /** The entry has ended: nothing bought, keep watching, or freeze an exit and work it. */
    method Decide(planId: PlanId, mode: Mode, order: Order) returns (r: Result<PlanState>)
      requires Valid() && Open(engine.State(), planId) && PlanAt(engine.State(), planId).exitRequest.None?
      requires EffectiveMode(engine.profile, engine.authority) == Ok(mode)
      requires Reports(engine.State(), PlanAt(engine.State(), planId).plan.entry.clientId, order)
      requires Terminal(order.state)
      modifies engine.adapter, engine`run, engine`phase, engine`posts
      modifies engine`authority, engine.ledger`intents, engine.ledger`plans
      ensures Valid() && old(engine.run) <= engine.run
      ensures Moved(old(engine.run), planId, r, engine.run)
      ensures (r == Ok(Unfilled)) <==> order.filled == 0.0
      ensures r.Ok? && r.value !in {Unfilled, Monitoring} ==> r.value in {Closed, ManualReview, ExitWorking}
      ensures SoldOnly(old(engine.posts), planId, engine.posts)
    {
      if order.filled == 0.0 {
        Save(planId, Unfilled, None, PlanUnfilled(planId));
        return Ok(Unfilled);
      }
      r := WatchOrExit(planId, mode, order);
    }

    /** A filled entry is watched until its exit is due. */
    method WatchOrExit(planId: PlanId, mode: Mode, order: Order) returns (r: Result<PlanState>)
      requires Valid() && EntryFilled(engine.State(), planId)
      requires EntryRow(engine.State(), planId).value.result == Some(order)
      requires EffectiveMode(engine.profile, engine.authority) == Ok(mode)
      modifies engine.adapter, engine`run, engine`phase, engine`posts
      modifies engine`authority, engine.ledger`intents, engine.ledger`plans
      ensures Valid() && old(engine.run) <= engine.run
      ensures Moved(old(engine.run), planId, r, engine.run)
      ensures r.Ok? ==> r.value in {Monitoring, Closed, ManualReview, ExitWorking}
      ensures SoldOnly(old(engine.posts), planId, engine.posts)
    {
      var plan := engine.ledger.plans[PlanIndex(engine.ledger.plans, planId)].plan;
      var quote, at := CurrentQuote(plan.entry.symbol);
      if quote.Err? {
        return Err(quote.error);
      }
      var now := engine.adapter.Now();
      if ExitDue(plan, mode, quote.value, now) {
        r := FreezeAndExit(planId, order, quote.value, now, at);
      } else {
        Save(planId, Monitoring, None, PlanMonitors(planId, quote.value, Clock(at, now, now)));
        r := Ok(Monitoring);
      }
    }

    /** The entry's order as the ledger reports it after this tick's submission or lookup. */
    method EntryOrder(planId: PlanId) returns (r: Result<Order>)
      requires Valid() && Open(engine.State(), planId) && PlanAt(engine.State(), planId).exitRequest.None?
      requires EffectiveMode(engine.profile, engine.authority) == Ok(Entries) || EntryRow(engine.State(), planId).Some?
      modifies engine.adapter, engine`run, engine`phase, engine`posts, engine.ledger`intents
      ensures Valid() && old(engine.run) <= engine.run && OnlyRows(old(engine.State()), engine.State())
      ensures r.Ok? ==> Reports(engine.State(), PlanAt(old(engine.State()), planId).plan.entry.clientId, r.value)
      ensures PostsOnly(old(engine.posts), PlanAt(old(engine.State()), planId).plan.entry, engine.posts)
      ensures EntryRow(old(engine.State()), planId).Some? ==> engine.posts == old(engine.posts)
      ensures !Audited(engine.ledger.audits, PlanAt(old(engine.State()), planId).plan) &&
              EntryRow(old(engine.State()), planId).None? ==>
                r == Err(AuditNotProven) && engine.State() == old(engine.State())
    {
      ghost var before := engine.State();
      var row := engine.ledger.plans[PlanIndex(engine.ledger.plans, planId)];
      var entry := row.plan.entry;
      if Find(engine.ledger.intents, entry.clientId).Some? {
        r := Follow(entry.clientId);
        return;
      }
      if !Audited(engine.ledger.audits, row.plan) {
        return Err(AuditNotProven);
      }
      var quote, _ := CurrentQuote(entry.symbol);
      if quote.Err? {
        return Err(quote.error);
      }
      KeptNow();
      EntryValid(before, planId);
      assert AskedBy(before, row, entry);
      r := SubmitAsked(entry, quote.value);
    }

    /** The part of `tick` before an exit is frozen. */
    method Enter(planId: PlanId, mode: Mode) returns (r: Result<PlanState>)
      requires Valid() && Open(engine.State(), planId) && PlanAt(engine.State(), planId).exitRequest.None?
      requires EffectiveMode(engine.profile, engine.authority) == Ok(mode)
      modifies engine.adapter, engine`run, engine`phase, engine`posts
      modifies engine`authority, engine.ledger`intents, engine.ledger`plans
      ensures Valid() && old(engine.run) <= engine.run
      ensures Moved(old(engine.run), planId, r, engine.run)
      ensures old(engine.posts) <= engine.posts
      ensures EntryRow(old(engine.State()), planId).None? && !mode.Entries? ==>
                r == Ok(Expired) && engine.posts == old(engine.posts)
      ensures r == Ok(Expired) ==> EntryRow(old(engine.State()), planId).None?
    {
      ghost var before := engine.State();
      var entry := engine.ledger.plans[PlanIndex(engine.ledger.plans, planId)].plan.entry;
      var now := engine.adapter.Now();
      if Find(engine.ledger.intents, entry.clientId).None? && (now >= entry.expiresAt || !mode.Entries?) {
        Save(planId, Expired, None, PlanExpires(planId, now));
        return Ok(Expired);
      }
      var order := EntryOrder(planId);
      if order.Err? {
        return Err(order.error);
      }
      StillOpen(before, planId, engine.State());
      r := EntryVerdict(planId, mode, order.value);
    }

    /** An open entry is waited for, or cancelled when it is overdue or entries are no longer allowed. */
    method EntryVerdict(planId: PlanId, mode: Mode, order: Order) returns (r: Result<PlanState>)
      requires Valid() && Open(engine.State(), planId) && PlanAt(engine.State(), planId).exitRequest.None?
      requires EffectiveMode(engine.profile, engine.authority) == Ok(mode)
      requires Reports(engine.State(), PlanAt(engine.State(), planId).plan.entry.clientId, order)
      modifies engine.adapter, engine`run, engine`phase, engine`posts
      modifies engine`authority, engine.ledger`intents, engine.ledger`plans
      ensures Valid() && old(engine.run) <= engine.run
      ensures Moved(old(engine.run), planId, r, engine.run)
      ensures r != Ok(Expired)
      ensures SoldOnly(old(engine.posts), planId, engine.posts)
    {
      ghost var before := engine.State();
      var entry := engine.ledger.plans[PlanIndex(engine.ledger.plans, planId)].plan.entry;
      var now := engine.adapter.Now();
      var latest := Latest(entry.clientId, order, now >= entry.expiresAt || !mode.Entries?);
      if latest.Err? {
        return Err(latest.error);
      }
      StillOpen(before, planId, engine.State());
      r := EntryNext(planId, mode, latest.value);
    }

    method EntryNext(planId: PlanId, mode: Mode, order: Order) returns (r: Result<PlanState>)
      requires Valid() && Open(engine.State(), planId) && PlanAt(engine.State(), planId).exitRequest.None?
      requires EffectiveMode(engine.profile, engine.authority) == Ok(mode)
      requires Reports(engine.State(), PlanAt(engine.State(), planId).plan.entry.clientId, order)
      modifies engine.adapter, engine`run, engine`phase, engine`posts
      modifies engine`authority, engine.ledger`intents, engine.ledger`plans
      ensures Valid() && old(engine.run) <= engine.run
      ensures Moved(old(engine.run), planId, r, engine.run)
      ensures r != Ok(Expired) && (!Terminal(order.state) ==> r == Ok(EntryWorking))
      ensures SoldOnly(old(engine.posts), planId, engine.posts)
    {
      if Terminal(order.state) {
        r := Decide(planId, mode, order);
      } else {
        ReportedUnresolved(engine.State(), PlanAt(engine.State(), planId).plan.entry.clientId, order);
        Save(planId, EntryWorking, None, PlanWaits(planId));
        r := Ok(EntryWorking);
      }
    }

    /** One step of one plan: at most one order is sent, and an order whose outcome is open is only looked up. */
    method Tick(planId: PlanId) returns (r: Result<PlanState>)
      requires Valid()
      modifies engine.adapter, engine`run, engine`phase, engine`posts
      modifies engine`authority, engine.ledger`intents, engine.ledger`plans
      ensures Valid() && old(engine.run) <= engine.run && old(engine.posts) <= engine.posts
      ensures PlanIndex(old(engine.ledger.plans), planId) < 0 ==>
                r == Err(PlanNotFound) && engine.State() == old(engine.State())
      ensures var i := PlanIndex(old(engine.ledger.plans), planId);
        i >= 0 && Final(old(engine.ledger.plans)[i].state) ==>
          r == Ok(old(engine.ledger.plans)[i].state) && engine.State() == old(engine.State())
      ensures var i := PlanIndex(old(engine.ledger.plans), planId);
        i >= 0 && !Final(old(engine.ledger.plans)[i].state) && !Bound(engine.profile, old(engine.ledger.plans)[i].plan)
        ==> r == Err(PlanRevisionMismatch) && engine.State() == old(engine.State())
      // The answer is the state that was saved last, by a step its guard allowed.
      ensures Open(old(engine.State()), planId) ==> Moved(old(engine.run), planId, r, engine.run)
      ensures r.Ok? ==> IsAt(engine.ledger.plans, planId, r.value)
      // A frozen exit is worked; nothing but that exact request is ever sent for it.
      ensures Open(old(engine.State()), planId) && PlanAt(old(engine.State()), planId).exitRequest.Some? ==>
                && (r.Ok? ==> r.value in {Closed, ManualReview, ExitWorking})
                && PostsOnly(old(engine.posts), PlanAt(old(engine.State()), planId).exitRequest.value, engine.posts)
      // An entry that was never sent expires instead of being sent once entries are not allowed.
      ensures Open(old(engine.State()), planId) && PlanAt(old(engine.State()), planId).exitRequest.None?
              && EntryRow(old(engine.State()), planId).None?
              && EffectiveMode(engine.profile, old(engine.authority)) in {Ok(Off), Ok(CloseOnly)} ==>
                r == Ok(Expired) && engine.posts == old(engine.posts)
    {
      var i := PlanIndex(engine.ledger.plans, planId);
      if i < 0 {
        return Err(PlanNotFound);
      }
      var row := engine.ledger.plans[i];
      if Final(row.state) {
        return Ok(row.state);
      }
      if !Bound(engine.profile, row.plan) {
        return Err(PlanRevisionMismatch);
      }
      if row.exitRequest.Some? {
        r := Exit(planId);
        AnswerIsAt(planId, r);
        return;
      }
      var mode := EffectiveMode(engine.profile, engine.authority);
      if mode.Err? {
        return Err(mode.error);
      }
      r := Enter(planId, mode.value);
      AnswerIsAt(planId, r);
    }

    lemma AnswerIsAt(planId: PlanId, r: Result<PlanState>)
      requires Valid() && (r.Ok? ==> engine.run != [] && SavedState(engine.run[|engine.run| - 1]) == Some(r.value)
                                     && engine.run[|engine.run| - 1].planId == planId)
      ensures r.Ok? ==> IsAt(engine.ledger.plans, planId, r.value)
    {
      if r.Ok? {
        MovedIsAt(engine.start, engine.run, planId, r.value);
      }
    }
  }

  lemma ProvenStays(n: Node, n': Node)
    requires ProvenBySome(n) && n' == n.(plans := n'.plans)
    ensures ProvenBySome(n')
  {
    var snapshot: Snapshot, now: int :| AccountProven(n, snapshot, now);
    assert AccountProven(n', snapshot, now);
  }

  /** The first new step freezes the exit, and the only intent that may have been posted is that exit. */
  ghost predicate FrozenFirst(
    n: Node, s: Step, before: seq<Step>, after: seq<Step>, sent: seq<Dispatch>, posts: seq<Dispatch>)
  {
    && s.PlanExits? && Enabled(n, s) && |before| < |after| && before <= after && after[|before|] == s
    && PostsOnly(sent, FrozenExit(n, s.planId, s.quote, s.clock), posts)
  }

  /** The stored plan is in this state. */
  predicate IsAt(plans: seq<PlanRow>, planId: PlanId, state: PlanState) {
    var i := PlanIndex(plans, planId);
    i >= 0 && plans[i].state == state
  }

  lemma SamePlanIndex(a: seq<PlanRow>, b: seq<PlanRow>, id: PlanId)
    requires |a| == |b| && forall i | 0 <= i < |a| :: a[i].plan == b[i].plan
    ensures PlanIndex(a, id) == PlanIndex(b, id)
  {
    if a != [] {
      SamePlanIndex(a[..|a| - 1], b[..|b| - 1], id);
    }
  }

  lemma SavedIsAt(n: Node, planId: PlanId, state: PlanState, exit: Option<Intent>)
    requires Open(n, planId)
    ensures IsAt(Saved(n, planId, state, exit).plans, planId, state)
  {
    SamePlanIndex(n.plans, Saved(n, planId, state, exit).plans, planId);
  }

  lemma SaveStepIsAt(n: Node, s: Step)
    requires SavedState(s).Some? && Enabled(n, s)
    ensures IsAt(Apply(n, s).plans, s.planId, SavedState(s).value)
  {
    SavedIsAt(n, s.planId, SavedState(s).value,
              if s.PlanExits? then Some(FrozenExit(n, s.planId, s.quote, s.clock)) else None);
  }

  /** A run that ends with a save leaves the plan in the saved state. */
  lemma MovedIsAt(n: Node, run: seq<Step>, planId: PlanId, state: PlanState)
    requires Legal(n, run) && run != [] && SavedState(run[|run| - 1]) == Some(state) && run[|run| - 1].planId == planId
    ensures IsAt(After(n, run).plans, planId, state)
  {
    SaveStepIsAt(After(n, run[..|run| - 1]), run[|run| - 1]);
  }

  /** The last new step is the save of the state that is answered. */
  ghost predicate Moved(before: seq<Step>, planId: PlanId, r: Result<PlanState>, after: seq<Step>) {
    r.Ok? ==>
      && |before| < |after| && SavedState(after[|after| - 1]) == Some(r.value)
      && after[|after| - 1].planId == planId
  }

  /** At most this one intent was posted. */
  ghost predicate PostsOnly(before: seq<Dispatch>, intent: Intent, after: seq<Dispatch>) {
    after == before || (|after| == |before| + 1 && before <= after && after[|before|].intent == intent)
  }

  /** At most the plan's exit was posted. */
  ghost predicate SoldOnly(before: seq<Dispatch>, planId: PlanId, after: seq<Dispatch>) {
    after == before || (|after| == |before| + 1 && before <= after && after[|before|].intent.clientId == ExitOf(planId))
  }

  lemma FilledStays(n: Node, planId: PlanId, n': Node)
    requires Sound(n) && Sound(n') && Exiting(n, planId) && n'.plans == n.plans && n'.profile == n.profile
    requires ExitRow(n, planId).Some? && ExitRow(n, planId).value.state.Filled?
    requires RowsGrow(n.rows, n'.rows)
    ensures Exiting(n', planId) && ExitRow(n', planId) == ExitRow(n, planId)
  {
    var i := IndexOf(n.rows, PlanAt(n, planId).exitRequest.value.clientId);
    assert RowGrows(n.rows[i], n'.rows[i]);
    FindAt(n'.rows, i);
  }

  lemma ReportedUnresolved(n: Node, id: ClientId, o: Order)
    requires Sound(n) && Reports(n, id, o) && !Terminal(o.state)
    ensures Unresolved(Find(n.rows, id))
  {
    assert RowOk(n.rows[IndexOf(n.rows, id)], n.profile.binding);
  }

  lemma StillExiting(n: Node, planId: PlanId, n': Node)
    requires Exiting(n, planId) && OnlyRows(n, n')
    ensures Exiting(n', planId) && PlanAt(n', planId) == PlanAt(n, planId)
  {
  }

  lemma StillOpen(n: Node, planId: PlanId, n': Node)
    requires Open(n, planId) && OnlyRows(n, n')
    ensures Open(n', planId) && PlanAt(n', planId) == PlanAt(n, planId)
    ensures n'.profile == n.profile && n'.authority == n.authority
  {
  }

  lemma EntryValid(n: Node, planId: PlanId)
    requires Kept(n) && Open(n, planId)
    ensures ValidIntent(PlanAt(n, planId).plan.entry)
  {
    assert PlanOk(n.rows, n.plans[PlanIndex(n.plans, planId)]);
  }

  lemma RequestValid(n: Node, planId: PlanId)
    requires Kept(n) && Exiting(n, planId)
    ensures ValidIntent(PlanAt(n, planId).exitRequest.value)
  {
    assert PlanOk(n.rows, n.plans[PlanIndex(n.plans, planId)]);
  }

  lemma KeptDistinct(n: Node)
    requires Kept(n)
    ensures forall i, j | 0 <= i < j < |n.plans| :: n.plans[i].plan.planId != n.plans[j].plan.planId
  {
  }

  lemma SavedIsOpen(n: Node, planId: PlanId, state: PlanState, exit: Option<Intent>, n': Node)
    requires Open(n, planId) && n' == Saved(n, planId, state, exit) && exit.Some? && !Final(state)
    requires forall i, j | 0 <= i < j < |n.plans| :: n.plans[i].plan.planId != n.plans[j].plan.planId
    ensures Exiting(n', planId) && PlanAt(n', planId).exitRequest == exit
  {
    PlanFoundAt(n'.plans, PlanIndex(n.plans, planId));
  }

  lemma PlanFoundAt(plans: seq<PlanRow>, i: nat)
    requires i < |plans| && forall i, j | 0 <= i < j < |plans| :: plans[i].plan.planId != plans[j].plan.planId
    ensures PlanIndex(plans, plans[i].plan.planId) == i
  {
  }

  /** Re-staging is idempotent for the same plan and a conflict for another one under its id. */
  function StagedAgain(row: PlanRow, plan: Plan): Result<PlanState> {
    if row.plan == plan then Ok(row.state) else Err(PlanIdentityConflict)
  }

  /** A new plan is stored exactly when no gate refuses it; otherwise the first refusal is reported. */
  ghost predicate StagedNew(n: Node, plan: Plan, clock: Clock, r: Result<PlanState>, plans: seq<PlanRow>) {
    var refusal := StageRefusal(n.profile, n.rows, n.authority, n.plans, n.audits, plan, clock);
    if refusal.Some? then r == Err(refusal.value) && plans == n.plans
    else r == Ok(Staged) && plans == n.plans + [PlanRow(plan, Staged, None)]
  }
}
