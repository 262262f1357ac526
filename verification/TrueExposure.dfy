/** Lifecycle and broker together: what the real account can hold when every order goes through a plan. */
module TrueExposure {
  import opened Contracts
  import opened Ledgers
  import opened Accounts
  import opened LedgerSafety
  import opened PlanSafety
  import opened PlanTheorems
  import opened HonestBroker

  /** An honest history in which every admitted intent was asked for by a plan. */
  ghost predicate PlannedHistory(profile: Profile, es: seq<Event>) {
    && History(Start(profile), es)
    && forall k | 0 <= k < |es| && es[k].Local? && es[k].step.Prepare? ::
         History(Start(profile), es[..k]) && Asked(Ends(Start(profile), es[..k]).node, es[k].step.intent)
  }

  lemma PlannedFront(profile: Profile, es: seq<Event>)
    requires PlannedHistory(profile, es) && es != []
    ensures PlannedHistory(profile, es[..|es| - 1])
    ensures var last := es[|es| - 1];
      last.Local? && last.step.Prepare? ==> Asked(Ends(Start(profile), es[..|es| - 1]).node, last.step.intent)
  {
    var front := es[..|es| - 1];
    forall k | 0 <= k < |front| && front[k].Local? && front[k].step.Prepare?
      ensures History(Start(profile), front[..k])
      ensures Asked(Ends(Start(profile), front[..k]).node, front[k].step.intent)
    {
      assert front[..k] == es[..k];
    }
  }

  lemma EventKeepsPlans(w: World, e: Event)
    requires Kept(w.node) && Possible(w, e)
    requires e.Local? && e.step.Prepare? ==> Asked(w.node, e.step.intent)
    ensures Kept(Next(w, e).node)
  {
    if e.Local? {
      StepKept(w.node, e.step);
    }
  }

  lemma {:induction false} HistoryKept(profile: Profile, es: seq<Event>)
    requires PlannedHistory(profile, es)
    ensures Kept(Ends(Start(profile), es).node)
  {
    if es == [] {
      FreshKept(profile);
    } else {
      PlannedFront(profile, es);
      HistoryKept(profile, es[..|es| - 1]);
      EventKeepsPlans(Ends(Start(profile), es[..|es| - 1]), es[|es| - 1]);
    }
  }

  lemma TrueHeldOfAppended(rows: seq<Row>, row: Row, orders: map<ClientId, Accepted>, s: Symbol)
    ensures TrueHeld(rows + [row], orders, s) == TrueHeld(rows, orders, s) + TrueContribution(row, orders, s)
  {
    assert (rows + [row])[..|rows|] == rows;
  }

  /** What one row's order can really have moved: nothing elsewhere, at most its quantity, in its direction. */
  lemma ContributionBounds(rows: seq<Row>, i: nat, orders: map<ClientId, Accepted>, s: Symbol)
    requires i < |rows| && DistinctIds(rows) && OrdersOk(rows, orders)
    ensures var c := TrueContribution(rows[i], orders, s);
      && (rows[i].request.symbol != s ==> c == 0.0)
      && (rows[i].request.side.Buy? ==> c <= rows[i].request.quantity || c == 0.0)
      && (rows[i].request.side.Sell? ==> c <= 0.0)
  {
    FindAt(rows, i);
    if rows[i].request.clientId in orders {
      assert OrderOk(orders[rows[i].request.clientId]);
    }
  }

  /** Everything before the last plan's own rows is settled, so it has really moved nothing. */
  lemma EarlierRowsMovedNothing(
    rows: seq<Row>, binding: Binding, orders: map<ClientId, Accepted>, p: PlanRow, s: Symbol)
    requires RowsOk(rows, binding) && RowsRefine(rows, orders) && OwnsTheEnd(rows, p)
    ensures TrueHeld(rows[..|rows| - OwnCount(rows, p)], orders, s) == 0.0
  {
    var front := rows[..|rows| - OwnCount(rows, p)];
    assert FlatAndSettled(front);
    forall i | 0 <= i < |front|
      ensures RowOk(front[i], binding) && Terminal(front[i].state) && RowRefines(front[i], orders)
    {
      assert front[i] == rows[i];
    }
    EndedRowsAreTrue(front, binding, orders, s);
  }

  /** The plan's entry brings in at most its quantity; its exit only takes out. */
  lemma OwnRowsBound(rows: seq<Row>, binding: Binding, orders: map<ClientId, Accepted>, p: PlanRow, s: Symbol)
    requires RowsOk(rows, binding) && OrdersOk(rows, orders) && RowsRefine(rows, orders)
    requires PlanOk(rows, p) && OwnsTheEnd(rows, p)
    ensures TrueHeld(rows, orders, s) <= if s == p.plan.entry.symbol then p.plan.entry.quantity else 0.0
  {
    EarlierRowsMovedNothing(rows, binding, orders, p, s);
    var c := OwnCount(rows, p);
    if c > 0 {
      EntryBound(rows, binding, orders, p, s);
    }
    if c == 2 {
      ExitBound(rows, binding, orders, p, s);
    }
    TrueHeldOfEnd(rows, orders, c, s);
  }

  lemma TrueHeldOfEnd(rows: seq<Row>, orders: map<ClientId, Accepted>, c: nat, s: Symbol)
    requires c <= 2 && c <= |rows|
    ensures TrueHeld(rows, orders, s) == TrueHeld(rows[..|rows| - c], orders, s)
            + (if c >= 1 then TrueContribution(rows[|rows| - c], orders, s) else 0.0)
            + (if c == 2 then TrueContribution(rows[|rows| - 1], orders, s) else 0.0)
  {
    var k := |rows| - c;
    if c == 0 {
      assert rows[..k] == rows;
    } else if c == 1 {
      assert rows == rows[..k] + [rows[k]];
      TrueHeldOfAppended(rows[..k], rows[k], orders, s);
    } else {
      assert rows == (rows[..k] + [rows[k]]) + [rows[k + 1]];
      TrueHeldOfAppended(rows[..k] + [rows[k]], rows[k + 1], orders, s);
      TrueHeldOfAppended(rows[..k], rows[k], orders, s);
    }
  }

  lemma EntryBound(rows: seq<Row>, binding: Binding, orders: map<ClientId, Accepted>, p: PlanRow, s: Symbol)
    requires RowsOk(rows, binding) && OrdersOk(rows, orders) && PlanOk(rows, p) && OwnsTheEnd(rows, p)
    requires OwnCount(rows, p) > 0
    ensures TrueContribution(rows[|rows| - OwnCount(rows, p)], orders, s)
            <= if s == p.plan.entry.symbol then p.plan.entry.quantity else 0.0
  {
    var k := |rows| - OwnCount(rows, p);
    assert Find(rows, EntryId(p)).Some? && rows[k].request == p.plan.entry;
    ContributionBounds(rows, k, orders, s);
  }

  lemma ExitBound(rows: seq<Row>, binding: Binding, orders: map<ClientId, Accepted>, p: PlanRow, s: Symbol)
    requires RowsOk(rows, binding) && OrdersOk(rows, orders) && PlanOk(rows, p) && OwnsTheEnd(rows, p)
    requires OwnCount(rows, p) == 2
    ensures TrueContribution(rows[|rows| - 1], orders, s) <= 0.0
  {
    assert p.exitRequest == Some(rows[|rows| - 1].request) && ExitFrozen(rows, p);
    ContributionBounds(rows, |rows| - 1, orders, s);
  }

  /** If anything is really held of a symbol, it is the newest plan's, bought under a receipt: no more than
  its entry's quantity, and worth at its limit no more than the order limit. */
  ghost predicate OnePlanHeld(w: World, s: Symbol) {
    At(w.broker.positions, s) != 0.0 ==>
      && w.node.plans != []
      && var plan := w.node.plans[|w.node.plans| - 1].plan;
         && s == plan.entry.symbol && Audited(w.node.audits, plan)
         && 0.0 < At(w.broker.positions, s) <= plan.entry.quantity
         && At(w.broker.positions, s) * plan.entry.limitPrice <= w.node.profile.maxOrderNotional
  }

  /** Whatever fills and whenever the process dies, the real account never holds more than one plan. */
  lemma RealExposureBounded(profile: Profile, es: seq<Event>, s: Symbol)
    requires PlannedHistory(profile, es)
    ensures OnePlanHeld(Ends(Start(profile), es), s)
  {
    TruePositionNeverShort(profile, es, s);
    HistoryRefines(profile, es);
    HistoryKept(profile, es);
    HeldIsOnePlan(Ends(Start(profile), es), s);
  }

  lemma HeldIsOnePlan(w: World, s: Symbol)
    requires Refines(w) && Kept(w.node) && At(w.broker.positions, s) >= 0.0
    ensures OnePlanHeld(w, s)
  {
    if At(w.broker.positions, s) != 0.0 {
      var entry := BoundedNow(w, s);
      BoundsGiveOnePlan(w, s, entry);
    }
  }

  lemma BoundsGiveOnePlan(w: World, s: Symbol, entry: Intent)
    requires w.node.plans != [] && entry == w.node.plans[|w.node.plans| - 1].plan.entry
    requires Audited(w.node.audits, w.node.plans[|w.node.plans| - 1].plan)
    requires s == entry.symbol && 0.0 < At(w.broker.positions, s) <= entry.quantity && 0.0 < entry.limitPrice
    requires Notional(entry) <= w.node.profile.maxOrderNotional
    ensures OnePlanHeld(w, s)
  {
    ScaleBound(At(w.broker.positions, s), entry.quantity, entry.limitPrice, w.node.profile.maxOrderNotional);
  }

  lemma BoundedNow(w: World, s: Symbol) returns (entry: Intent)
    requires Refines(w) && Kept(w.node) && At(w.broker.positions, s) > 0.0
    ensures w.node.plans != [] && entry == w.node.plans[|w.node.plans| - 1].plan.entry
    ensures s == entry.symbol && At(w.broker.positions, s) <= entry.quantity && 0.0 < entry.limitPrice
    ensures Notional(entry) <= w.node.profile.maxOrderNotional
    ensures Audited(w.node.audits, w.node.plans[|w.node.plans| - 1].plan)
  {
    HeldMeansPlan(w, s);
    var p := w.node.plans[|w.node.plans| - 1];
    entry := p.plan.entry;
    assert PlanOk(w.node.rows, p) && OwnsTheEnd(w.node.rows, p);
    OwnRowsBound(w.node.rows, w.node.profile.binding, w.broker.orders, p, s);
    assert At(w.broker.positions, s) == TrueHeld(w.node.rows, w.broker.orders, s);
  }

  lemma HeldMeansPlan(w: World, s: Symbol)
    requires Refines(w) && Kept(w.node) && At(w.broker.positions, s) > 0.0
    ensures !FlatAndSettled(w.node.rows) && w.node.plans != []
  {
    if FlatAndSettled(w.node.rows) {
      SettledIsTrue(w);
    }
  }
}
