/** What an account run keeps when every order goes through the plan lifecycle: one active plan, whose
two orders are the only exposure; phases that only move forward; a frozen exit for exactly the
entry's final fill.
*/
module PlanSafety {
  import opened Contracts
  import opened Ledgers
  import opened Accounts
  import opened LedgerSafety

  // ---- The invariant ----------------------------------------------------------------------

  function EntryId(p: PlanRow): ClientId {
    p.plan.entry.clientId
  }

  function ExitId(p: PlanRow): ClientId {
    ExitOf(p.plan.planId)
  }

  /** The plan's entry has ended and bought something. */
  predicate Bought(rows: seq<Row>, p: PlanRow) {
    var entry := Find(rows, EntryId(p));
    entry.Some? && Terminal(entry.value.state) && entry.value.result.Some?
    && 0.0 < entry.value.result.value.filled
  }

  predicate ExitFrozen(rows: seq<Row>, p: PlanRow) {
    && p.exitRequest.Some? && Bought(rows, p)
    && var exit := p.exitRequest.value;
       ValidIntent(exit) && exit.clientId == ExitId(p) && exit.side.Sell? && exit.symbol == p.plan.entry.symbol
       && exit.quantity == Find(rows, EntryId(p)).value.result.value.filled
  }

  predicate PlanOk(rows: seq<Row>, p: PlanRow) {
    && ValidPlan(p.plan)
    && (Find(rows, EntryId(p)).Some? ==> Find(rows, EntryId(p)).value.request == p.plan.entry)
    && (Find(rows, ExitId(p)).Some? ==> p.exitRequest == Some(Find(rows, ExitId(p)).value.request))
    && (p.exitRequest.Some? ==> ExitFrozen(rows, p))
    && match p.state
       case Staged => p.exitRequest.None?
       case Expired => p.exitRequest.None? && Find(rows, EntryId(p)).None?
       case EntryWorking => p.exitRequest.None? && Find(rows, EntryId(p)).Some?
       case Monitoring => p.exitRequest.None? && Bought(rows, p)
       case Unfilled =>
         && p.exitRequest.None? && Find(rows, EntryId(p)).Some?
         && Terminal(Find(rows, EntryId(p)).value.state)
         && FilledOf(Find(rows, EntryId(p)).value) == 0.0
       case Closed =>
         p.exitRequest.Some? && Find(rows, ExitId(p)).Some? && Find(rows, ExitId(p)).value.state.Filled?
       case _ => p.exitRequest.Some?
  }

  /** How many of the plan's two orders are in the ledger. */
  function OwnCount(rows: seq<Row>, p: PlanRow): nat {
    (if Find(rows, EntryId(p)).Some? then 1 else 0) + (if Find(rows, ExitId(p)).Some? then 1 else 0)
  }

  /** Everything before the plan's own orders is flat and settled; its orders are the newest rows. */
  ghost predicate OwnsTheEnd(rows: seq<Row>, p: PlanRow) {
    var k := |rows| - OwnCount(rows, p);
    && 0 <= k
    && FlatAndSettled(rows[..k])
    && (Find(rows, EntryId(p)).Some? ==> k < |rows| && rows[k].request == p.plan.entry)
    && (Find(rows, ExitId(p)).Some? ==>
          Find(rows, EntryId(p)).Some? && k + 1 < |rows| && p.exitRequest == Some(rows[k + 1].request))
    && (Inactive(p.state) ==> FlatAndSettled(rows))
  }

  predicate OwnedBy(plans: seq<PlanRow>, id: ClientId) {
    exists i | 0 <= i < |plans| :: id == EntryId(plans[i]) || id == ExitId(plans[i])
  }

  predicate DistinctPlans(plans: seq<PlanRow>) {
    forall i, j | 0 <= i < j < |plans| ::
      plans[i].plan.planId != plans[j].plan.planId && EntryId(plans[i]) != EntryId(plans[j])
  }

  ghost predicate PlansOk(rows: seq<Row>, plans: seq<PlanRow>, audits: map<PlanId, Audit>) {
    && DistinctPlans(plans)
    && (forall i | 0 <= i < |plans| :: PlanOk(rows, plans[i]))
    && (forall i | 0 <= i < |plans| :: Audited(audits, plans[i].plan))
    && (forall i | 0 <= i < |plans| - 1 :: Inactive(plans[i].state))
    && (forall i | 0 <= i < |rows| :: OwnedBy(plans, rows[i].request.clientId))
    && (if plans == [] then rows == [] else OwnsTheEnd(rows, plans[|plans| - 1]))
  }

  /** An exposed account holds one audited entry within its notional limit. */
  ghost predicate CostOk(rows: seq<Row>, plans: seq<PlanRow>, limit: real) {
    !FlatAndSettled(rows) ==> plans != [] && Notional(plans[|plans| - 1].plan.entry) <= limit
  }

  ghost predicate Kept(n: Node) {
    && Sound(n)
    && PlansOk(n.rows, n.plans, n.audits)
    && CostOk(n.rows, n.plans, n.profile.maxOrderNotional)
  }

  // ---- How plans may change ---------------------------------------------------------------

  function Rank(s: PlanState): nat {
    match s
    case Staged => 0
    case EntryWorking => 1
    case Monitoring => 2
    case ExitPrepared => 3
    case ExitWorking => 4
    case _ => 5
  }

  /** The payload never changes, the phase never goes back, a final plan and a written exit stay. */
  predicate PlanGrows(a: PlanRow, b: PlanRow) {
    && b.plan == a.plan
    && Rank(a.state) <= Rank(b.state)
    && (Final(a.state) ==> b == a)
    && (a.exitRequest.Some? ==> b.exitRequest == a.exitRequest)
  }

  ghost predicate PlansGrow(a: seq<PlanRow>, b: seq<PlanRow>) {
    |a| <= |b| && forall i | 0 <= i < |a| :: PlanGrows(a[i], b[i])
  }

  ghost predicate ReceiptsGrow(a: map<PlanId, Audit>, b: map<PlanId, Audit>) {
    forall id | id in a :: id in b && b[id] == a[id]
  }

  // ---- Finding rows after a change --------------------------------------------------------

  predicate FindGrows(a: seq<Row>, b: seq<Row>, id: ClientId) {
    && (Find(a, id).None? ==> Find(b, id).None?)
    && (Find(a, id).Some? ==> Find(b, id).Some? && RowGrows(Find(a, id).value, Find(b, id).value))
  }

  lemma PlanOkKept(a: seq<Row>, b: seq<Row>, p: PlanRow)
    requires PlanOk(a, p) && FindGrows(a, b, EntryId(p)) && FindGrows(a, b, ExitId(p))
    ensures PlanOk(b, p)
  {
  }

  lemma RecordedFindGrows(rows: seq<Row>, id: ClientId, state: OrderState, result: Option<Order>, other: ClientId)
    requires DistinctIds(rows) && RowsGrow(rows, Recorded(rows, id, state, result))
    ensures FindGrows(rows, Recorded(rows, id, state, result), other)
  {
    var rows' := Recorded(rows, id, state, result);
    assert DistinctIds(rows');
    if Find(rows, other).Some? {
      FindAt(rows', IndexOf(rows, other));
      assert RowGrows(rows[IndexOf(rows, other)], rows'[IndexOf(rows, other)]);
    } else {
      assert forall k | 0 <= k < |rows'| :: rows'[k].request.clientId == rows[k].request.clientId;
    }
  }

  lemma OpenIsLast(plans: seq<PlanRow>, id: PlanId)
    requires forall i | 0 <= i < |plans| - 1 :: Inactive(plans[i].state)
    requires PlanIndex(plans, id) >= 0 && !Final(plans[PlanIndex(plans, id)].state)
    ensures plans != [] && PlanIndex(plans, id) == |plans| - 1
  {
  }

  lemma LastRowHeld(rows: seq<Row>, symbol: Symbol)
    requires rows != []
    ensures Held(rows, symbol) == Held(rows[..|rows| - 1], symbol) + Contribution(rows[|rows| - 1], symbol)
  {
  }

  lemma LastTwoHeld(rows: seq<Row>, symbol: Symbol)
    requires |rows| >= 2
    ensures Held(rows, symbol) ==
            Held(rows[..|rows| - 2], symbol) + Contribution(rows[|rows| - 2], symbol)
            + Contribution(rows[|rows| - 1], symbol)
  {
    var front := rows[..|rows| - 1];
    LastRowHeld(rows, symbol);
    LastRowHeld(front, symbol);
    assert front[..|front| - 1] == rows[..|rows| - 2];
  }

  /** With everything before it flat, the book is the plan's own one or two contributions. */
  lemma OwnBook(rows: seq<Row>, p: PlanRow, symbol: Symbol)
    requires OwnsTheEnd(rows, p)
    ensures var c := OwnCount(rows, p);
      Held(rows, symbol) ==
        (if c >= 1 then Contribution(rows[|rows| - c], symbol) else 0.0)
        + (if c == 2 then Contribution(rows[|rows| - 1], symbol) else 0.0)
  {
    var c := OwnCount(rows, p);
    assert Held(rows[..|rows| - c], symbol) == 0.0;
    if c == 0 {
      assert rows[..|rows|] == rows;
    } else if c == 1 {
      LastRowHeld(rows, symbol);
    } else {
      LastTwoHeld(rows, symbol);
    }
  }

  /** The plan's own rows are where `OwnsTheEnd` puts them. */
  lemma OwnPlaces(rows: seq<Row>, binding: Binding, p: PlanRow)
    requires RowsOk(rows, binding) && PlanOk(rows, p) && OwnsTheEnd(rows, p)
    ensures Find(rows, EntryId(p)).Some? ==>
              Find(rows, EntryId(p)) == Some(rows[|rows| - OwnCount(rows, p)])
    ensures Find(rows, ExitId(p)).Some? ==>
              OwnCount(rows, p) == 2 && Find(rows, ExitId(p)) == Some(rows[|rows| - 1])
  {
    var k := |rows| - OwnCount(rows, p);
    if Find(rows, EntryId(p)).Some? {
      FindAt(rows, k);
    }
    if Find(rows, ExitId(p)).Some? {
      FindAt(rows, k + 1);
    }
  }

  lemma OwnedKept(a: seq<PlanRow>, b: seq<PlanRow>, id: ClientId)
    requires OwnedBy(a, id) && |a| <= |b| && forall i | 0 <= i < |a| :: b[i].plan == a[i].plan
    ensures OwnedBy(b, id)
  {
    var i :| 0 <= i < |a| && (id == EntryId(a[i]) || id == ExitId(a[i]));
    assert id == EntryId(b[i]) || id == ExitId(b[i]);
  }

  // ---- The ledger changes, the plans do not -----------------------------------------------

  /** Recording on the unresolved row: it belongs to the last plan. */
  lemma RecordKeepsPlans(rows: seq<Row>, binding: Binding, plans: seq<PlanRow>, audits: map<PlanId, Audit>,
                         id: ClientId, state: OrderState, result: Option<Order>)
    requires RowsOk(rows, binding) && PlansOk(rows, plans, audits)
    requires Find(rows, id).Some? && !Terminal(Find(rows, id).value.state)
    requires RowsGrow(rows, Recorded(rows, id, state, result))
    ensures PlansOk(Recorded(rows, id, state, result), plans, audits) && plans != [] && !Settled(rows)
  {
    var rows' := Recorded(rows, id, state, result);
    UnresolvedIsLast(rows, binding, id);
    forall i | 0 <= i < |plans|
      ensures PlanOk(rows', plans[i])
    {
      RecordedFindGrows(rows, id, state, result, EntryId(plans[i]));
      RecordedFindGrows(rows, id, state, result, ExitId(plans[i]));
      PlanOkKept(rows, rows', plans[i]);
    }
    var p := plans[|plans| - 1];
    RecordKeepsEnd(rows, p, rows');
    forall i | 0 <= i < |rows'|
      ensures OwnedBy(plans, rows'[i].request.clientId)
    {
      assert RowGrows(rows[i], rows'[i]);
    }
  }

  lemma RecordKeepsEnd(rows: seq<Row>, p: PlanRow, rows': seq<Row>)
    requires OwnsTheEnd(rows, p) && rows != [] && !Terminal(rows[|rows| - 1].state)
    requires |rows'| == |rows| && rows'[..|rows| - 1] == rows[..|rows| - 1]
    requires rows'[|rows| - 1].request == rows[|rows| - 1].request
    requires DistinctIds(rows)
    ensures OwnsTheEnd(rows', p)
  {
    var k := |rows| - OwnCount(rows, p);
    assert Settled(rows[..k]);
    assert !Settled(rows);
    assert rows[..|rows|] == rows;
    assert rows'[..k] == rows[..k];
    assert forall i | 0 <= i < |rows| :: rows'[i].request == rows[i].request by {
      forall i | 0 <= i < |rows| - 1
        ensures rows'[i] == rows[i]
      {
        assert rows'[..|rows| - 1][i] == rows[..|rows| - 1][i];
      }
    }
    SameRequestsSameIndex(rows, rows', EntryId(p));
    SameRequestsSameIndex(rows, rows', ExitId(p));
  }

  lemma SameRequestsSameIndex(a: seq<Row>, b: seq<Row>, id: ClientId)
    requires |a| == |b| && forall i | 0 <= i < |a| :: b[i].request == a[i].request
    ensures IndexOf(a, id) == IndexOf(b, id)
  {
    if a != [] {
      SameRequestsSameIndex(a[..|a| - 1], b[..|b| - 1], id);
    }
  }

  lemma OtherPlansKept(rows: seq<Row>, row: Row, p: PlanRow, last: PlanRow)
    requires PlanOk(rows, p) && ValidPlan(last.plan)
    requires p.plan.planId != last.plan.planId && EntryId(p) != EntryId(last)
    requires row.request.clientId == EntryId(last) || row.request.clientId == ExitId(last)
    ensures PlanOk(rows + [row], p)
  {
    AppendKeepsFind(rows, row, EntryId(p));
    AppendKeepsFind(rows, row, ExitId(p));
  }

  /** The intent is what the plan asks for now: its entry before an exit is frozen, its exit after. */
  predicate Wants(p: PlanRow, intent: Intent) {
    !Final(p.state) && intent == if p.exitRequest.Some? then p.exitRequest.value else p.plan.entry
  }

  /** The new row is the plan's entry, on a flat ledger, or its exit, right after the entry. */
  lemma OwnRowAppended(rows: seq<Row>, binding: Binding, p: PlanRow, row: Row)
    requires RowsOk(rows, binding) && PlanOk(rows, p) && OwnsTheEnd(rows, p)
    requires Wants(p, row.request) && Find(rows, row.request.clientId).None?
    ensures PlanOk(rows + [row], p) && OwnsTheEnd(rows + [row], p)
    ensures row.request.clientId == EntryId(p) || row.request.clientId == ExitId(p)
    ensures p.exitRequest.None? ==> FlatAndSettled(rows)
  {
    var rows' := rows + [row];
    var k := |rows| - OwnCount(rows, p);
    if p.exitRequest.None? {
      AppendKeepsFind(rows, row, ExitId(p));
      assert k == |rows| && rows[..k] == rows;
      assert rows'[..k] == rows;
    } else {
      AppendKeepsFind(rows, row, EntryId(p));
      OwnPlaces(rows, binding, p);
      assert rows'[..k] == rows[..k];
    }
  }

  lemma PrepareKeepsPlans(rows: seq<Row>, binding: Binding, plans: seq<PlanRow>, audits: map<PlanId, Audit>, row: Row)
    requires RowsOk(rows, binding) && PlansOk(rows, plans, audits) && plans != []
    requires Wants(plans[|plans| - 1], row.request) && Find(rows, row.request.clientId).None?
    ensures PlansOk(rows + [row], plans, audits)
  {
    var last := plans[|plans| - 1];
    OwnRowAppended(rows, binding, last, row);
    forall i | 0 <= i < |plans|
      ensures PlanOk(rows + [row], plans[i])
    {
      if i < |plans| - 1 {
        OtherPlansKept(rows, row, plans[i], last);
      }
    }
    forall i | 0 <= i < |rows + [row]|
      ensures OwnedBy(plans, (rows + [row])[i].request.clientId)
    {
      if i == |rows| {
        assert row.request.clientId == EntryId(plans[|plans| - 1])
            || row.request.clientId == ExitId(plans[|plans| - 1]);
      }
    }
  }

  /** A sell needs a book, so it is never admitted on a flat ledger. */
  lemma SellNeedsBook(rows: seq<Row>, positions: seq<Position>, intent: Intent)
    requires Holdings(positions) == Book(rows) && ValidIntent(intent)
    requires intent.quantity <= Quantity(positions, intent.symbol)
    ensures !FlatAndSettled(rows)
  {
    SameBook(positions, rows);
    assert Agrees(positions, rows);
    assert Held(rows, intent.symbol) > 0.0;
  }

  lemma AskedByLast(n: Node, intent: Intent)
    requires PlansOk(n.rows, n.plans, n.audits) && Asked(n, intent)
    ensures n.plans != [] && AskedBy(n, n.plans[|n.plans| - 1], intent)
  {
    var i :| 0 <= i < |n.plans| && AskedBy(n, n.plans[i], intent);
  }

  // ---- The plans change, the ledger does not ----------------------------------------------

  /** A plan that ends unfilled or unsent leaves nothing behind. */
  lemma EndedIsFlat(rows: seq<Row>, binding: Binding, p: PlanRow)
    requires RowsOk(rows, binding) && PlanOk(rows, p) && OwnsTheEnd(rows, p) && p.exitRequest.None?
    requires Find(rows, EntryId(p)).Some? ==>
               Terminal(Find(rows, EntryId(p)).value.state) && FilledOf(Find(rows, EntryId(p)).value) == 0.0
    ensures FlatAndSettled(rows)
  {
    OwnPlaces(rows, binding, p);
    forall symbol: Symbol
      ensures Held(rows, symbol) == 0.0
    {
      OwnBook(rows, p, symbol);
    }
    assert Flat(rows);
    var k := |rows| - OwnCount(rows, p);
    assert Settled(rows[..k]);
    forall i | 0 <= i < |rows|
      ensures Terminal(rows[i].state) && rows[i].result.Some?
    {
      if i < k {
        assert rows[..k][i] == rows[i];
      } else {
        assert RowOk(rows[i], binding);
      }
    }
  }

  lemma SamePlansDistinct(a: seq<PlanRow>, b: seq<PlanRow>)
    requires DistinctPlans(a) && |a| == |b| && forall i | 0 <= i < |a| :: b[i].plan == a[i].plan
    ensures DistinctPlans(b)
  {
    assert forall i | 0 <= i < |a| :: EntryId(b[i]) == EntryId(a[i]);
  }

  lemma SamePlanOwnsTheEnd(rows: seq<Row>, last: PlanRow, p: PlanRow)
    requires OwnsTheEnd(rows, last) && PlanOk(rows, last) && PlanOk(rows, p)
    requires p.plan == last.plan && (Inactive(p.state) ==> FlatAndSettled(rows))
    ensures OwnsTheEnd(rows, p)
  {
    assert EntryId(p) == EntryId(last) && ExitId(p) == ExitId(last);
    assert OwnCount(rows, p) == OwnCount(rows, last);
  }

  lemma SamePlansOwn(rows: seq<Row>, a: seq<PlanRow>, b: seq<PlanRow>)
    requires forall i | 0 <= i < |rows| :: OwnedBy(a, rows[i].request.clientId)
    requires |a| <= |b| && forall i | 0 <= i < |a| :: b[i].plan == a[i].plan
    ensures forall i | 0 <= i < |rows| :: OwnedBy(b, rows[i].request.clientId)
  {
    forall i | 0 <= i < |rows|
      ensures OwnedBy(b, rows[i].request.clientId)
    {
      OwnedKept(a, b, rows[i].request.clientId);
    }
  }

  lemma LastPlanUpdated(rows: seq<Row>, plans: seq<PlanRow>, p: PlanRow)
    requires plans != [] && forall i | 0 <= i < |plans| :: PlanOk(rows, plans[i])
    requires PlanOk(rows, p) && PlanGrows(plans[|plans| - 1], p)
    ensures var plans' := plans[|plans| - 1 := p]; forall i | 0 <= i < |plans'| :: PlanOk(rows, plans'[i])
    ensures PlansGrow(plans, plans[|plans| - 1 := p])
  {
  }

  lemma LastPlanMoves(rows: seq<Row>, plans: seq<PlanRow>, audits: map<PlanId, Audit>, p: PlanRow)
    requires PlansOk(rows, plans, audits) && plans != []
    requires PlanOk(rows, p) && PlanGrows(plans[|plans| - 1], p)
    requires Inactive(p.state) ==> FlatAndSettled(rows)
    ensures PlansOk(rows, plans[|plans| - 1 := p], audits)
    ensures PlansGrow(plans, plans[|plans| - 1 := p])
  {
    var plans' := plans[|plans| - 1 := p];
    assert forall i | 0 <= i < |plans| :: plans'[i].plan == plans[i].plan;
    SamePlansDistinct(plans, plans');
    SamePlansOwn(rows, plans, plans');
    SamePlanOwnsTheEnd(rows, plans[|plans| - 1], p);
    LastPlanUpdated(rows, plans, p);
  }

  /** Every row is owned, so a plan id that is not stored has no exit in the ledger. */
  lemma NoExitYet(rows: seq<Row>, plans: seq<PlanRow>, id: PlanId)
    requires forall i | 0 <= i < |rows| :: OwnedBy(plans, rows[i].request.clientId)
    requires forall i | 0 <= i < |plans| :: PlanOk(rows, plans[i])
    requires PlanIndex(plans, id) < 0
    ensures Find(rows, ExitOf(id)).None?
  {
    var j := IndexOf(rows, ExitOf(id));
    assert j >= 0 ==> OwnedBy(plans, rows[j].request.clientId);
  }

  lemma NewPlanOk(rows: seq<Row>, plans: seq<PlanRow>, audits: map<PlanId, Audit>, plan: Plan)
    requires PlansOk(rows, plans, audits) && ValidPlan(plan)
    requires PlanIndex(plans, plan.planId) < 0 && Find(rows, plan.entry.clientId).None?
    requires forall i | 0 <= i < |plans| :: Inactive(plans[i].state)
    ensures PlanOk(rows, PlanRow(plan, Staged, None)) && OwnsTheEnd(rows, PlanRow(plan, Staged, None))
  {
    NoExitYet(rows, plans, plan.planId);
    assert rows[..|rows|] == rows;
    if plans == [] {
      assert Flat(rows);
    } else {
      assert Inactive(plans[|plans| - 1].state);
    }
  }

  lemma NewPlanDistinct(plans: seq<PlanRow>, p: PlanRow)
    requires DistinctPlans(plans)
    requires forall i | 0 <= i < |plans| ::
               plans[i].plan.planId != p.plan.planId && EntryId(plans[i]) != EntryId(p)
    ensures DistinctPlans(plans + [p])
  {
  }

  lemma PlanAppended(rows: seq<Row>, plans: seq<PlanRow>, audits: map<PlanId, Audit>, plan: Plan)
    requires PlansOk(rows, plans, audits) && ValidPlan(plan) && Audited(audits, plan)
    requires PlanIndex(plans, plan.planId) < 0 && Find(rows, plan.entry.clientId).None?
    requires forall i | 0 <= i < |plans| ::
               Inactive(plans[i].state) && plans[i].plan.entry.clientId != plan.entry.clientId
    ensures PlansOk(rows, plans + [PlanRow(plan, Staged, None)], audits)
    ensures PlansGrow(plans, plans + [PlanRow(plan, Staged, None)])
  {
    var p := PlanRow(plan, Staged, None);
    var plans' := plans + [p];
    NewPlanOk(rows, plans, audits, plan);
    NewPlanDistinct(plans, p);
    forall i | 0 <= i < |plans'|
      ensures PlanOk(rows, plans'[i]) && Audited(audits, plans'[i].plan)
    {
      assert i < |plans| ==> plans'[i] == plans[i];
    }
    SamePlansOwn(rows, plans, plans');
    assert plans'[|plans'| - 1] == p;
  }

  /** The state a save writes. */
  function SavedState(s: Step): Option<PlanState> {
    match s
    case PlanExpires(_, _) => Some(Expired)
    case PlanWaits(_) => Some(EntryWorking)
    case PlanUnfilled(_) => Some(Unfilled)
    case PlanMonitors(_, _, _) => Some(Monitoring)
    case PlanExits(_, _, _) => Some(ExitPrepared)
    case ExitWaits(_) => Some(ExitWorking)
    case ExitReview(_, _) => Some(ManualReview)
    case ExitCloses(_) => Some(Closed)
    case _ => None
  }

  lemma SaveShape(n: Node, s: Step) returns (p: PlanRow)
    requires SavedState(s).Some? && Enabled(n, s)
    ensures Open(n, s.planId)
    ensures Apply(n, s) == n.(plans := n.plans[PlanIndex(n.plans, s.planId) := p])
    ensures p == PlanRow(PlanAt(n, s.planId).plan, SavedState(s).value,
                         if s.PlanExits? then Some(FrozenExit(n, s.planId, s.quote, s.clock))
                         else PlanAt(n, s.planId).exitRequest)
  {
    p := Apply(n, s).plans[PlanIndex(n.plans, s.planId)];
  }

  /** The states a plan may be written to before its exit is frozen, and by what its entry shows. */
  predicate EntryPhase(rows: seq<Row>, last: PlanRow, p: PlanRow) {
    var entry := Find(rows, EntryId(last));
    && last.exitRequest.None? && p.plan == last.plan
    && match p.state
       case Expired => p.exitRequest.None? && entry.None?
       case EntryWorking => p.exitRequest.None? && Unresolved(entry)
       case Unfilled =>
         p.exitRequest.None? && entry.Some? && Terminal(entry.value.state) && FilledOf(entry.value) == 0.0
       case Monitoring => p.exitRequest.None? && Bought(rows, last)
       case ExitPrepared => ExitFrozen(rows, p)
       case _ => false
  }

  lemma EntryPhaseOk(rows: seq<Row>, binding: Binding, last: PlanRow, p: PlanRow)
    requires RowsOk(rows, binding) && PlanOk(rows, last) && OwnsTheEnd(rows, last)
    requires !Final(last.state) && EntryPhase(rows, last, p)
    ensures PlanOk(rows, p) && PlanGrows(last, p)
    ensures Inactive(p.state) ==> FlatAndSettled(rows)
  {
    if p.state.Expired? || p.state.Unfilled? {
      EndedIsFlat(rows, binding, last);
    }
  }

  /** The states a plan may be written to after its exit is frozen. */
  predicate ExitPhase(rows: seq<Row>, last: PlanRow, p: PlanRow) {
    && last.exitRequest.Some? && p == last.(state := p.state)
    && match p.state
       case ExitWorking => true
       case ManualReview => true
       case Closed =>
         Find(rows, ExitId(last)).Some? && Find(rows, ExitId(last)).value.state.Filled? && FlatAndSettled(rows)
       case _ => false
  }

  lemma ExitPhaseOk(rows: seq<Row>, last: PlanRow, p: PlanRow)
    requires PlanOk(rows, last) && !Final(last.state) && ExitPhase(rows, last, p)
    ensures PlanOk(rows, p) && PlanGrows(last, p)
    ensures Inactive(p.state) ==> FlatAndSettled(rows)
  {
  }

  /** The plan a save is about, and where its entry's recorded fill stands. */
  lemma LastIsOpen(n: Node, id: PlanId)
    requires Kept(n) && Open(n, id)
    ensures n.plans != [] && PlanIndex(n.plans, id) == |n.plans| - 1
    ensures PlanOk(n.rows, n.plans[|n.plans| - 1])
    ensures var entry := Find(n.rows, EntryId(n.plans[|n.plans| - 1]));
      entry.Some? && entry.value.result.Some? ==> entry.value.result.value.filled >= 0.0
  {
    OpenIsLast(n.plans, id);
    var last := n.plans[|n.plans| - 1];
    assert PlanOk(n.rows, last);
    if Find(n.rows, EntryId(last)).Some? {
      assert RowOk(n.rows[IndexOf(n.rows, EntryId(last))], n.profile.binding);
    }
  }

  lemma EntrySaveInPhase(n: Node, s: Step)
    requires Kept(n) && Enabled(n, s)
    requires s.PlanExpires? || s.PlanWaits? || s.PlanUnfilled? || s.PlanMonitors?
    ensures n.plans != []
    ensures EntryPhase(n.rows, n.plans[|n.plans| - 1], n.plans[|n.plans| - 1].(state := SavedState(s).value))
  {
    LastIsOpen(n, s.planId);
  }

  lemma ExitSaveInPhase(n: Node, s: Step)
    requires Kept(n) && Enabled(n, s) && (s.ExitWaits? || s.ExitReview? || s.ExitCloses?)
    ensures n.plans != []
    ensures ExitPhase(n.rows, n.plans[|n.plans| - 1], n.plans[|n.plans| - 1].(state := SavedState(s).value))
  {
    LastIsOpen(n, s.planId);
  }

  lemma FreezeInPhase(n: Node, s: Step)
    requires Kept(n) && s.PlanExits? && Enabled(n, s)
    ensures n.plans != []
    ensures EntryPhase(n.rows, n.plans[|n.plans| - 1],
                       PlanRow(n.plans[|n.plans| - 1].plan, ExitPrepared,
                               Some(FrozenExit(n, s.planId, s.quote, s.clock))))
  {
    LastIsOpen(n, s.planId);
  }

  lemma SaveIsInPhase(n: Node, s: Step) returns (p: PlanRow)
    requires Kept(n) && SavedState(s).Some? && Enabled(n, s)
    ensures n.plans != [] && Apply(n, s) == n.(plans := n.plans[|n.plans| - 1 := p])
    ensures !Final(n.plans[|n.plans| - 1].state)
    ensures EntryPhase(n.rows, n.plans[|n.plans| - 1], p) || ExitPhase(n.rows, n.plans[|n.plans| - 1], p)
  {
    p := SaveShape(n, s);
    LastIsOpen(n, s.planId);
    if s.PlanExits? {
      FreezeInPhase(n, s);
    } else if s.ExitWaits? || s.ExitReview? || s.ExitCloses? {
      ExitSaveInPhase(n, s);
      assert p == n.plans[|n.plans| - 1].(state := SavedState(s).value);
    } else {
      EntrySaveInPhase(n, s);
      assert p == n.plans[|n.plans| - 1].(state := SavedState(s).value);
    }
  }

  /** A save moves the last plan, in a way its invariant allows, and never back. */
  lemma SaveMovesLast(n: Node, s: Step) returns (p: PlanRow)
    requires Kept(n) && SavedState(s).Some? && Enabled(n, s)
    ensures n.plans != [] && Apply(n, s) == n.(plans := n.plans[|n.plans| - 1 := p])
    ensures PlanOk(n.rows, p) && PlanGrows(n.plans[|n.plans| - 1], p)
    ensures Inactive(p.state) ==> FlatAndSettled(n.rows)
  {
    p := SaveIsInPhase(n, s);
    if n.plans[|n.plans| - 1].exitRequest.None? {
      EntryPhaseOk(n.rows, n.profile.binding, n.plans[|n.plans| - 1], p);
    } else {
      ExitPhaseOk(n.rows, n.plans[|n.plans| - 1], p);
    }
  }

  lemma RevokeMovesLast(rows: seq<Row>, binding: Binding, plans: seq<PlanRow>, audits: map<PlanId, Audit>)
    requires RowsOk(rows, binding) && PlansOk(rows, plans, audits)
    ensures PlansOk(rows, RevokedPlans(rows, plans), audits)
    ensures PlansGrow(plans, RevokedPlans(rows, plans))
  {
    if plans != [] {
      var last := plans[|plans| - 1];
      var p := RevokedPlan(rows, last);
      if p != last {
        EndedIsFlat(rows, binding, last);
      }
      LastPlanMoves(rows, plans, audits, p);
      assert RevokedPlans(rows, plans) == plans[|plans| - 1 := p];
    } else {
      assert RevokedPlans(rows, plans) == plans;
    }
  }

  // ---- Every planned step -----------------------------------------------------------------

  lemma PlansGrowReflexive(plans: seq<PlanRow>)
    ensures PlansGrow(plans, plans)
  {
  }

  /** What one planned step keeps of the plans, and how it may change them. */
  ghost predicate Carries(n: Node, n': Node) {
    && PlansOk(n'.rows, n'.plans, n'.audits)
    && CostOk(n'.rows, n'.plans, n'.profile.maxOrderNotional)
    && PlansGrow(n.plans, n'.plans)
    && ReceiptsGrow(n.audits, n'.audits)
  }

  /** A step that writes neither plans nor receipts. */
  lemma LedgerMoves(n: Node, n': Node)
    requires n'.plans == n.plans && n'.audits == n.audits && n'.profile == n.profile
    requires PlansOk(n'.rows, n.plans, n.audits) && CostOk(n'.rows, n.plans, n.profile.maxOrderNotional)
    ensures Carries(n, n')
  {
    PlansGrowReflexive(n.plans);
  }

  /** A step that writes plans only. */
  lemma PlansMove(n: Node, n': Node)
    requires Kept(n) && n'.rows == n.rows && n'.audits == n.audits && n'.profile == n.profile
    requires PlansOk(n.rows, n'.plans, n.audits) && PlansGrow(n.plans, n'.plans)
    requires FlatAndSettled(n.rows) || |n'.plans| == |n.plans|
    ensures Carries(n, n')
  {
    if !FlatAndSettled(n.rows) {
      var i := |n.plans| - 1;
      assert PlanGrows(n.plans[i], n'.plans[i]);
    }
  }

  lemma RecordStepKept(n: Node, s: Step)
    requires Kept(n) && Records(n, s) && Enabled(n, s)
    ensures Carries(n, Apply(n, s))
  {
    var n' := Apply(n, s);
    RecordShape(n, s);
    RecordStep(n, s);
    RecordKeepsPlans(n.rows, n.profile.binding, n.plans, n.audits,
                     RecordedId(n, s), RecordedState(n, s), RecordedResult(n, s));
    LedgerMoves(n, n');
  }

  /** What the gates of `submit` leave for the plan that asked. */
  lemma PrepareShape(n: Node, s: Step)
    requires Kept(n) && s.Prepare? && Enabled(n, s) && Asked(n, s.intent)
    ensures n.plans != [] && Wants(n.plans[|n.plans| - 1], s.intent) && Find(n.rows, s.intent.clientId).None?
    ensures var n' := Apply(n, s);
      && n'.rows == n.rows + [Row(s.intent, n.profile.binding, Prepared, None)]
      && n'.plans == n.plans && n'.audits == n.audits && n'.profile == n.profile
    ensures ValidIntent(s.intent) && Holdings(s.snapshot.positions) == Book(n.rows)
    ensures s.intent.side.Buy? ==> Notional(s.intent) <= n.profile.maxOrderNotional
    ensures s.intent.side.Sell? ==> s.intent.quantity <= Quantity(s.snapshot.positions, s.intent.symbol)
  {
    AskedByLast(n, s.intent);
    Admitted(n.profile, n.rows, n.authority, s.intent, s.quote, s.snapshot, s.clock);
  }

  /** A buy is the newest plan's entry within the limit; a sell finds the account exposed already. */
  lemma PrepareCost(rows: seq<Row>, plans: seq<PlanRow>, limit: real, intent: Intent, positions: seq<Position>)
    requires plans != [] && PlanOk(rows, plans[|plans| - 1]) && Wants(plans[|plans| - 1], intent)
    requires CostOk(rows, plans, limit) && ValidIntent(intent) && Holdings(positions) == Book(rows)
    requires intent.side.Buy? ==> Notional(intent) <= limit
    requires intent.side.Sell? ==> intent.quantity <= Quantity(positions, intent.symbol)
    ensures Notional(plans[|plans| - 1].plan.entry) <= limit
  {
    if plans[|plans| - 1].exitRequest.Some? {
      SellNeedsBook(rows, positions, intent);
    }
  }

  lemma PrepareCarries(n: Node, n': Node, intent: Intent, positions: seq<Position>)
    requires Kept(n) && n.plans != [] && Wants(n.plans[|n.plans| - 1], intent)
    requires Find(n.rows, intent.clientId).None? && ValidIntent(intent) && Holdings(positions) == Book(n.rows)
    requires n'.rows == n.rows + [Row(intent, n.profile.binding, Prepared, None)]
    requires n'.plans == n.plans && n'.audits == n.audits && n'.profile == n.profile
    requires intent.side.Buy? ==> Notional(intent) <= n.profile.maxOrderNotional
    requires intent.side.Sell? ==> intent.quantity <= Quantity(positions, intent.symbol)
    ensures Carries(n, n')
  {
    PrepareKeepsPlans(n.rows, n.profile.binding, n.plans, n.audits,
                      Row(intent, n.profile.binding, Prepared, None));
    PrepareCost(n.rows, n.plans, n.profile.maxOrderNotional, intent, positions);
    LedgerMoves(n, n');
  }

  lemma PrepareStepKept(n: Node, s: Step)
    requires Kept(n) && s.Prepare? && Enabled(n, s) && Asked(n, s.intent)
    ensures Carries(n, Apply(n, s))
  {
    PrepareShape(n, s);
    PrepareCarries(n, Apply(n, s), s.intent, s.snapshot.positions);
  }

  lemma SaveStepKept(n: Node, s: Step)
    requires Kept(n) && SavedState(s).Some? && Enabled(n, s)
    ensures Carries(n, Apply(n, s))
  {
    var p := SaveMovesLast(n, s);
    LastPlanMoves(n.rows, n.plans, n.audits, p);
    PlansMove(n, Apply(n, s));
  }

  lemma NewPlanNeedsFlat(n: Node)
    requires PlansOk(n.rows, n.plans, n.audits)
    requires forall i | 0 <= i < |n.plans| :: Inactive(n.plans[i].state)
    ensures FlatAndSettled(n.rows)
  {
    if n.plans == [] {
      assert Flat(n.rows);
    } else {
      assert Inactive(n.plans[|n.plans| - 1].state);
    }
  }

  lemma StageShape(n: Node, s: Step)
    requires s.Stage? && Enabled(n, s)
    ensures Apply(n, s) == n.(plans := n.plans + [PlanRow(s.plan, Staged, None)])
    ensures ValidPlan(s.plan) && Audited(n.audits, s.plan)
    ensures PlanIndex(n.plans, s.plan.planId) < 0 && Find(n.rows, s.plan.entry.clientId).None?
    ensures forall i | 0 <= i < |n.plans| ::
              Inactive(n.plans[i].state) && n.plans[i].plan.entry.clientId != s.plan.entry.clientId
  {
  }

  lemma StageStepKept(n: Node, s: Step)
    requires Kept(n) && s.Stage? && Enabled(n, s)
    ensures Carries(n, Apply(n, s))
  {
    StageShape(n, s);
    PlanAppended(n.rows, n.plans, n.audits, s.plan);
    NewPlanNeedsFlat(n);
    PlansMove(n, Apply(n, s));
  }

  lemma RevokeStepKept(n: Node, s: Step)
    requires Kept(n) && s.RevokePlans? && Enabled(n, s)
    ensures Carries(n, Apply(n, s))
  {
    RevokeMovesLast(n.rows, n.profile.binding, n.plans, n.audits);
    PlansMove(n, Apply(n, s));
  }

  lemma PutAuditKept(n: Node, s: Step)
    requires Kept(n) && s.PutAudit? && Enabled(n, s)
    ensures Carries(n, Apply(n, s))
  {
    PlansGrowReflexive(n.plans);
    assert ReceiptsGrow(n.audits, Apply(n, s).audits);
  }

  /** The remaining steps leave ledger, plans and receipts alone; a new limit needs a flat ledger. */
  lemma QuietStep(n: Node, s: Step)
    requires Enabled(n, s) && !Records(n, s) && SavedState(s).None?
    requires !s.Prepare? && !s.Stage? && !s.RevokePlans? && !s.PutAudit?
    ensures Apply(n, s).rows == n.rows && Apply(n, s).plans == n.plans && Apply(n, s).audits == n.audits
    ensures Apply(n, s).profile == n.profile || FlatAndSettled(n.rows)
  {
  }

  lemma QuietKept(n: Node, n': Node)
    requires Kept(n) && n'.rows == n.rows && n'.plans == n.plans && n'.audits == n.audits
    requires n'.profile == n.profile || FlatAndSettled(n.rows)
    ensures Carries(n, n')
  {
    PlansGrowReflexive(n.plans);
  }

  lemma {:induction false} StepKeepsPlans(n: Node, s: Step)
    requires Kept(n) && Enabled(n, s) && (s.Prepare? ==> Asked(n, s.intent))
    ensures Carries(n, Apply(n, s))
  {
    if Records(n, s) {
      RecordStepKept(n, s);
    } else if s.Prepare? {
      PrepareStepKept(n, s);
    } else if SavedState(s).Some? {
      SaveStepKept(n, s);
    } else if s.Stage? {
      StageStepKept(n, s);
    } else if s.RevokePlans? {
      RevokeStepKept(n, s);
    } else if s.PutAudit? {
      PutAuditKept(n, s);
    } else {
      QuietStep(n, s);
      QuietKept(n, Apply(n, s));
    }
  }

  lemma StepKept(n: Node, s: Step)
    requires Kept(n) && Enabled(n, s) && (s.Prepare? ==> Asked(n, s.intent))
    ensures Kept(Apply(n, s)) && PlansGrow(n.plans, Apply(n, s).plans)
    ensures ReceiptsGrow(n.audits, Apply(n, s).audits)
  {
    StepSound(n, s);
    StepKeepsPlans(n, s);
  }

  lemma {:induction false} RunKept(n: Node, run: seq<Step>)
    requires Kept(n) && Legal(n, run) && Planned(n, run)
    ensures Kept(After(n, run))
  {
    if run != [] {
      var front := run[..|run| - 1];
      PlannedPrefix(n, run, |run| - 1);
      RunKept(n, front);
      StepKept(After(n, front), run[|run| - 1]);
    }
  }

  lemma FreshKept(profile: Profile)
    ensures Kept(Fresh(profile))
  {
  }

  /** What the last step of a planned run does. */
  lemma LastStepGrows(n: Node, run: seq<Step>)
    requires Kept(n) && Legal(n, run) && Planned(n, run) && run != []
    ensures Legal(n, run[..|run| - 1]) && Planned(n, run[..|run| - 1])
    ensures PlansGrow(After(n, run[..|run| - 1]).plans, After(n, run).plans)
    ensures ReceiptsGrow(After(n, run[..|run| - 1]).audits, After(n, run).audits)
  {
    PlannedPrefix(n, run, |run| - 1);
    RunKept(n, run[..|run| - 1]);
    StepKept(After(n, run[..|run| - 1]), run[|run| - 1]);
  }

  lemma ReceiptsGrowTransitive(a: map<PlanId, Audit>, b: map<PlanId, Audit>, c: map<PlanId, Audit>)
    requires ReceiptsGrow(a, b) && ReceiptsGrow(b, c)
    ensures ReceiptsGrow(a, c)
  {
  }

  /** Between any two moments of a planned run. */
  lemma {:induction false} RunGrows(n: Node, run: seq<Step>, k: nat)
    requires Kept(n) && Legal(n, run) && Planned(n, run) && k <= |run|
    ensures Legal(n, run[..k]) && Planned(n, run[..k])
    ensures PlansGrow(After(n, run[..k]).plans, After(n, run).plans)
    ensures ReceiptsGrow(After(n, run[..k]).audits, After(n, run).audits)
  {
    PlannedPrefix(n, run, k);
    if k == |run| {
      assert run[..k] == run;
      PlansGrowReflexive(After(n, run).plans);
    } else {
      var front := run[..|run| - 1];
      LastStepGrows(n, run);
      RunGrows(n, front, k);
      assert front[..k] == run[..k];
      PlansGrowTransitive(After(n, run[..k]).plans, After(n, front).plans, After(n, run).plans);
      ReceiptsGrowTransitive(After(n, run[..k]).audits, After(n, front).audits, After(n, run).audits);
    }
  }

  lemma PlansGrowTransitive(a: seq<PlanRow>, b: seq<PlanRow>, c: seq<PlanRow>)
    requires PlansGrow(a, b) && PlansGrow(b, c)
    ensures PlansGrow(a, c)
  {
    forall i | 0 <= i < |a|
      ensures PlanGrows(a[i], c[i])
    {
      assert PlanGrows(a[i], b[i]) && PlanGrows(b[i], c[i]);
    }
  }
}
