/** The ledger beside an honest broker: nobody else trades the account, positions move exactly by
fills, a terminal report is final, and an open order is listed in the snapshot.

Replies may still be lost, late, stale or evasive; an order may be accepted long after its POST.
*/
module HonestBroker {
  import opened Contracts
  import opened Ledgers
  import opened Accounts
  import opened LedgerSafety

  /** An order the broker has accepted: live while `Working`. */
  datatype Accepted = Accepted(request: Intent, orderId: nat, filled: real, state: OrderState)

  datatype Broker = Broker(orders: map<ClientId, Accepted>, positions: map<Symbol, real>)

  datatype World = World(node: Node, broker: Broker)

  datatype Event =
    | Local(step: Step)
    | Accept(post: nat, orderId: nat)
    | Fill(id: ClientId, quantity: real)
    | Finish(id: ClientId, state: OrderState)

  function At(positions: map<Symbol, real>, s: Symbol): real {
    if s in positions then positions[s] else 0.0
  }

  // ---- Honesty ----------------------------------------------------------------------------

  /** A report never overstates a fill, and says an order has ended only when it has. */
  predicate Truthful(b: Broker, o: Order) {
    && o.clientId in b.orders
    && o.orderId == b.orders[o.clientId].orderId
    && o.filled <= b.orders[o.clientId].filled
    && (Terminal(o.state) ==>
          o.state == b.orders[o.clientId].state && o.filled == b.orders[o.clientId].filled)
  }

  ghost predicate TruthfulSnapshot(b: Broker, s: Snapshot) {
    && (forall x: Symbol :: Quantity(s.positions, x) == At(b.positions, x))
    && (forall id | id in b.orders && b.orders[id].state.Working? ::
          exists i | 0 <= i < |s.orders| :: s.orders[i].clientId == id)
    && (forall i | 0 <= i < |s.orders| ::
          s.orders[i].clientId in b.orders && b.orders[s.orders[i].clientId].state.Working?)
  }

  ghost predicate HonestStep(w: World, s: Step) {
    match s
    case Reply(order) => Truthful(w.broker, order)
    case Reconcile(_, order) => Truthful(w.broker, order)
    case Acknowledge(orderId) =>
      && w.node.phase.Posted?
      && w.node.phase.intent.clientId in w.broker.orders
      && w.broker.orders[w.node.phase.intent.clientId].orderId == orderId
    case Prepare(_, _, snapshot, _) => TruthfulSnapshot(w.broker, snapshot)
    case Authorize(snapshot, _) => TruthfulSnapshot(w.broker, snapshot)
    case CloseAuthority(snapshot, _) => TruthfulSnapshot(w.broker, snapshot)
    case _ => true
  }

  /** The broker after more of an order is filled. */
  function FilledMore(b: Broker, id: ClientId, q: real): Broker
    requires id in b.orders
  {
    var o := b.orders[id];
    Broker(b.orders[id := o.(filled := o.filled + q)],
           b.positions[o.request.symbol := At(b.positions, o.request.symbol) + Signed(o.request.side, q)])
  }

  ghost predicate Possible(w: World, e: Event) {
    match e
    case Local(s) => Enabled(w.node, s) && HonestStep(w, s)
    case Accept(k, _) => k < |w.node.posts| && w.node.posts[k].intent.clientId !in w.broker.orders
    case Fill(id, q) =>
      && id in w.broker.orders && w.broker.orders[id].state.Working?
      && 0.0 < q <= w.broker.orders[id].request.quantity - w.broker.orders[id].filled
    case Finish(id, state) =>
      && id in w.broker.orders && w.broker.orders[id].state.Working? && Terminal(state)
      && (state.Filled? ==> w.broker.orders[id].filled == w.broker.orders[id].request.quantity)
  }

  ghost function Next(w: World, e: Event): World
    requires Possible(w, e)
  {
    match e
    case Local(s) => w.(node := Apply(w.node, s))
    case Accept(k, orderId) =>
      var i := w.node.posts[k].intent;
      w.(broker := w.broker.(orders := w.broker.orders[i.clientId := Accepted(i, orderId, 0.0, Working)]))
    case Fill(id, q) => w.(broker := FilledMore(w.broker, id, q))
    case Finish(id, state) =>
      w.(broker := w.broker.(orders := w.broker.orders[id := w.broker.orders[id].(state := state)]))
  }

  ghost predicate History(w: World, es: seq<Event>)
    decreases |es|, 0
  {
    es == [] || (History(w, es[..|es| - 1]) && Possible(Ends(w, es[..|es| - 1]), es[|es| - 1]))
  }

  ghost function Ends(w: World, es: seq<Event>): World
    requires History(w, es)
    decreases |es|, 1
  {
    if es == [] then w else Next(Ends(w, es[..|es| - 1]), es[|es| - 1])
  }

  function Start(profile: Profile): World {
    World(Fresh(profile), Broker(map[], map[]))
  }

  // ---- The refinement ---------------------------------------------------------------------

  /** What the row's order has really moved. */
  function TrueContribution(row: Row, orders: map<ClientId, Accepted>, s: Symbol): real {
    if row.request.clientId in orders && row.request.symbol == s
    then Signed(row.request.side, orders[row.request.clientId].filled)
    else 0.0
  }

  function TrueHeld(rows: seq<Row>, orders: map<ClientId, Accepted>, s: Symbol): real {
    if rows == [] then 0.0
    else TrueHeld(rows[..|rows| - 1], orders, s) + TrueContribution(rows[|rows| - 1], orders, s)
  }

  /** The recorded result is at most the truth, and the truth once the row has ended. */
  predicate RowRefines(row: Row, orders: map<ClientId, Accepted>) {
    row.result.Some? ==>
      && row.request.clientId in orders
      && row.result.value.orderId == orders[row.request.clientId].orderId
      && row.result.value.filled <= orders[row.request.clientId].filled
      && (Terminal(row.state) ==>
            row.state == orders[row.request.clientId].state
            && row.result.value.filled == orders[row.request.clientId].filled)
  }

  predicate OrderOk(o: Accepted) {
    0.0 <= o.filled <= o.request.quantity && (o.state.Working? || Terminal(o.state))
  }

  ghost predicate OrdersOk(rows: seq<Row>, orders: map<ClientId, Accepted>) {
    forall id | id in orders ::
      && OrderOk(orders[id])
      && Find(rows, id).Some? && Find(rows, id).value.request == orders[id].request
  }

  ghost predicate PositionsOk(rows: seq<Row>, b: Broker) {
    forall s: Symbol :: At(b.positions, s) == TrueHeld(rows, b.orders, s)
  }

  ghost predicate RowsRefine(rows: seq<Row>, orders: map<ClientId, Accepted>) {
    forall i | 0 <= i < |rows| :: RowRefines(rows[i], orders)
  }

  ghost predicate Refines(w: World) {
    && Sound(w.node)
    && OrdersOk(w.node.rows, w.broker.orders)
    && RowsRefine(w.node.rows, w.broker.orders)
    && PositionsOk(w.node.rows, w.broker)
  }

  // ---- Local steps ------------------------------------------------------------------------

  lemma TrueHeldSameRequests(a: seq<Row>, b: seq<Row>, orders: map<ClientId, Accepted>, s: Symbol)
    requires |a| == |b| && forall i | 0 <= i < |a| :: a[i].request == b[i].request
    ensures TrueHeld(a, orders, s) == TrueHeld(b, orders, s)
  {
    if a != [] {
      TrueHeldSameRequests(a[..|a| - 1], b[..|b| - 1], orders, s);
    }
  }

  /** A record leaves the truth alone, and keeps the row under it. */
  lemma RecordRefines(rows: seq<Row>, binding: Binding, b: Broker, id: ClientId, state: OrderState,
                      result: Option<Order>)
    requires RowsOk(rows, binding) && OrdersOk(rows, b.orders) && RowsRefine(rows, b.orders) && PositionsOk(rows, b)
    requires Find(rows, id).Some? && !Terminal(Find(rows, id).value.state)
    requires RowsGrow(rows, Recorded(rows, id, state, result))
    requires result.Some? ==> Truthful(b, result.value) && result.value.state == state && result.value.clientId == id
    requires result.None? ==> state.Unknown?
    ensures OrdersOk(Recorded(rows, id, state, result), b.orders)
    ensures RowsRefine(Recorded(rows, id, state, result), b.orders)
    ensures PositionsOk(Recorded(rows, id, state, result), b)
  {
    var rows' := Recorded(rows, id, state, result);
    UnresolvedIsLast(rows, binding, id);
    forall s: Symbol
      ensures At(b.positions, s) == TrueHeld(rows', b.orders, s)
    {
      TrueHeldSameRequests(rows, rows', b.orders, s);
    }
    forall other | other in b.orders
      ensures Find(rows', other).Some? && Find(rows', other).value.request == b.orders[other].request
    {
      RecordKeepsFind(rows, id, state, result, other);
    }
  }

  /** A new row's order is not accepted yet. */
  lemma PrepareRefines(rows: seq<Row>, b: Broker, row: Row)
    requires OrdersOk(rows, b.orders) && RowsRefine(rows, b.orders) && PositionsOk(rows, b)
    requires Find(rows, row.request.clientId).None? && row.result.None?
    ensures OrdersOk(rows + [row], b.orders) && RowsRefine(rows + [row], b.orders) && PositionsOk(rows + [row], b)
  {
    assert (rows + [row])[..|rows|] == rows;
    assert row.request.clientId !in b.orders;
    forall s: Symbol
      ensures At(b.positions, s) == TrueHeld(rows + [row], b.orders, s)
    {
      assert At(b.positions, s) == TrueHeld(rows, b.orders, s);
    }
    forall other | other in b.orders
      ensures Find(rows + [row], other) == Find(rows, other)
    {
      AppendKeepsFind(rows, row, other);
    }
  }

  lemma RecordIsTruthful(w: World, s: Step)
    requires Refines(w) && Records(w.node, s) && Enabled(w.node, s) && HonestStep(w, s)
    ensures var r := RecordedResult(w.node, s);
      r.Some? ==> Truthful(w.broker, r.value) && r.value.clientId == RecordedId(w.node, s)
  {
    if w.node.phase.Posted? {
      PostedRow(w.node);
    }
  }

  lemma LocalRecordRefines(w: World, s: Step)
    requires Refines(w) && Records(w.node, s) && Enabled(w.node, s) && HonestStep(w, s)
    ensures Refines(w.(node := Apply(w.node, s)))
  {
    var n := w.node;
    RecordStep(n, s);
    RecordShape(n, s);
    RecordIsTruthful(w, s);
    RecordRefines(n.rows, n.profile.binding, w.broker, RecordedId(n, s), RecordedState(n, s), RecordedResult(n, s));
  }

  lemma LocalPrepareRefines(w: World, s: Step)
    requires Refines(w) && s.Prepare? && Enabled(w.node, s)
    ensures Refines(w.(node := Apply(w.node, s)))
  {
    StepSound(w.node, s);
    PrepareRefines(w.node.rows, w.broker, Row(s.intent, w.node.profile.binding, Prepared, None));
  }

  lemma LocalRefines(w: World, s: Step)
    requires Refines(w) && Enabled(w.node, s) && HonestStep(w, s)
    ensures Refines(w.(node := Apply(w.node, s)))
  {
    if Records(w.node, s) {
      LocalRecordRefines(w, s);
    } else if s.Prepare? {
      LocalPrepareRefines(w, s);
    } else {
      StepSound(w.node, s);
      RowsKeptBy(w.node, s);
    }
  }

  lemma RowsKeptBy(n: Node, s: Step)
    requires Enabled(n, s) && !Records(n, s) && !s.Prepare?
    ensures Apply(n, s).rows == n.rows
  {
  }

  // ---- Broker events ----------------------------------------------------------------------

  lemma TrueHeldWithoutId(rows: seq<Row>, orders: map<ClientId, Accepted>, orders': map<ClientId, Accepted>,
                          id: ClientId, s: Symbol)
    requires forall i | 0 <= i < |rows| :: rows[i].request.clientId != id
    requires forall other | other != id ::
               (other in orders <==> other in orders') && (other in orders ==> orders'[other] == orders[other])
    ensures TrueHeld(rows, orders', s) == TrueHeld(rows, orders, s)
  {
    if rows != [] {
      TrueHeldWithoutId(rows[..|rows| - 1], orders, orders', id, s);
    }
  }

  /** Changing one order's fill moves exactly its own symbol. */
  lemma TrueHeldOfUpdate(rows: seq<Row>, orders: map<ClientId, Accepted>, id: ClientId, o: Accepted, s: Symbol)
    requires DistinctIds(rows) && Find(rows, id).Some?
    requires o.request == Find(rows, id).value.request
    ensures TrueHeld(rows, orders[id := o], s) ==
            TrueHeld(rows, orders, s) - TrueContribution(Find(rows, id).value, orders, s)
            + (if o.request.symbol == s then Signed(o.request.side, o.filled) else 0.0)
  {
    var front, last := rows[..|rows| - 1], rows[|rows| - 1];
    if last.request.clientId == id {
      TrueHeldWithoutId(front, orders, orders[id := o], id, s);
    } else {
      TrueHeldOfUpdate(front, orders, id, o, s);
    }
  }

  lemma AcceptRefines(w: World, e: Event)
    requires Refines(w) && e.Accept? && Possible(w, e)
    ensures Refines(Next(w, e))
  {
    var i := w.node.posts[e.post].intent;
    var o := Accepted(i, e.orderId, 0.0, Working);
    assert Find(w.node.rows, i.clientId).Some? && Find(w.node.rows, i.clientId).value.request == i;
    assert RowOk(w.node.rows[IndexOf(w.node.rows, i.clientId)], w.node.profile.binding);
    forall s: Symbol
      ensures At(w.broker.positions, s) == TrueHeld(w.node.rows, w.broker.orders[i.clientId := o], s)
    {
      TrueHeldOfUpdate(w.node.rows, w.broker.orders, i.clientId, o, s);
    }
  }

  lemma LiveRowPending(w: World, id: ClientId)
    requires Refines(w) && id in w.broker.orders && w.broker.orders[id].state.Working?
    ensures Find(w.node.rows, id).Some? && !Terminal(Find(w.node.rows, id).value.state)
    ensures Find(w.node.rows, id).value.request == w.broker.orders[id].request
  {
    var row := w.node.rows[IndexOf(w.node.rows, id)];
    assert RowOk(row, w.node.profile.binding) && RowRefines(row, w.broker.orders);
  }

  /** While the order is live its row has not ended, so growing the order keeps the row under it. */
  lemma OrderMoves(rows: seq<Row>, orders: map<ClientId, Accepted>, id: ClientId, o: Accepted)
    requires DistinctIds(rows) && OrdersOk(rows, orders) && RowsRefine(rows, orders)
    requires id in orders && Find(rows, id).Some? && !Terminal(Find(rows, id).value.state)
    requires o.request == orders[id].request && o.orderId == orders[id].orderId
    requires orders[id].filled <= o.filled && OrderOk(o)
    ensures OrdersOk(rows, orders[id := o]) && RowsRefine(rows, orders[id := o])
  {
    forall i | 0 <= i < |rows|
      ensures RowRefines(rows[i], orders[id := o])
    {
      assert RowRefines(rows[i], orders);
      FindAt(rows, i);
    }
  }

  /** A fill moves the position by exactly what it moves the truth. */
  lemma FillMovesBoth(rows: seq<Row>, b: Broker, id: ClientId, q: real)
    requires DistinctIds(rows) && PositionsOk(rows, b) && id in b.orders
    requires Find(rows, id).Some? && Find(rows, id).value.request == b.orders[id].request
    ensures PositionsOk(rows, FilledMore(b, id, q))
  {
    var o := b.orders[id];
    var o' := o.(filled := o.filled + q);
    var positions := b.positions[o.request.symbol := At(b.positions, o.request.symbol) + Signed(o.request.side, q)];
    forall s: Symbol
      ensures At(positions, s) == TrueHeld(rows, b.orders[id := o'], s)
    {
      TrueHeldOfUpdate(rows, b.orders, id, o', s);
      assert At(b.positions, s) == TrueHeld(rows, b.orders, s);
    }
  }

  lemma FillNext(w: World, e: Event)
    requires e.Fill? && Possible(w, e)
    ensures Next(w, e) == w.(broker := FilledMore(w.broker, e.id, e.quantity))
    ensures 0.0 < e.quantity <= w.broker.orders[e.id].request.quantity - w.broker.orders[e.id].filled
    ensures w.broker.orders[e.id].state.Working?
  {
  }

  lemma FillRefines(w: World, e: Event)
    requires Refines(w) && e.Fill? && Possible(w, e)
    ensures Refines(Next(w, e))
  {
    FillNext(w, e);
    FilledMoreRefines(w, e.id, e.quantity);
  }

  lemma FilledMoreRefines(w: World, id: ClientId, q: real)
    requires Refines(w) && id in w.broker.orders && w.broker.orders[id].state.Working?
    requires 0.0 < q <= w.broker.orders[id].request.quantity - w.broker.orders[id].filled
    ensures Refines(w.(broker := FilledMore(w.broker, id, q)))
  {
    LiveRowPending(w, id);
    FillKeepsOrders(w.node.rows, w.broker.orders, id, q);
    FillMovesBoth(w.node.rows, w.broker, id, q);
  }

  lemma FillKeepsOrders(rows: seq<Row>, orders: map<ClientId, Accepted>, id: ClientId, q: real)
    requires DistinctIds(rows) && OrdersOk(rows, orders) && RowsRefine(rows, orders)
    requires id in orders && Find(rows, id).Some? && !Terminal(Find(rows, id).value.state)
    requires 0.0 < q <= orders[id].request.quantity - orders[id].filled
    ensures OrdersOk(rows, orders[id := orders[id].(filled := orders[id].filled + q)])
    ensures RowsRefine(rows, orders[id := orders[id].(filled := orders[id].filled + q)])
  {
    assert OrderOk(orders[id]);
    OrderMoves(rows, orders, id, orders[id].(filled := orders[id].filled + q));
  }

  lemma FinishRefines(w: World, e: Event)
    requires Refines(w) && e.Finish? && Possible(w, e)
    ensures Refines(Next(w, e))
  {
    var o' := w.broker.orders[e.id].(state := e.state);
    LiveRowPending(w, e.id);
    OrderMoves(w.node.rows, w.broker.orders, e.id, o');
    forall s: Symbol
      ensures At(w.broker.positions, s) == TrueHeld(w.node.rows, w.broker.orders[e.id := o'], s)
    {
      TrueHeldOfUpdate(w.node.rows, w.broker.orders, e.id, o', s);
    }
  }

  lemma EventRefines(w: World, e: Event)
    requires Refines(w) && Possible(w, e)
    ensures Refines(Next(w, e))
  {
    match e
    case Local(s) => LocalRefines(w, s);
    case Accept(_, _) => AcceptRefines(w, e);
    case Fill(_, _) => FillRefines(w, e);
    case Finish(_, _) => FinishRefines(w, e);
  }

  lemma {:induction false} HistoryRefines(profile: Profile, es: seq<Event>)
    requires History(Start(profile), es)
    ensures Refines(Ends(Start(profile), es))
  {
    if es != [] {
      HistoryRefines(profile, es[..|es| - 1]);
      EventRefines(Ends(Start(profile), es[..|es| - 1]), es[|es| - 1]);
    }
  }

  // ---- What it means ----------------------------------------------------------------------

  /** In every reachable state a recorded fill is at most the true fill, and equal on an ended row;
  every order the broker has accepted has its row. */
  lemma LedgerRefinesBroker(profile: Profile, es: seq<Event>, id: ClientId)
    requires History(Start(profile), es)
    ensures var w := Ends(Start(profile), es);
      && (id in w.broker.orders ==>
            Find(w.node.rows, id).Some? && Find(w.node.rows, id).value.request == w.broker.orders[id].request)
      && (Find(w.node.rows, id).Some? && Find(w.node.rows, id).value.result.Some? ==>
            && id in w.broker.orders
            && FilledOf(Find(w.node.rows, id).value) <= w.broker.orders[id].filled
            && (Terminal(Find(w.node.rows, id).value.state) ==>
                  FilledOf(Find(w.node.rows, id).value) == w.broker.orders[id].filled
                  && !w.broker.orders[id].state.Working?))
  {
    HistoryRefines(profile, es);
    var w := Ends(Start(profile), es);
    if Find(w.node.rows, id).Some? {
      assert RowRefines(w.node.rows[IndexOf(w.node.rows, id)], w.broker.orders);
      assert RowOk(w.node.rows[IndexOf(w.node.rows, id)], w.node.profile.binding);
    }
  }

  /** Ended rows record the whole truth. */
  lemma EndedRowsAreTrue(rows: seq<Row>, binding: Binding, orders: map<ClientId, Accepted>, s: Symbol)
    requires RowsRefine(rows, orders)
    requires forall i | 0 <= i < |rows| :: RowOk(rows[i], binding) && Terminal(rows[i].state)
    ensures TrueHeld(rows, orders, s) == Held(rows, s)
  {
    if rows != [] {
      var front, last := rows[..|rows| - 1], rows[|rows| - 1];
      EndedRowsAreTrue(front, binding, orders, s);
      assert RowOk(last, binding) && RowRefines(last, orders);
    }
  }

  lemma SettledIsTrue(w: World)
    requires Refines(w) && NonePending(w.node.rows)
    ensures forall s: Symbol :: Held(w.node.rows, s) == At(w.broker.positions, s)
    ensures forall id | id in w.broker.orders :: !w.broker.orders[id].state.Working?
  {
    forall s: Symbol
      ensures Held(w.node.rows, s) == At(w.broker.positions, s)
    {
      EndedRowsAreTrue(w.node.rows, w.node.profile.binding, w.broker.orders, s);
    }
    forall id | id in w.broker.orders
      ensures !w.broker.orders[id].state.Working?
    {
      if w.broker.orders[id].state.Working? {
        LiveRowPending(w, id);
        assert false;
      }
    }
  }

  /** Once no row is pending, the position book is the true positions: on any honest snapshot neither
  the drift check nor the open-orders check of `submit` and `reconcile` can refuse. */
  lemma SettledCannotDrift(profile: Profile, es: seq<Event>, snapshot: Snapshot)
    requires History(Start(profile), es) && NonePending(Ends(Start(profile), es).node.rows)
    requires TruthfulSnapshot(Ends(Start(profile), es).broker, snapshot)
    ensures Holdings(snapshot.positions) == Book(Ends(Start(profile), es).node.rows)
    ensures snapshot.orders == []
  {
    HistoryRefines(profile, es);
    var w := Ends(Start(profile), es);
    SettledIsTrue(w);
    assert Agrees(snapshot.positions, w.node.rows);
    SameBook(snapshot.positions, w.node.rows);
    if snapshot.orders != [] {
      OpenOrderWorks(w.broker, snapshot);
    }
  }

  lemma OpenOrderWorks(b: Broker, snapshot: Snapshot)
    requires TruthfulSnapshot(b, snapshot) && snapshot.orders != []
    ensures exists id :: id in b.orders && b.orders[id].state.Working?
  {
    assert snapshot.orders[0].clientId in b.orders;
  }

  /** The account itself is never short, whatever fills while a sell is out. */
  lemma TruePositionNeverShort(profile: Profile, es: seq<Event>, s: Symbol)
    requires History(Start(profile), es)
    ensures 0.0 <= At(Ends(Start(profile), es).broker.positions, s)
  {
    HistoryRefines(profile, es);
    var w := Ends(Start(profile), es);
    assert At(w.broker.positions, s) == TrueHeld(w.node.rows, w.broker.orders, s);
    TrueHeldNeverShort(w.node.rows, w.node.profile.binding, w.broker.orders, s);
  }

  lemma TrueHeldNeverShort(rows: seq<Row>, binding: Binding, orders: map<ClientId, Accepted>, s: Symbol)
    requires RowsOk(rows, binding) && OrdersOk(rows, orders) && RowsRefine(rows, orders)
    ensures 0.0 <= TrueHeld(rows, orders, s)
  {
    if rows != [] {
      var front, last := rows[..|rows| - 1], rows[|rows| - 1];
      EndedRowsAreTrue(front, binding, orders, s);
      assert Covered(front) && 0.0 <= Held(front, s);
      assert RowOk(last, binding) && RowRefines(last, orders);
      assert 0.0 <= Reserved(rows, s) <= Held(rows, s);
      FindAt(rows, |rows| - 1);
    }
  }

  // ---- Authority off ----------------------------------------------------------------------

  /** Nothing is held, nothing is live, and nothing posted can still be accepted. */
  ghost predicate TrulyFlat(w: World) {
    && (forall s: Symbol :: At(w.broker.positions, s) == 0.0)
    && (forall id | id in w.broker.orders :: !w.broker.orders[id].state.Working?)
    && (forall k | 0 <= k < |w.node.posts| :: w.node.posts[k].intent.clientId in w.broker.orders)
    && !w.node.phase.Dispatching?
  }

  ghost predicate OffIsFlat(w: World) {
    RawMode(w.node.authority).Off? ==> TrulyFlat(w)
  }

  lemma RowsWithResultsAccepted(w: World)
    requires Refines(w) && forall i | 0 <= i < |w.node.rows| :: w.node.rows[i].result.Some?
    ensures forall k | 0 <= k < |w.node.posts| :: w.node.posts[k].intent.clientId in w.broker.orders
  {
    forall k | 0 <= k < |w.node.posts|
      ensures w.node.posts[k].intent.clientId in w.broker.orders
    {
      var i := IndexOf(w.node.rows, w.node.posts[k].intent.clientId);
      assert RowRefines(w.node.rows[i], w.broker.orders);
    }
  }

  lemma SettledIsTrulyFlat(w: World)
    requires Refines(w) && FlatAndSettled(w.node.rows) && !w.node.phase.Dispatching?
    ensures TrulyFlat(w)
  {
    SettledIsTrue(w);
    RowsWithResultsAccepted(w);
    forall s: Symbol
      ensures At(w.broker.positions, s) == 0.0
    {
      assert Held(w.node.rows, s) == At(w.broker.positions, s);
    }
  }

  lemma RevokeNext(n: Node)
    requires n.phase.Idle?
    ensures Apply(n, RevokeAuthority) ==
            WithAuthority(n, if FlatAndSettled(n.rows) then Off else CloseOnly).(phase := Revoking)
  {
  }

  lemma RevokeOffIsFlat(w: World)
    requires Refines(w) && w.node.phase.Idle?
    ensures OffIsFlat(w.(node := Apply(w.node, RevokeAuthority)))
  {
    RevokeNext(w.node);
    if FlatAndSettled(w.node.rows) {
      SettledIsTrulyFlat(w);
    }
  }

  lemma CloseOffIsFlat(w: World, s: Step)
    requires Refines(w) && s.CloseAuthority? && Enabled(w.node, s) && TruthfulSnapshot(w.broker, s.snapshot)
    ensures TrulyFlat(w.(node := Apply(w.node, s)))
  {
    RowsWithResultsAccepted(w);
    forall x: Symbol
      ensures At(w.broker.positions, x) == 0.0
    {
      assert Quantity(s.snapshot.positions, x) == At(w.broker.positions, x);
    }
  }

  /** The steps that can change the recorded mode, the phase or the posts. */
  lemma OtherKeepsOff(n: Node, s: Step)
    requires Enabled(n, s) && RawMode(Apply(n, s).authority).Off?
    requires !s.RevokeAuthority? && !s.CloseAuthority?
    ensures RawMode(n.authority).Off?
    ensures Apply(n, s).phase.Dispatching? ==> n.phase.Dispatching?
    ensures Apply(n, s).posts == n.posts || n.phase.Dispatching?
  {
    if s.Prepare? {
      Admitted(n.profile, n.rows, n.authority, s.intent, s.quote, s.snapshot, s.clock);
    }
  }

  lemma EventKeepsOff(w: World, e: Event)
    requires Refines(w) && OffIsFlat(w) && Possible(w, e)
    ensures OffIsFlat(Next(w, e))
  {
    if e.Local? {
      var s := e.step;
      if RawMode(Apply(w.node, s).authority).Off? {
        if s.RevokeAuthority? {
          RevokeOffIsFlat(w);
        } else if s.CloseAuthority? {
          CloseOffIsFlat(w, s);
        } else {
          OtherKeepsOff(w.node, s);
        }
      }
    }
  }

  lemma {:induction false} HistoryOffIsFlat(profile: Profile, es: seq<Event>)
    requires History(Start(profile), es)
    ensures OffIsFlat(Ends(Start(profile), es))
  {
    if es != [] {
      HistoryOffIsFlat(profile, es[..|es| - 1]);
      HistoryRefines(profile, es[..|es| - 1]);
      EventKeepsOff(Ends(Start(profile), es[..|es| - 1]), es[|es| - 1]);
    }
  }

  /** Whenever the stored authority is off - or there is none - the real account is flat: no position,
  no live order, and no posted order that could still come alive. */
  lemma OffMeansTrulyFlat(profile: Profile, es: seq<Event>)
    requires History(Start(profile), es) && RawMode(Ends(Start(profile), es).node.authority).Off?
    ensures TrulyFlat(Ends(Start(profile), es))
  {
    HistoryOffIsFlat(profile, es);
  }

  // ---- Off is not always settled ----------------------------------------------------------

  /** When `reconcile` turns close-only authority off, the ledger is flat and settled exactly when no
  row is left pending. */
  lemma CloseSettledIffNonePending(n: Node, s: Step)
    requires Sound(n) && s.CloseAuthority? && Enabled(n, s)
    ensures FlatAndSettled(Apply(n, s).rows) <==> NonePending(n.rows)
  {
    BookEmptyIffFlat(n.rows);
    if NonePending(n.rows) {
      forall i | 0 <= i < |n.rows|
        ensures Terminal(n.rows[i].state) && n.rows[i].result.Some?
      {
        assert !Pending(n.rows[i]);
      }
    }
  }

  /** Over every history: when the authority is off, the ledger is flat and settled exactly when none of
  its rows is left pending. */
  lemma OffSettledIffNonePending(profile: Profile, es: seq<Event>)
    requires History(Start(profile), es) && RawMode(Ends(Start(profile), es).node.authority).Off?
    ensures FlatAndSettled(Ends(Start(profile), es).node.rows) <==> NonePending(Ends(Start(profile), es).node.rows)
  {
    OffMeansTrulyFlat(profile, es);
    HistoryRefines(profile, es);
    var w := Ends(Start(profile), es);
    if NonePending(w.node.rows) {
      SettledIsTrue(w);
      AllEndedSettled(w.node.rows, w.node.profile.binding);
      assert Flat(w.node.rows) by {
        forall s: Symbol
          ensures Held(w.node.rows, s) == 0.0
        {
          assert At(w.broker.positions, s) == 0.0;
        }
      }
    }
  }

  lemma AllEndedSettled(rows: seq<Row>, binding: Binding)
    requires RowsOk(rows, binding) && NonePending(rows)
    ensures Settled(rows)
  {
    forall i | 0 <= i < |rows|
      ensures Terminal(rows[i].state) && rows[i].result.Some?
    {
      assert !Pending(rows[i]) && RowOk(rows[i], binding);
    }
  }

  const EXAMPLE_PROFILE := Profile(Binding(Alpaca, Environment.Paper, 1), 1, 10000.0, 25000.0, 10, 30.0)
  const EXAMPLE_BUY := Intent(Named(1), 7, Buy, 10.0, 100.0, 5, 60)
  const EXAMPLE_EMPTY := Snapshot(EXAMPLE_PROFILE.binding, 0, 100000.0, 100000.0, [], [], true, true, true, false)
  const EXAMPLE_QUOTE := Quote(7, 100.0, 100.0, 0, true)
  const EXAMPLE_ORDER := Order(9, Named(1), 7, Buy, 10.0, 0.0, Some(100.0), None, Working)

  /** The last lookup still sees the order working; it is cancelled unfilled; then the snapshot comes. */
  const RACE := [
    Local(Authorize(EXAMPLE_EMPTY, 0)),
    Local(Prepare(EXAMPLE_BUY, EXAMPLE_QUOTE, EXAMPLE_EMPTY, Clock(0, 0, 0))),
    Local(Post),
    Accept(0, 9),
    Local(Reply(EXAMPLE_ORDER)),
    Local(RevokeAuthority),
    Local(RevokePlans),
    Local(Reconcile(Named(1), EXAMPLE_ORDER)),
    Finish(Named(1), Cancelled),
    Local(CloseAuthority(EXAMPLE_EMPTY, 0))]

  function ExampleAuthority(mode: Mode): Option<Authority> {
    Some(Authority(mode, 1, EXAMPLE_PROFILE.binding))
  }

  function ExampleNode(row: Row, mode: Mode, phase: Phase, posted: bool): Node {
    Node(EXAMPLE_PROFILE, [row], ExampleAuthority(mode), [], map[], phase,
         if posted then [Dispatch(EXAMPLE_BUY, 10)] else [])
  }

  function ExampleBroker(state: OrderState): Broker {
    Broker(map[Named(1) := Accepted(EXAMPLE_BUY, 9, 0.0, state)], map[])
  }

  const EXAMPLE_PREPARED := Row(EXAMPLE_BUY, EXAMPLE_PROFILE.binding, Prepared, None)
  const EXAMPLE_WORKING := Row(EXAMPLE_BUY, EXAMPLE_PROFILE.binding, Working, Some(EXAMPLE_ORDER))

  /** The world after the first `k` events. */
  function RaceWorld(k: nat): World {
    var nothing := Broker(map[], map[]);
    match k
    case 0 => Start(EXAMPLE_PROFILE)
    case 1 => World(Fresh(EXAMPLE_PROFILE).(authority := ExampleAuthority(Entries)), nothing)
    case 2 => World(ExampleNode(EXAMPLE_PREPARED, Entries, Dispatching(EXAMPLE_BUY, 10), false), nothing)
    case 3 => World(ExampleNode(EXAMPLE_PREPARED, Entries, Posted(EXAMPLE_BUY), true), nothing)
    case 4 => World(ExampleNode(EXAMPLE_PREPARED, Entries, Posted(EXAMPLE_BUY), true), ExampleBroker(Working))
    case 5 => World(ExampleNode(EXAMPLE_WORKING, Entries, Idle, true), ExampleBroker(Working))
    case 6 => World(ExampleNode(EXAMPLE_WORKING, CloseOnly, Revoking, true), ExampleBroker(Working))
    case 7 => World(ExampleNode(EXAMPLE_WORKING, CloseOnly, Idle, true), ExampleBroker(Working))
    case 8 => World(ExampleNode(EXAMPLE_WORKING, CloseOnly, Idle, true), ExampleBroker(Working))
    case 9 => World(ExampleNode(EXAMPLE_WORKING, CloseOnly, Idle, true), ExampleBroker(Cancelled))
    case _ => World(ExampleNode(EXAMPLE_WORKING, Off, Idle, true), ExampleBroker(Cancelled))
  }

  lemma RaceAdmits()
    ensures Possible(RaceWorld(1), RACE[1]) && Next(RaceWorld(1), RACE[1]) == RaceWorld(2)
  {
    assert Holdings([]) == map[] == Book([]);
    assert Notional(EXAMPLE_BUY) == 1000.0;
    assert (10.0).Floor == 10 && (100.0 * 100.0).Floor == 10000;
    assert SpreadBps(EXAMPLE_QUOTE) == 0.0;
  }

  lemma RaceRows()
    ensures IndexOf([EXAMPLE_PREPARED], Named(1)) == 0 && IndexOf([EXAMPLE_WORKING], Named(1)) == 0
    ensures !FlatAndSettled([EXAMPLE_WORKING]) && Book([EXAMPLE_WORKING]) == map[]
  {
    assert Held([EXAMPLE_WORKING], 7) == 0.0 by {
      assert [EXAMPLE_WORKING][..0] == [];
    }
    assert !Terminal([EXAMPLE_WORKING][0].state);
  }

  lemma RaceAuthorizes()
    ensures Possible(RaceWorld(0), RACE[0]) && Next(RaceWorld(0), RACE[0]) == RaceWorld(1)
  {
    assert Flat([]);
  }

  lemma RacePosts()
    ensures Possible(RaceWorld(2), RACE[2]) && Next(RaceWorld(2), RACE[2]) == RaceWorld(3)
  {
  }

  lemma RaceAccepts()
    ensures Possible(RaceWorld(3), RACE[3]) && Next(RaceWorld(3), RACE[3]) == RaceWorld(4)
  {
    RaceRows();
  }

  lemma RaceAnswers()
    ensures Possible(RaceWorld(4), RACE[4]) && Next(RaceWorld(4), RACE[4]) == RaceWorld(5)
  {
    RaceRows();
  }

  lemma RaceRevokes()
    ensures Possible(RaceWorld(5), RACE[5]) && Next(RaceWorld(5), RACE[5]) == RaceWorld(6)
  {
    RaceRows();
  }

  lemma RaceRevokesPlans()
    ensures Possible(RaceWorld(6), RACE[6]) && Next(RaceWorld(6), RACE[6]) == RaceWorld(7)
  {
    assert RevokedPlans([EXAMPLE_WORKING], []) == [];
  }

  lemma RaceReconciles()
    ensures Possible(RaceWorld(7), RACE[7]) && Next(RaceWorld(7), RACE[7]) == RaceWorld(8)
    ensures Possible(RaceWorld(8), RACE[8]) && Next(RaceWorld(8), RACE[8]) == RaceWorld(9)
  {
    RaceRows();
  }

  lemma RaceCloses()
    ensures Possible(RaceWorld(9), RACE[9]) && Next(RaceWorld(9), RACE[9]) == RaceWorld(10)
  {
    RaceRows();
  }

  lemma RaceStep(k: nat)
    requires k < 10
    ensures Possible(RaceWorld(k), RACE[k]) && Next(RaceWorld(k), RACE[k]) == RaceWorld(k + 1)
  {
    match k
    case 0 => RaceAuthorizes();
    case 1 => RaceAdmits();
    case 2 => RacePosts();
    case 3 => RaceAccepts();
    case 4 => RaceAnswers();
    case 5 => RaceRevokes();
    case 6 => RaceRevokesPlans();
    case 7 => RaceReconciles();
    case 8 => RaceReconciles();
    case _ => RaceCloses();
  }

  lemma {:induction false} RaceRuns(k: nat)
    requires k <= 10
    ensures History(Start(EXAMPLE_PROFILE), RACE[..k]) && Ends(Start(EXAMPLE_PROFILE), RACE[..k]) == RaceWorld(k)
  {
    if k > 0 {
      RaceRuns(k - 1);
      RaceStep(k - 1);
      assert RACE[..k][..k - 1] == RACE[..k - 1];
    }
  }

  /** So "off implies flat and settled" fails, even for an honest broker. */
  lemma OffButUnsettled()
    ensures History(Start(EXAMPLE_PROFILE), RACE)
    ensures RawMode(Ends(Start(EXAMPLE_PROFILE), RACE).node.authority).Off?
    ensures !FlatAndSettled(Ends(Start(EXAMPLE_PROFILE), RACE).node.rows)
  {
    RaceRuns(10);
    RaceRows();
    assert RACE[..10] == RACE;
  }
}
