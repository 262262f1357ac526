/** `TigerPaperSession`: one limit order per client identity against one paper account, followed to its
end, cancelled when it is late, and believed only when the position agrees.

The methods make the moves of the session's state machine, and the broker makes its own moves whenever it
is asked anything; a process that dies in the middle leaves the account at one of the states on the way.
*/
module PaperSessions {
  import opened Contracts
  import opened PaperOrders
  import opened PaperRuns
  import Leases

  ghost predicate ReachableFrom(opening: map<Symbol, int>, w: World) {
    exists moves: seq<Move> :: Runs(Start(opening), moves, w)
  }

  lemma ReachableInv(opening: map<Symbol, int>, w: World)
    requires ReachableFrom(opening, w)
    ensures Inv(w)
  {
    var moves :| Runs(Start(opening), moves, w);
    StartInv(opening);
    RunsInv(Start(opening), moves, w);
  }

  lemma ReachableMove(opening: map<Symbol, int>, w: World, m: Move)
    requires ReachableFrom(opening, w) && Can(w, m)
    ensures ReachableFrom(opening, Moved(w, m))
  {
    var moves :| Runs(Start(opening), moves, w);
    RunsSnoc(Start(opening), moves, w, m);
  }

  // ---- What happens to the account meanwhile ----------------------------------------------

  /** How many orders there are, accepted or under way. */
  function Load(w: World): nat {
    |w.orders| + |w.flight|
  }

  predicate OnceAll(w: World) {
    OnceEach(w.orders) && OnceEach(w.flight) && Apart(w.orders, w.flight)
  }

  /** Orders only evolve, and no order appears that was not accepted or under way before. */
  ghost predicate Later(w: World, w': World) {
    && w'.opening == w.opening && Evolves(w.orders, w'.orders) && w.past <= w'.past
    && Load(w') <= Load(w) && w'.references == w.references
    && (w.flight == [] ==> w'.flight == [] && |w'.orders| == |w.orders|)
    && (OnceAll(w) ==> OnceAll(w'))
    && (forall id: nat | Fresh(w, id) :: Fresh(w', id))
    && (forall id: nat | Unused(w.flight, id) :: Unused(w'.flight, id))
  }

  lemma LaterSame(w: World, pc: Pc)
    ensures Later(w, w.(pc := pc))
  {
    assert forall i | 0 <= i < |w.orders| :: OrderEvolves(w.orders[i], w.orders[i]);
  }

  lemma LaterTwice(a: World, b: World, c: World)
    requires Later(a, b) && Later(b, c)
    ensures Later(a, c)
  {
    EvolvesTransitive(a.orders, b.orders, c.orders);
  }

  lemma BrokerFresh(w: World, m: Move, id: nat)
    requires Inv(w) && Can(w, m) && ByBroker(m)
    ensures Fresh(w, id) ==> Fresh(Moved(w, m), id)
    ensures Unused(w.flight, id) ==> Unused(Moved(w, m).flight, id)
  {
    if m.Evolve? {
      assert forall i | 0 <= i < |w.orders| :: OrderEvolves(w.orders[i], m.next[i]);
    }
  }

  lemma BrokerLater(w: World, m: Move)
    requires Inv(w) && Can(w, m) && ByBroker(m)
    ensures Later(w, Moved(w, m)) && Moved(w, m).pc == w.pc
  {
    BrokerMoveEvolves(w, m);
    forall id: nat {
      BrokerFresh(w, m, id);
    }
    if OnceAll(w) {
      MoveOnce(w.(pc := Idle), m);
    }
  }

  // ---- The broker session -----------------------------------------------------------------

  class TradeClient {
    var orders: seq<PaperOrder>
    var flight: seq<PaperOrder>
    var past: seq<seq<PaperOrder>>
    var references: nat
    var pc: Pc
    var clock: nat
    var cancels: seq<nat>
    const opening: map<Symbol, int>
    /** Whether positions are always current. */
    const prompt: bool

    constructor (opening: map<Symbol, int>, prompt: bool)
      ensures Valid() && State() == Start(opening) && this.opening == opening && this.prompt == prompt
    {
      this.orders, this.flight, this.past, this.references, this.pc := [], [], [[]], 0, Idle;
      this.clock, this.cancels, this.opening, this.prompt := 0, [], opening, prompt;
      new;
      assert Runs(Start(opening), [], State());
    }

    function State(): World
      reads this
    {
      World(opening, orders, flight, past, references, pc)
    }

    ghost predicate Valid()
      reads this
    {
      ReachableFrom(opening, State())
    }

    ghost method Log(before: World, m: Move)
      requires ReachableFrom(opening, before) && Can(before, m) && State() == Moved(before, m)
      ensures Valid()
    {
      ReachableMove(opening, before, m);
    }

    /** An exception or a death: the call leaves no trace of its own. */
    method Leave()
      requires Valid()
      modifies this`pc
      ensures Valid() && pc == Idle && Later(old(State()), State())
    {
      ghost var before := State();
      pc := Idle;
      Log(before, Die);
      LaterSame(before, Idle);
    }

    /** Anything may be accepted, dropped, filled or ended while we wait. */
    method Pass(sleep: nat)
      requires Valid()
      modifies this`orders, this`flight, this`past, this`clock
      ensures Valid() && Later(old(State()), State()) && clock >= old(clock) + sleep
    {
      var n: nat := *;
      LaterSame(State(), pc);
      while n > 0
        invariant Valid() && Later(old(State()), State()) && pc == old(pc) && clock == old(clock)
      {
        var m: Move := *;
        if Can(State(), m) && ByBroker(m) {
          ghost var before := State();
          ReachableInv(opening, before);
          BrokerLater(before, m);
          LaterTwice(old(State()), before, Moved(before, m));
          var w := Moved(State(), m);
          orders, flight, past := w.orders, w.flight, w.past;
          Log(before, m);
        }
        n := n - 1;
      }
      var ticks: int := *;
      clock := clock + sleep + if ticks > 0 then ticks else 0;
    }

    /** The rows of one symbol's position at some moment so far, the present one when positions are current;
    other rows may come along. */
    method GetPositions(symbol: Symbol) returns (rows: Option<seq<(Symbol, int)>>, ghost p: nat)
      requires Valid()
      modifies this`orders, this`flight, this`past, this`clock
      ensures Valid() && Later(old(State()), State()) && clock >= old(clock) && p < |past|
      ensures rows.Some? ==> Sum(rows.value, symbol) == HeldAt(State(), p, symbol)
      ensures prompt ==> p == |past| - 1
    {
      Pass(0);
      ReachableInv(opening, State());
      var moment: int := *;
      if prompt || moment < 0 || moment >= |past| {
        moment := |past| - 1;
      }
      var answer: seq<(Symbol, int)> := *;
      rows := if Sum(answer, symbol) == HeldIn(opening, past[moment], symbol) then Some(answer) else None;
      p := moment;
    }

    /** Every order as long as they fit in one page, after that only some; each as some moment so far showed it. */
    method GetOrders() returns (history: Option<seq<PaperOrder>>)
      requires Valid()
      modifies this`orders, this`flight, this`past, this`clock
      ensures Valid() && Later(old(State()), State()) && clock >= old(clock)
      ensures history.Some? ==> Page(history.value, past) && WholePage(history.value, orders)
    {
      Pass(0);
      var some: seq<PaperOrder> := *;
      history := if Page(some, past) && WholePage(some, orders) then Some(some) else None;
    }

    /** The order as some moment so far showed it. */
    method GetOrder(k: nat) returns (observed: Option<PaperOrder>, ghost p: nat)
      requires Valid() && k < |orders|
      modifies this`orders, this`flight, this`past, this`clock
      ensures Valid() && Later(old(State()), State()) && clock >= old(clock)
      ensures observed.Some? ==> p < |past| && k < |past[p]| && observed.value == past[p][k]
    {
      Pass(0);
      var moment: int := *;
      observed, p := None, 0;
      if 0 <= moment < |past| && k < |past[moment]| {
        observed, p := Some(past[moment][k]), moment;
      }
    }

    /** Tradable quantity, and whether the preview passed with no warning. */
    method Estimate(r: Request) returns (capacity: Option<int>, previewed: bool)
      requires Valid()
      modifies this`orders, this`flight, this`past, this`clock
      ensures Valid() && Later(old(State()), State()) && clock >= old(clock)
    {
      Pass(0);
      capacity, previewed := *, *;
    }

    /** A cancellation is a request; what becomes of the order shows later. */
    method CancelOrder(k: nat) returns (sent: bool)
      requires Valid() && k < |orders|
      modifies this`orders, this`flight, this`past, this`clock, this`cancels
      ensures Valid() && Later(old(State()), State()) && cancels == old(cancels) + [k] && clock >= old(clock)
    {
      cancels := cancels + [k];
      Pass(0);
      sent := *;
    }

    /** The order is under way; it may be accepted and answered, or the answer may never come. */
    method PlaceOrder(r: Request) returns (k: Option<nat>)
      requires Valid() && pc == Admitted(r)
      modifies this`orders, this`flight, this`past, this`clock, this`references, this`pc
      ensures Valid() && PlacedOne(old(State()), State(), r)
      ensures if k.Some? then pc == Following(r, k.value) && k.value < |orders| && SameTerms(r, orders[k.value])
                              && (old(flight) == [] ==> k.value == |old(orders)| == |orders| - 1 && flight == [])
              else pc == Idle
    {
      ghost var start := State();
      flight := flight + [Sent(r, references)];
      references := references + 1;
      pc := Placing(r, references - 1);
      Log(start, Place);
      PlaceIsOne(start, r);
      ghost var placed := State();
      Pass(0);
      var i: int := *;
      var answered: bool := *;
      if answered && 0 <= i < |orders| && orders[i].reference == pc.reference {
        ghost var before := State();
        ReachableInv(opening, start);
        ReachableInv(opening, before);
        pc := Following(r, i);
        Log(before, PaperRuns.Reply(i));
        OwnOrderPlace(start, placed, before, r, i);
        OneThenLater(start, placed, State(), r);
        k := Some(i);
      } else {
        ghost var before := State();
        pc := Idle;
        Log(before, Die);
        OneThenLater(start, placed, State(), r);
        k := None;
      }
    }
  }

  /** A history that fits one page leaves out no order, but may show an older state of it. */
  predicate WholePage(history: seq<PaperOrder>, orders: seq<PaperOrder>) {
    |orders| <= HISTORY_LIMIT ==> |history| == |orders| && Evolves(history, orders)
  }

  lemma WholePageUnused(history: seq<PaperOrder>, orders: seq<PaperOrder>, id: nat)
    requires WholePage(history, orders) && |orders| <= HISTORY_LIMIT && Unused(history, id)
    ensures Unused(orders, id)
  {
    forall i | 0 <= i < |orders|
      ensures orders[i].clientId != Some(id)
    {
      assert OrderEvolves(history[i], orders[i]);
    }
  }

  function Sum(rows: seq<(Symbol, int)>, symbol: Symbol): int {
    if rows == [] then 0
    else
      var last := rows[|rows| - 1];
      Sum(rows[..|rows| - 1], symbol) + if last.0 == symbol then last.1 else 0
  }

  /** One more order, of this request, is accepted or under way. */
  ghost predicate PlacedOne(w: World, w': World, r: Request) {
    && w'.opening == w.opening && Evolves(w.orders, w'.orders) && w.past <= w'.past
    && Load(w') <= Load(w) + 1 && w'.references == w.references + 1
    && (w.flight == [] ==> |w'.orders| <= |w.orders| + 1)
    && (OnceAll(w) && Fresh(w, r.clientId) ==> OnceAll(w'))
    && (forall id: nat | Fresh(w, id) && id != r.clientId :: Fresh(w', id))
  }

  lemma PlaceIsOne(w: World, r: Request)
    requires w.pc == Admitted(r)
    ensures PlacedOne(w, Moved(w, Place), r)
    ensures OnceAll(w) && Fresh(w, r.clientId) ==> OnceAll(Moved(w, Place))
  {
    assert forall i | 0 <= i < |w.orders| :: OrderEvolves(w.orders[i], w.orders[i]);
  }

  lemma OneThenLater(w: World, placed: World, w': World, r: Request)
    requires w.pc == Admitted(r) && placed == Moved(w, Place) && Later(placed, w'.(pc := placed.pc))
    ensures PlacedOne(w, w', r)
  {
    PlaceIsOne(w, r);
    var later := w'.(pc := placed.pc);
    EvolvesTransitive(w.orders, placed.orders, later.orders);
  }

  /** The order that was answered is the one that was placed, and with nothing else under way it is the last. */
  lemma OwnOrderPlace(w: World, placed: World, w': World, r: Request, i: nat)
    requires Inv(w) && Inv(w') && w.pc == Admitted(r) && placed == Moved(w, Place) && Later(placed, w')
    requires w'.pc == placed.pc && i < |w'.orders| && w'.orders[i].reference == w.references
    ensures SameTerms(r, w'.orders[i])
    ensures w.flight == [] ==> i == |w.orders| == |w'.orders| - 1 && w'.flight == []
  {
    forall j | 0 <= j < |w.orders|
      ensures w'.orders[j].reference < w.references
    {
      assert OrderEvolves(w.orders[j], w'.orders[j]);
    }
  }

  // ---- What a result tells ----------------------------------------------------------------

  /** The order behind a decided result: complete, or ended short of it. */
  predicate Explains(w: World, r: Request, result: PaperResult, k: nat) {
    && k < |w.orders| && SameTerms(r, w.orders[k]) && Shows(r, result)
    && if result.verdict.Filled? then w.orders[k].filled == r.quantity
       else Ended(w.orders[k].status) && w.orders[k].filled < r.quantity
  }

  ghost predicate Decided(w: World, r: Request, result: PaperResult) {
    exists k: nat :: Explains(w, r, result, k)
  }

  /** The reported position was the account's at some moment, and is now when positions are current. */
  ghost predicate PositionShown(w: World, r: Request, result: PaperResult, prompt: bool) {
    && result.positionBefore == r.expectedBefore
    && (exists p | 0 <= p < |w.past| :: HeldAt(w, p, r.symbol) == result.positionAfter)
    && (prompt ==> result.positionAfter == HeldNow(w, r.symbol))
  }

  lemma FoundTold(w: World, r: Request, o: PaperOrder, placing: bool, p: nat, prompt: bool)
    requires Inv(w) && w.pc == Found(r, o, placing) && p < |w.past| && (prompt ==> p == |w.past| - 1)
    ensures var result := Classified(r, o, HeldAt(w, p, r.symbol));
      PositionShown(w, r, result, prompt) && (!result.verdict.Unresolved? ==> Decided(w, r, result))
  {
    var result := Classified(r, o, HeldAt(w, p, r.symbol));
    var i :| 0 <= i < |w.orders| && OrderEvolves(o, w.orders[i]);
    assert 0 <= w.orders[i].filled <= w.orders[i].quantity;
    if !result.verdict.Unresolved? {
      assert Explains(w, r, result, i);
    }
  }

  lemma WatchedTold(w: World, p: nat, prompt: bool)
    requires Inv(w) && w.pc.Watched? && p < |w.past| && (prompt ==> p == |w.past| - 1)
    ensures var c := Concluded(w.pc.r, w.pc.filled, HeldAt(w, p, w.pc.r.symbol));
      c.Answer? ==> PositionShown(w, w.pc.r, c.value, prompt) && Explains(w, w.pc.r, c.value, w.pc.k)
  {
    assert 0 <= w.orders[w.pc.k].filled <= w.orders[w.pc.k].quantity;
  }

  /** No moment so far showed more of an order filled than there is now. */
  lemma SeenFill(opening: map<Symbol, int>, w: World, p: nat, k: nat)
    requires ReachableFrom(opening, w) && p < |w.past| && k < |w.past[p]|
    ensures k < |w.orders| && w.past[p][k].filled <= w.orders[k].filled
  {
    ReachableInv(opening, w);
    assert Evolves(w.past[p], w.past[|w.past| - 1]);
    assert OrderEvolves(w.past[p][k], w.orders[k]);
  }

  class TigerPaperSession {
    const client: TradeClient
    const lease: Leases.SingleOwnerLease
    const timeout: nat
    const maxNotional: real

    constructor (client: TradeClient, lease: Leases.SingleOwnerLease, timeout: nat, maxNotional: real)
      ensures this.client == client && this.lease == lease
      ensures this.timeout == timeout && this.maxNotional == maxNotional
    {
      this.client, this.lease, this.timeout, this.maxNotional := client, lease, timeout, maxNotional;
    }

    /** `position`: adds up the rows of the symbol, as some moment so far shows them. */
    method Position(symbol: Symbol) returns (r: Reply<int>, ghost p: nat)
      requires client.Valid()
      modifies client`orders, client`flight, client`past, client`clock
      ensures client.Valid() && Later(old(client.State()), client.State()) && client.clock >= old(client.clock)
      ensures p < |client.past| && (client.prompt ==> p == |client.past| - 1)
      ensures r.Answer? ==> r.value == HeldAt(client.State(), p, symbol)
    {
      var rows;
      rows, p := client.GetPositions(symbol);
      if rows.None? {
        r := Raised(BrokerFailed);
        return;
      }
      var quantity := 0;
      for i := 0 to |rows.value|
        invariant quantity == Sum(rows.value[..i], symbol)
      {
        assert rows.value[..i + 1][..i] == rows.value[..i];
        if rows.value[i].0 == symbol {
          quantity := quantity + rows.value[i].1;
        }
      }
      assert rows.value[..|rows.value|] == rows.value;
      r := Answer(quantity);
    }

    /** Reads the identity's history, and the position when there is one order to judge. */
    method Inspect(r: Request, placing: bool) returns (result: Reply<Option<PaperResult>>)
      requires client.Valid() && lease.Valid() && Resting(client.pc) && ValidRequest(r)
      modifies client`orders, client`flight, client`past, client`clock, client`pc
      ensures client.Valid() && Later(old(client.State()), client.State())
      ensures result == Answer(None) ==>
                && client.pc == (if placing then Unseen(r) else Idle)
                && (|client.orders| <= HISTORY_LIMIT ==> Unused(client.orders, r.clientId))
      ensures result.Answer? && result.value.Some? ==>
                PositionShown(client.State(), r, result.value.value, client.prompt)
      ensures result.Answer? && result.value.Some? && !result.value.value.verdict.Unresolved? ==>
                Shows(r, result.value.value) && Decided(client.State(), r, result.value.value)
      ensures result != Answer(None) ==> Resting(client.pc)
    {
      LaterSame(client.State(), client.pc);
      var owned := lease.AssertOwned();
      if !owned {
        return Raised(LeaseLost);
      }
      var history := client.GetOrders();
      if history.None? {
        return Raised(BrokerFailed);
      }
      ghost var before := client.State();
      result := JudgeHistory(r, history.value, placing);
      LaterTwice(old(client.State()), before, client.State());
    }

    /** No order under the identity, one that can be judged, or a refusal. */
    method JudgeHistory(r: Request, history: seq<PaperOrder>, placing: bool)
      returns (result: Reply<Option<PaperResult>>)
      requires client.Valid() && Resting(client.pc) && ValidRequest(r) && Page(history, client.past)
      requires WholePage(history, client.orders)
      modifies client`orders, client`flight, client`past, client`clock, client`pc
      ensures client.Valid() && Later(old(client.State()), client.State())
      ensures result == Answer(None) ==>
                && client.pc == (if placing then Unseen(r) else Idle)
                && (|client.orders| <= HISTORY_LIMIT ==> Unused(client.orders, r.clientId))
      ensures result.Answer? && result.value.Some? ==>
                PositionShown(client.State(), r, result.value.value, client.prompt)
      ensures result.Answer? && result.value.Some? && !result.value.value.verdict.Unresolved? ==>
                Shows(r, result.value.value) && Decided(client.State(), r, result.value.value)
      ensures result != Answer(None) ==> Resting(client.pc)
    {
      ghost var first := client.State();
      Looked(r, history, placing);
      var matches := Matching(history, r.clientId);
      if matches == [] {
        if |client.orders| <= HISTORY_LIMIT {
          WholePageUnused(history, client.orders, r.clientId);
        }
        return Answer(None);
      }
      if |matches| != 1 {
        return Raised(IdentityNotUnique);
      }
      if !SameTerms(r, matches[0]) {
        return Raised(IdentityChanged);
      }
      ghost var before := client.State();
      result := Judge(r, matches[0], placing);
      LaterTwice(first, before, client.State());
    }

    method Looked(r: Request, history: seq<PaperOrder>, placing: bool)
      requires client.Valid() && Resting(client.pc) && ValidRequest(r) && Page(history, client.past)
      modifies client`pc
      ensures client.Valid() && Later(old(client.State()), client.State()) && client.pc == Seen(r, history, placing)
    {
      ghost var before := client.State();
      client.pc := Seen(r, history, placing);
      client.Log(before, Look(r, history, placing));
      LaterSame(before, client.pc);
    }

    method Judge(r: Request, o: PaperOrder, placing: bool) returns (result: Reply<Option<PaperResult>>)
      requires client.Valid() && client.pc == Found(r, o, placing)
      modifies client`orders, client`flight, client`past, client`clock, client`pc
      ensures client.Valid() && Later(old(client.State()), client.State()) && Resting(client.pc)
      ensures result.Answer? ==> result.value.Some?
      ensures result.Answer? ==> PositionShown(client.State(), r, result.value.value, client.prompt)
      ensures result.Answer? && !result.value.value.verdict.Unresolved? ==>
                Shows(r, result.value.value) && Decided(client.State(), r, result.value.value)
    {
      ghost var first := client.State();
      var position, p := Position(r.symbol);
      ghost var before := client.State();
      if position.Raised? {
        client.Leave();
        LaterTwice(first, before, client.State());
        return Raised(position.failure);
      }
      ReachableInv(client.opening, before);
      FoundTold(before, r, o, placing, p, client.prompt);
      client.pc := Judged(r, o, position.value, placing);
      client.Log(before, ReadFound(p));
      LaterSame(before, client.pc);
      LaterTwice(first, before, client.State());
      result := Answer(Some(Classified(r, o, position.value)));
      ToldStays(before, client.pc, r, result.value.value, client.prompt);
    }

    /** Asks about one identity: nothing is placed and nothing is cancelled, and a decided answer names a
    finished order. */
    method Reconcile(r: Request) returns (result: Reply<Option<PaperResult>>)
      requires client.Valid() && lease.Valid() && Resting(client.pc) && ValidRequest(r)
      modifies client`orders, client`flight, client`past, client`clock, client`pc
      ensures client.Valid() && Later(old(client.State()), client.State()) && Resting(client.pc)
      ensures result == Answer(None) && |client.orders| <= HISTORY_LIMIT ==> Unused(client.orders, r.clientId)
      ensures result.Answer? && result.value.Some? ==>
                PositionShown(client.State(), r, result.value.value, client.prompt)
      ensures result.Answer? && result.value.Some? && !result.value.value.verdict.Unresolved? ==>
                Shows(r, result.value.value) && Decided(client.State(), r, result.value.value)
    {
      result := Inspect(r, false);
    }

    /** Waits for a position, but no longer than its deadline. */
    method WaitForPosition(symbol: Symbol, expected: int) returns (r: Reply<int>, ghost p: nat)
      requires client.Valid()
      modifies client`orders, client`flight, client`past, client`clock
      ensures client.Valid() && Later(old(client.State()), client.State())
      ensures p < |client.past| && (client.prompt ==> p == |client.past| - 1)
      ensures r.Answer? ==> r.value == HeldAt(client.State(), p, symbol)
      ensures r.Answer? && r.value != expected ==>
                client.clock >= old(client.clock) + (if timeout <= 10 then timeout else 10)
    {
      ghost var first := client.State();
      var deadline := client.clock + if timeout <= 10 then timeout else 10;
      r, p := Position(symbol);
      while r.Answer? && r.value != expected && client.clock < deadline
        invariant client.Valid() && Later(first, client.State())
        invariant p < |client.past| && (client.prompt ==> p == |client.past| - 1)
        invariant r.Answer? ==> r.value == HeldAt(client.State(), p, symbol)
        decreases deadline - client.clock
      {
        ghost var before := client.State();
        client.Pass(1);
        ghost var later := client.State();
        LaterTwice(first, before, later);
        r, p := Position(symbol);
        LaterTwice(first, later, client.State());
      }
    }

    /** One polling loop: ends early when the order is seen complete or ended. */
    method Poll(k: nat, quantity: int, filledBefore: int, deadline: nat)
      returns (ended: bool, filled: int, ghost p: nat)
      requires client.Valid() && k < |client.orders| && filledBefore <= client.orders[k].filled
      modifies client`orders, client`flight, client`past, client`clock
      ensures client.Valid() && Later(old(client.State()), client.State())
      ensures filled <= client.orders[k].filled
      ensures ended ==> EndedAt(client.past, p, k, quantity) && filled == client.past[p][k].filled
      ensures !ended ==> client.clock >= deadline
    {
      ghost var first := client.State();
      filled := filledBefore;
      ended, p := false, 0;
      LaterSame(first, client.pc);
      while client.clock < deadline
        invariant client.Valid() && Later(first, client.State()) && k < |client.orders|
        invariant filled <= client.orders[k].filled && !ended
        decreases deadline - client.clock
      {
        ghost var before := client.State();
        var observed;
        observed, p := client.GetOrder(k);
        ghost var seen := client.State();
        LaterTwice(first, before, seen);
        assert OrderEvolves(before.orders[k], seen.orders[k]);
        if observed.Some? {
          SeenFill(client.opening, seen, p, k);
          filled := observed.value.filled;
          if filled == quantity || Ended(observed.value.status) {
            ended := true;
            return;
          }
        }
        client.Pass(1);
        LaterTwice(first, seen, client.State());
        assert OrderEvolves(seen.orders[k], client.orders[k]);
      }
    }

    /** Follows a placed order to its end; without a cancellation the only outcome is that end. */
    method Follow(k: nat, r: Request) returns (filled: Reply<int>)
      requires client.Valid() && client.pc == Following(r, k)
      modifies client`orders, client`flight, client`past, client`clock, client`pc, client`cancels
      ensures client.Valid() && Later(old(client.State()), client.State())
      ensures filled.Answer? ==> client.pc == Watched(r, k, filled.value)
      ensures filled.Raised? ==> client.pc == Idle
      ensures (client.cancels == old(client.cancels) && filled.Answer?) || client.cancels == old(client.cancels) + [k]
    {
      ghost var first := client.State();
      ReachableInv(client.opening, first);
      assert 0 <= client.orders[k].filled;
      var ended, amount, p := Poll(k, r.quantity, 0, client.clock + timeout);
      ghost var polled := client.State();
      if ended {
        Finish(k, r, amount, p);
        filled := Answer(amount);
      } else {
        filled := CancelAndPoll(k, r, amount);
      }
      LaterTwice(first, polled, client.State());
    }

    /** The last observation of the order. */
    method Finish(k: nat, r: Request, filled: int, ghost p: nat)
      requires client.Valid() && client.pc == Following(r, k)
      requires EndedAt(client.past, p, k, r.quantity) && filled == client.past[p][k].filled
      modifies client`pc
      ensures client.Valid() && Later(old(client.State()), client.State())
      ensures client.pc == Watched(r, k, filled)
    {
      ghost var before := client.State();
      client.pc := Watched(r, k, filled);
      client.Log(before, Watch(p));
      LaterSame(before, client.pc);
    }

    /** An order that is late is cancelled, and followed until that shows. */
    method CancelAndPoll(k: nat, r: Request, filledBefore: int) returns (filled: Reply<int>)
      requires client.Valid() && client.pc == Following(r, k) && k < |client.orders|
      requires filledBefore <= client.orders[k].filled
      modifies client`orders, client`flight, client`past, client`clock, client`pc, client`cancels
      ensures client.Valid() && Later(old(client.State()), client.State())
      ensures client.cancels == old(client.cancels) + [k]
      ensures filled.Answer? ==> client.pc == Watched(r, k, filled.value)
      ensures filled.Raised? ==> client.pc == Idle
    {
      ghost var first := client.State();
      var sent := client.CancelOrder(k);
      ghost var cancelled := client.State();
      assert OrderEvolves(first.orders[k], cancelled.orders[k]);
      if !sent {
        client.Leave();
        LaterTwice(first, cancelled, client.State());
        return Raised(BrokerFailed);
      }
      var ended, amount, p := Poll(k, r.quantity, filledBefore, client.clock + if timeout <= 10 then timeout else 10);
      ghost var polled := client.State();
      LaterTwice(first, cancelled, polled);
      if ended {
        Finish(k, r, amount, p);
        filled := Answer(amount);
      } else {
        client.Leave();
        filled := Raised(CancelUnconfirmed);
      }
      LaterTwice(first, polled, client.State());
    }

    /** Compares the position with what the fill should have done to it. */
    method Conclude(r: Request, k: nat, filled: int) returns (result: Reply<PaperResult>)
      requires client.Valid() && client.pc == Watched(r, k, filled)
      modifies client`orders, client`flight, client`past, client`clock, client`pc
      ensures client.Valid() && Later(old(client.State()), client.State()) && Resting(client.pc)
      ensures result.Answer? ==> Concluded(r, filled, result.value.positionAfter) == result
      ensures result.Answer? ==> PositionShown(client.State(), r, result.value, client.prompt)
      ensures result.Answer? ==> Explains(client.State(), r, result.value, k)
    {
      ghost var first := client.State();
      var after, p := WaitForPosition(r.symbol, if filled != r.quantity then r.expectedBefore else ExpectedAfter(r));
      ghost var before := client.State();
      if after.Raised? {
        client.Leave();
        LaterTwice(first, before, client.State());
        return Raised(after.failure);
      }
      ReachableInv(client.opening, before);
      WatchedTold(before, p, client.prompt);
      result := Concluded(r, filled, after.value);
      client.pc := Ending(r, filled, after.value);
      client.Log(before, PaperRuns.Conclude(p));
      LaterSame(before, client.pc);
      LaterTwice(first, before, client.State());
      if result.Answer? {
        ToldStays(before, client.pc, r, result.value, client.prompt);
      }
    }

    /** The checks between an empty history and the order itself. */
    method Admit(r: Request) returns (failure: Option<Failure>)
      requires client.Valid() && client.pc == Unseen(r)
      modifies client`orders, client`flight, client`past, client`clock, client`pc
      ensures client.Valid() && Later(old(client.State()), client.State())
      ensures client.pc == if failure.None? then Admitted(r) else Idle
      ensures failure.None? && client.prompt && old(client.flight) == [] && Quiet(old(client.orders), r.symbol) ==>
                HeldNow(client.State(), r.symbol) == r.expectedBefore
    {
      ghost var first := client.State();
      var before, p := Position(r.symbol);
      ghost var read := client.State();
      ReachableInv(client.opening, read);
      failure := PositionRefusal(r, before);
      var capacity, previewed := None, false;
      if failure.None? {
        capacity, previewed := client.Estimate(r);
        failure := EstimateRefusal(r, capacity, previewed);
      }
      ghost var estimated := client.State();
      if failure.None? {
        client.pc := Admitted(r);
        client.Log(estimated, PaperRuns.Admit(p, true));
        LaterSame(estimated, client.pc);
        QuietHolds(first, read, client.State(), r.symbol);
      } else {
        LaterSame(read, client.pc);
        client.Leave();
      }
      LaterTwice(first, read, estimated);
      LaterTwice(first, estimated, client.State());
    }

    /** Places the order once and follows it. */
    method PlaceAndFollow(r: Request) returns (result: Reply<PaperResult>)
      requires client.Valid() && client.pc == Admitted(r)
      modifies client
      ensures client.Valid() && PlacedOne(old(client.State()), client.State(), r) && Resting(client.pc)
      ensures result.Answer? ==> PositionShown(client.State(), r, result.value, client.prompt)
      ensures result.Answer? ==> Decided(client.State(), r, result.value)
      ensures result.Answer? && Still(old(client.State()), r) ==>
                Accounted(old(client.State()), client.State(), r, result.value)
    {
      ghost var first := client.State();
      var k := client.PlaceOrder(r);
      ghost var placed := client.State();
      if k.None? {
        return Raised(NoReference);
      }
      var filled := Follow(k.value, r);
      ghost var followed := client.State();
      PlacedThenLater(first, placed, followed, r);
      if filled.Raised? {
        return Raised(filled.failure);
      }
      result := Conclude(r, k.value, filled.value);
      PlacedThenLater(first, followed, client.State(), r);
      if result.Answer? && Still(first, r) {
        LaterTwice(placed, followed, client.State());
        PlacedAccounts(first, placed, client.State(), r, result.value, k.value);
      }
    }

    /** `execute`. */
    method Execute(r: Request, authorized: bool, quoteFresh: bool) returns (result: Reply<PaperResult>)
      requires client.Valid() && lease.Valid() && Resting(client.pc) && ValidRequest(r)
      modifies client
      ensures client.Valid() && Resting(client.pc)
      // At most one order is placed: only when authorized, and for a fresh identity if the history is short.
      ensures Later(old(client.State()), client.State()) || PlacedOne(old(client.State()), client.State(), r)
      ensures !Later(old(client.State()), client.State()) ==> authorized && (r.action.Buy? ==> quoteFresh)
      ensures Load(old(client.State())) <= HISTORY_LIMIT && Unused(old(client.flight), r.clientId) ==>
                && (OnceAll(old(client.State())) ==> OnceAll(client.State()))
                && (!Later(old(client.State()), client.State()) ==> Unused(old(client.orders), r.clientId))
      // A result names a finished order and a position that the account has shown.
      ensures result.Answer? ==> Shows(r, result.value) && Decided(client.State(), r, result.value)
      ensures result.Answer? ==> PositionShown(client.State(), r, result.value, client.prompt)
      // With nothing else live on the symbol the account has moved by exactly that order's fill; so a "not
      // filled" leaves it unchanged exactly when the order has no fill, and always when positions are current.
      ensures result.Answer? && Calm(old(client.State()), r) ==>
                Accounted(old(client.State()), client.State(), r, result.value)
      ensures result.Answer? && Calm(old(client.State()), r) && client.prompt && result.value.verdict.NotFilled? ==>
                HeldNow(client.State(), r.symbol) == HeldNow(old(client.State()), r.symbol)
      ensures result.Answer? && Calm(old(client.State()), r) && client.prompt ==>
                Supports(client.orders, r, result.value)
    {
      ghost var first := client.State();
      LaterSame(first, client.pc);
      var refusal := Refusal(r, authorized, quoteFresh);
      if refusal.Some? {
        return Raised(refusal.value);
      }
      var existing := Inspect(r, true);
      ghost var seen := client.State();
      if existing.Raised? {
        return Raised(existing.failure);
      }
      if existing.value.Some? {
        if existing.value.value.verdict.Unresolved? {
          return Raised(UnresolvedHistory);
        }
        CalmFindsNothing(first, seen, r, existing.value.value);
        return Answer(existing.value.value);
      }
      result := ExecuteNew(r);
      LaterThenPlaced(first, seen, client.State(), r);
      if Load(first) <= HISTORY_LIMIT && Unused(first.flight, r.clientId) {
        UnusedBefore(first, seen, r);
      }
      if result.Answer? && Calm(first, r) {
        StillStays(first, seen, r);
        AccountedSince(first, seen, client.State(), r, result.value);
        if client.prompt {
          ReachableInv(client.opening, client.State());
          AccountedSupports(first, client.State(), r, result.value);
        }
      }
    }

    /** The checks before the broker is asked anything. */
    method Refusal(r: Request, authorized: bool, quoteFresh: bool) returns (failure: Option<Failure>)
      requires lease.Valid()
      ensures failure.None? ==> authorized && (r.action.Buy? ==> quoteFresh)
      ensures failure.None? && r.action.Buy? ==> r.limitPrice * r.quantity as real <= maxNotional
    {
      var owned := lease.AssertOwned();
      if !owned {
        return Some(LeaseLost);
      }
      if !authorized {
        return Some(NotAuthorized);
      }
      if r.action.Buy? && !quoteFresh {
        return Some(QuoteStale);
      }
      if r.action.Buy? && r.limitPrice * r.quantity as real > maxNotional {
        return Some(NotionalGuard);
      }
      failure := None;
    }

    /** The part of `execute` for an identity the history does not show. */
    method ExecuteNew(r: Request) returns (result: Reply<PaperResult>)
      requires client.Valid() && client.pc == Unseen(r)
      modifies client
      ensures client.Valid() && Resting(client.pc)
      ensures Later(old(client.State()), client.State()) || PlacedOne(old(client.State()), client.State(), r)
      ensures result.Answer? ==> PlacedOne(old(client.State()), client.State(), r)
      ensures result.Answer? ==> Decided(client.State(), r, result.value)
      ensures result.Answer? ==> PositionShown(client.State(), r, result.value, client.prompt)
      ensures result.Answer? && Still(old(client.State()), r) ==>
                Accounted(old(client.State()), client.State(), r, result.value)
      ensures result.Answer? && Still(old(client.State()), r) && client.prompt && result.value.verdict.NotFilled? ==>
                HeldNow(client.State(), r.symbol) == HeldNow(old(client.State()), r.symbol)
    {
      ghost var first := client.State();
      var refusal := Admit(r);
      ghost var admitted := client.State();
      if refusal.Some? {
        return Raised(refusal.value);
      }
      result := PlaceAndFollow(r);
      LaterThenPlaced(first, admitted, client.State(), r);
      if result.Answer? && Still(first, r) {
        StillStays(first, admitted, r);
        AccountedSince(first, admitted, client.State(), r, result.value);
      }
    }

    /** `flatten_with_identity`. */
    method FlattenWithIdentity(symbol: Symbol, limitPrice: real, clientId: nat, authorized: bool)
      returns (result: Reply<PaperResult>)
      requires client.Valid() && lease.Valid() && Resting(client.pc)
      modifies client
      ensures client.Valid() && Resting(client.pc)
      ensures Later(old(client.State()), client.State()) ||
              exists r: Request :: r.action.Sell? && r.clientId == clientId && r.symbol == symbol
                          && PlacedOne(old(client.State()), client.State(), r)
      ensures result.Answer? ==>
                result.value.verdict.NotFilled? || (result.value.positionAfter == 0 &&
                                                    (client.prompt ==> HeldNow(client.State(), symbol) == 0))
    {
      ghost var first := client.State();
      var before, p := Position(symbol);
      ghost var read := client.State();
      if before.Raised? {
        return Raised(before.failure);
      }
      ReachableInv(client.opening, read);
      if before.value == 0 {
        return Answer(PaperResult(AlreadyFlat, 0, 0, 0));
      }
      var request := Request(Sell, symbol, limitPrice, before.value, clientId, before.value);
      if !ValidRequest(request) {
        return Raised(InvalidRequest);
      }
      result := Execute(request, authorized, false);
      if Later(read, client.State()) {
        LaterTwice(first, read, client.State());
      } else {
        LaterThenPlaced(first, read, client.State(), request);
      }
    }
  }

  function PositionRefusal(r: Request, before: Reply<int>): Option<Failure> {
    if before.Raised? then Some(before.failure)
    else if before.value != r.expectedBefore then Some(PositionChanged)
    else if before.value + SignedShares(r.action, r.quantity) < 0 then Some(WouldBeShort)
    else None
  }

  function EstimateRefusal(r: Request, capacity: Option<int>, previewed: bool): Option<Failure> {
    if capacity.None? then Some(CapacityUnavailable)
    else if capacity.value < r.quantity then Some(CapacityExceeded)
    else if !previewed then Some(PreviewRejected)
    else None
  }

  /** Nothing is under way, the identity is unused and the symbol is quiet. */
  predicate Still(w: World, r: Request) {
    w.flight == [] && Unused(w.orders, r.clientId) && Quiet(w.orders, r.symbol)
  }

  /** And the history fits one page. */
  predicate Calm(w: World, r: Request) {
    Still(w, r) && |w.orders| <= HISTORY_LIMIT
  }

  predicate AccountedBy(w: World, w': World, r: Request, result: PaperResult, k: nat) {
    && Explains(w', r, result, k)
    && HeldNow(w', r.symbol) == HeldNow(w, r.symbol) + SignedShares(r.action, w'.orders[k].filled)
    && (forall j | 0 <= j < |w'.orders| && j != k :: w'.orders[j].clientId != Some(r.clientId))
  }

  /** The finished order behind the result is the identity's only one, and all that has moved the symbol. */
  ghost predicate Accounted(w: World, w': World, r: Request, result: PaperResult) {
    exists k: nat :: AccountedBy(w, w', r, result, k)
  }

  /** A filled result, or one that left the account unchanged, is borne out by the order for good. */
  lemma AccountedSupports(w: World, w': World, r: Request, result: PaperResult)
    requires Accounted(w, w', r, result) && OrdersOk(w'.orders)
    requires result.verdict.Filled? || HeldNow(w', r.symbol) == HeldNow(w, r.symbol)
    ensures Supports(w'.orders, r, result)
  {
    var k: nat :| AccountedBy(w, w', r, result, k);
    assert SupportedBy(w'.orders, k, r, result);
  }

  lemma StillStays(w: World, w': World, r: Request)
    requires Later(w, w') && Still(w, r)
    ensures Still(w', r)
  {
    QuietStays(w.orders, w'.orders, r.symbol);
    assert Fresh(w, r.clientId);
  }

  lemma ToldStays(w: World, pc: Pc, r: Request, result: PaperResult, prompt: bool)
    ensures PositionShown(w, r, result, prompt) ==> PositionShown(w.(pc := pc), r, result, prompt)
    ensures Decided(w, r, result) ==> Decided(w.(pc := pc), r, result)
  {
    if PositionShown(w, r, result, prompt) {
      var p :| 0 <= p < |w.past| && HeldAt(w, p, r.symbol) == result.positionAfter;
      assert HeldAt(w.(pc := pc), p, r.symbol) == result.positionAfter;
    }
    if Decided(w, r, result) {
      var k: nat :| Explains(w, r, result, k);
      assert Explains(w.(pc := pc), r, result, k);
    }
  }

  lemma CalmFindsNothing(first: World, seen: World, r: Request, result: PaperResult)
    requires Later(first, seen) && Decided(seen, r, result)
    ensures !Calm(first, r)
  {
    var k: nat :| Explains(seen, r, result, k);
    assert Calm(first, r) ==> Fresh(first, r.clientId);
  }

  /** An empty look at a short history, with nothing of the identity under way, finds it really unused. */
  lemma UnusedBefore(first: World, seen: World, r: Request)
    requires Later(first, seen) && (|seen.orders| <= HISTORY_LIMIT ==> Unused(seen.orders, r.clientId))
    requires Load(first) <= HISTORY_LIMIT && Unused(first.flight, r.clientId)
    ensures Fresh(first, r.clientId)
  {
    forall i | 0 <= i < |first.orders|
      ensures first.orders[i].clientId != Some(r.clientId)
    {
      assert OrderEvolves(first.orders[i], seen.orders[i]);
    }
  }

  lemma QuietStays(a: seq<PaperOrder>, b: seq<PaperOrder>, symbol: Symbol)
    requires |a| == |b| && Evolves(a, b) && Quiet(a, symbol)
    ensures Quiet(b, symbol)
  {
    forall i | 0 <= i < |b| && b[i].symbol == symbol
      ensures Ended(b[i].status)
    {
      assert OrderEvolves(a[i], b[i]);
    }
  }

  /** On a quiet symbol with nothing under way the position stays. */
  lemma QuietHolds(a: World, b: World, c: World, symbol: Symbol)
    requires Later(a, b) && Later(b, c)
    ensures a.flight == [] && Quiet(a.orders, symbol) ==> HeldNow(c, symbol) == HeldNow(b, symbol) == HeldNow(a, symbol)
  {
    if a.flight == [] && Quiet(a.orders, symbol) {
      QuietMoves(a.orders, b.orders, symbol);
      LaterTwice(a, b, c);
      QuietMoves(a.orders, c.orders, symbol);
    }
  }

  lemma PlacedThenLater(a: World, b: World, c: World, r: Request)
    requires PlacedOne(a, b, r) && Later(b, c)
    ensures PlacedOne(a, c, r)
  {
    EvolvesTransitive(a.orders, b.orders, c.orders);
  }

  lemma LaterThenPlaced(a: World, b: World, c: World, r: Request)
    requires Later(a, b)
    ensures PlacedOne(b, c, r) ==> PlacedOne(a, c, r)
    ensures Later(b, c) ==> Later(a, c)
  {
    if Later(b, c) {
      LaterTwice(a, b, c);
    }
    if PlacedOne(b, c, r) {
      EvolvesTransitive(a.orders, b.orders, c.orders);
    }
  }

  lemma PlacedAccounts(first: World, placed: World, w: World, r: Request, result: PaperResult, k: nat)
    requires Still(first, r) && PlacedOne(first, placed, r) && Later(placed, w)
    requires placed.flight == [] && k == |first.orders| == |placed.orders| - 1 && Explains(w, r, result, k)
    ensures Accounted(first, w, r, result)
  {
    EvolvesTransitive(first.orders, placed.orders, w.orders);
    OnlyTheNewOrderMoves(first.orders, w.orders, r.symbol);
    forall j | 0 <= j < |w.orders| && j != k
      ensures w.orders[j].clientId != Some(r.clientId)
    {
      assert OrderEvolves(first.orders[j], w.orders[j]);
    }
    assert AccountedBy(first, w, r, result, k);
  }

  lemma AccountedSince(a: World, b: World, c: World, r: Request, result: PaperResult)
    requires Later(a, b) && Still(a, r) && Accounted(b, c, r, result)
    ensures Accounted(a, c, r, result) && HeldNow(a, r.symbol) == HeldNow(b, r.symbol)
  {
    QuietMoves(a.orders, b.orders, r.symbol);
    var k: nat :| AccountedBy(b, c, r, result, k);
    assert AccountedBy(a, c, r, result, k);
  }
}
