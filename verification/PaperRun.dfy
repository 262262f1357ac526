/** The paper session as a state machine: one process at a time, which may raise or die between any two of
its calls, and a broker that is slow.

A placed order is under way until the broker accepts or drops it, which may happen long after the process
that placed it has died.  A position is answered from any earlier moment, and so is each order; the history
read shows any hundred of the accepted orders, and never one that is still under way.
*/
module PaperRuns {
  import opened Contracts
  import opened PaperOrders

  /** Where the current call is; a finished or dead call leaves nothing behind but its answer. */
  datatype Pc =
    | Idle
    | Unseen(r: Request)
    | Found(r: Request, o: PaperOrder, placing: bool)
    | Admitted(r: Request)
    | Placing(r: Request, reference: nat)
    | Following(r: Request, k: nat)
    | Watched(r: Request, k: nat, filled: int)
    | Answered(r: Request, result: PaperResult)

  datatype World = World(
    opening: map<Symbol, int>, orders: seq<PaperOrder>, flight: seq<PaperOrder>, past: seq<seq<PaperOrder>>,
    references: nat, pc: Pc)

  /** `Look` starts `execute`, or `reconcile` when it is not `placing`. */
  datatype Move =
    | Look(r: Request, history: seq<PaperOrder>, placing: bool)
    | ReadFound(p: nat)
    | Admit(p: nat, passed: bool)
    | Place
    | Reply(k: nat)
    | Watch(p: nat)
    | Conclude(p: nat)
    | Die
    | Accept(j: nat)
    | Drop(j: nat)
    | Evolve(next: seq<PaperOrder>)

  function HeldIn(opening: map<Symbol, int>, orders: seq<PaperOrder>, symbol: Symbol): int {
    (if symbol in opening then opening[symbol] else 0) + Moves(orders, symbol)
  }

  /** The position as it was at moment `p`. */
  function HeldAt(w: World, p: nat, symbol: Symbol): int
    requires p < |w.past|
  {
    HeldIn(w.opening, w.past[p], symbol)
  }

  function HeldNow(w: World, symbol: Symbol): int {
    HeldIn(w.opening, w.orders, symbol)
  }

  predicate Resting(pc: Pc) {
    pc.Idle? || pc.Answered?
  }

  function Without<T>(s: seq<T>, j: nat): seq<T>
    requires j < |s|
  {
    s[..j] + s[j + 1..]
  }

  /** At most a hundred orders, each as some moment so far showed it. */
  predicate Page(history: seq<PaperOrder>, past: seq<seq<PaperOrder>>) {
    |history| <= HISTORY_LIMIT && forall o | o in history :: exists p | 0 <= p < |past| :: o in past[p]
  }

  /** Moment `p` shows the order complete or ended. */
  predicate EndedAt(past: seq<seq<PaperOrder>>, p: nat, k: nat, quantity: int) {
    p < |past| && k < |past[p]| && (past[p][k].filled == quantity || Ended(past[p][k].status))
  }

  predicate Can(w: World, m: Move) {
    match m
    case Look(r, history, _) => Resting(w.pc) && ValidRequest(r) && Page(history, w.past)
    case ReadFound(p) => w.pc.Found? && p < |w.past|
    case Admit(p, _) => w.pc.Unseen? && p < |w.past|
    case Place => w.pc.Admitted?
    case Reply(k) => w.pc.Placing? && k < |w.orders| && w.orders[k].reference == w.pc.reference
    case Watch(p) => w.pc.Following? && EndedAt(w.past, p, w.pc.k, w.pc.r.quantity)
    case Conclude(p) => w.pc.Watched? && p < |w.past|
    case Die => true
    case Accept(j) => j < |w.flight|
    case Drop(j) => j < |w.flight|
    case Evolve(next) => |next| == |w.orders| && Evolves(w.orders, next) && OrdersOk(next)
  }

  /** What the history read leads to. */
  function Seen(r: Request, history: seq<PaperOrder>, placing: bool): Pc {
    var matches := Matching(history, r.clientId);
    if matches == [] then (if placing then Unseen(r) else Idle)
    else if |matches| != 1 || !SameTerms(r, matches[0]) then Idle
    else Found(r, matches[0], placing)
  }

  /** `execute` raises on an unresolved order, `reconcile` reports it. */
  function Judged(r: Request, o: PaperOrder, position: int, placing: bool): Pc {
    var result := Classified(r, o, position);
    if placing && result.verdict.Unresolved? then Idle else Answered(r, result)
  }

  function Ending(r: Request, filled: int, position: int): Pc {
    var conclusion := Concluded(r, filled, position);
    if conclusion.Answer? then Answered(r, conclusion.value) else Idle
  }

  predicate Admissible(r: Request, position: int, passed: bool) {
    position == r.expectedBefore && position + SignedShares(r.action, r.quantity) >= 0 && passed
  }

  function Moved(w: World, m: Move): World
    requires Can(w, m)
  {
    match m
    case Look(r, history, placing) => w.(pc := Seen(r, history, placing))
    case ReadFound(p) => w.(pc := Judged(w.pc.r, w.pc.o, HeldAt(w, p, w.pc.r.symbol), w.pc.placing))
    case Admit(p, passed) =>
      w.(pc := if Admissible(w.pc.r, HeldAt(w, p, w.pc.r.symbol), passed) then Admitted(w.pc.r) else Idle)
    case Place =>
      w.(flight := w.flight + [Sent(w.pc.r, w.references)], references := w.references + 1,
         pc := Placing(w.pc.r, w.references))
    case Reply(k) => w.(pc := Following(w.pc.r, k))
    case Watch(p) => w.(pc := Watched(w.pc.r, w.pc.k, w.past[p][w.pc.k].filled))
    case Conclude(p) => w.(pc := Ending(w.pc.r, w.pc.filled, HeldAt(w, p, w.pc.r.symbol)))
    case Die => w.(pc := Idle)
    case Accept(j) =>
      var orders := w.orders + [w.flight[j]];
      w.(orders := orders, flight := Without(w.flight, j), past := w.past + [orders])
    case Drop(j) => w.(flight := Without(w.flight, j))
    case Evolve(next) => w.(orders := next, past := w.past + [next])
  }

  function Start(opening: map<Symbol, int>): World {
    World(opening, [], [], [[]], 0, Idle)
  }

  ghost predicate Runs(w: World, moves: seq<Move>, w': World)
    decreases |moves|
  {
    if moves == [] then w' == w
    else Can(w, moves[0]) && Runs(Moved(w, moves[0]), moves[1..], w')
  }

  lemma RunsSnoc(w: World, moves: seq<Move>, w': World, m: Move)
    requires Runs(w, moves, w') && Can(w', m)
    ensures Runs(w, moves + [m], Moved(w', m))
    decreases |moves|
  {
    if moves == [] {
      assert [m][1..] == [];
    } else {
      RunsSnoc(Moved(w, moves[0]), moves[1..], w', m);
      assert (moves + [m])[1..] == moves[1..] + [m];
    }
  }

  lemma RunsNext(w: World, moves: seq<Move>, k: nat, here: World, next: World)
    requires k < |moves| && Runs(w, moves[..k], here) && Can(here, moves[k]) && next == Moved(here, moves[k])
    ensures Runs(w, moves[..k + 1], next)
  {
    RunsSnoc(w, moves[..k], here, moves[k]);
    assert moves[..k] + [moves[k]] == moves[..k + 1];
  }

  // ---- What every run keeps ---------------------------------------------------------------

  predicate PastOk(w: World) {
    && w.past != [] && w.past[|w.past| - 1] == w.orders
    && forall p, q | 0 <= p <= q < |w.past| :: Evolves(w.past[p], w.past[q])
  }

  predicate NewOrder(o: PaperOrder) {
    o.filled == 0 && o.status.Live? && 0 < o.quantity && o.clientId.Some?
  }

  predicate FlightOk(w: World) {
    forall j | 0 <= j < |w.flight| :: NewOrder(w.flight[j]) && w.flight[j].reference < w.references
  }

  predicate OrderListOk(w: World) {
    OrdersOk(w.orders) && forall i | 0 <= i < |w.orders| :: w.orders[i].reference < w.references
  }

  /** Everything under this reference is the order of this request. */
  predicate Carries(orders: seq<PaperOrder>, reference: nat, r: Request) {
    forall i | 0 <= i < |orders| && orders[i].reference == reference :: SameTerms(r, orders[i])
  }

  /** The order is complete or has ended, with exactly this fill. */
  predicate SettledAt(orders: seq<PaperOrder>, k: nat, r: Request, filled: int) {
    && k < |orders| && SameTerms(r, orders[k]) && filled == orders[k].filled
    && (filled == r.quantity || Ended(orders[k].status))
  }

  predicate PcOk(w: World) {
    && (!w.pc.Idle? ==> ValidRequest(w.pc.r))
    && match w.pc
       case Placing(r, reference) =>
         reference < w.references && Carries(w.orders, reference, r) && Carries(w.flight, reference, r)
       case Following(r, k) => k < |w.orders| && SameTerms(r, w.orders[k])
       case Watched(r, k, filled) => SettledAt(w.orders, k, r, filled)
       case Found(r, o, _) => SameTerms(r, o) && exists i | 0 <= i < |w.orders| :: OrderEvolves(o, w.orders[i])
       case _ => true
  }

  predicate Inv(w: World) {
    PastOk(w) && FlightOk(w) && OrderListOk(w) && PcOk(w)
  }

  lemma StartInv(opening: map<Symbol, int>)
    ensures Inv(Start(opening)) && Once(Start(opening))
  {
  }

  lemma PastGrows(w: World, orders: seq<PaperOrder>)
    requires PastOk(w) && Evolves(w.orders, orders)
    ensures PastOk(w.(orders := orders, past := w.past + [orders]))
  {
    var past := w.past + [orders];
    forall p, q | 0 <= p <= q < |past|
      ensures Evolves(past[p], past[q])
    {
      if q == |w.past| && p < q {
        EvolvesTransitive(past[p], w.orders, orders);
      }
    }
  }

  /** The moves of the broker, as opposed to those of the session. */
  predicate ByBroker(m: Move) {
    m.Accept? || m.Drop? || m.Evolve?
  }

  lemma BrokerMoveEvolves(w: World, m: Move)
    requires Inv(w) && Can(w, m) && ByBroker(m)
    ensures Evolves(w.orders, Moved(w, m).orders) && PastOk(Moved(w, m))
  {
    if m.Accept? {
      PastGrows(w, Moved(w, m).orders);
    } else if m.Evolve? {
      PastGrows(w, Moved(w, m).orders);
    }
  }

  lemma BrokerMoveLists(w: World, m: Move)
    requires Inv(w) && Can(w, m) && ByBroker(m)
    ensures FlightOk(Moved(w, m)) && OrderListOk(Moved(w, m))
  {
    if m.Evolve? {
      forall i | 0 <= i < |w.orders|
        ensures m.next[i].reference < w.references
      {
        assert OrderEvolves(w.orders[i], m.next[i]);
      }
    }
  }

  lemma EvolvedTerms(a: seq<PaperOrder>, b: seq<PaperOrder>, reference: nat, r: Request)
    requires Carries(a, reference, r) && |a| == |b| && Evolves(a, b)
    ensures Carries(b, reference, r)
  {
    forall i | 0 <= i < |b| && b[i].reference == reference
      ensures SameTerms(r, b[i])
    {
      assert OrderEvolves(a[i], b[i]);
    }
  }

  lemma SettledStays(a: seq<PaperOrder>, b: seq<PaperOrder>, k: nat, r: Request, filled: int)
    requires Evolves(a, b) && OrdersOk(b) && SettledAt(a, k, r, filled)
    ensures SettledAt(b, k, r, filled)
  {
    assert OrderEvolves(a[k], b[k]);
  }

  lemma FoundStays(a: seq<PaperOrder>, b: seq<PaperOrder>, o: PaperOrder)
    requires Evolves(a, b) && exists i | 0 <= i < |a| :: OrderEvolves(o, a[i])
    ensures exists i | 0 <= i < |b| :: OrderEvolves(o, b[i])
  {
    var i :| 0 <= i < |a| && OrderEvolves(o, a[i]);
    assert OrderEvolves(a[i], b[i]);
    assert OrderEvolves(o, b[i]);
  }

  lemma BrokerMovePc(w: World, m: Move)
    requires Inv(w) && Can(w, m) && ByBroker(m)
    ensures PcOk(Moved(w, m))
  {
    var w' := Moved(w, m);
    BrokerMoveEvolves(w, m);
    BrokerMoveLists(w, m);
    match w.pc
    case Placing(r, reference) =>
      if m.Evolve? {
        EvolvedTerms(w.orders, m.next, reference, r);
      }
    case Following(r, k) => assert OrderEvolves(w.orders[k], w'.orders[k]);
    case Watched(r, k, filled) => SettledStays(w.orders, w'.orders, k, r, filled);
    case Found(r, o, _) => FoundStays(w.orders, w'.orders, o);
    case _ =>
  }

  lemma MoveInv(w: World, m: Move)
    requires Inv(w) && Can(w, m)
    ensures Inv(Moved(w, m)) && Evolves(w.orders, Moved(w, m).orders)
  {
    if ByBroker(m) {
      BrokerMoveEvolves(w, m);
      BrokerMoveLists(w, m);
      BrokerMovePc(w, m);
    } else if m.Look? {
      LookPc(w, m);
    } else if m.Watch? {
      EndedStays(w, m.p, w.pc.k, w.pc.r);
    }
  }

  /** What was once seen of a finished order is what it is now. */
  lemma EndedStays(w: World, p: nat, k: nat, r: Request)
    requires PastOk(w) && OrdersOk(w.orders) && k < |w.orders| && SameTerms(r, w.orders[k])
    requires EndedAt(w.past, p, k, r.quantity)
    ensures SettledAt(w.orders, k, r, w.past[p][k].filled)
  {
    assert Evolves(w.past[p], w.past[|w.past| - 1]);
    assert OrderEvolves(w.past[p][k], w.orders[k]);
  }

  lemma LookPc(w: World, m: Move)
    requires Inv(w) && m.Look? && Can(w, m)
    ensures PcOk(Moved(w, m))
  {
    var pc := Moved(w, m).pc;
    if pc.Found? {
      assert pc.o in m.history;
      var p :| 0 <= p < |w.past| && pc.o in w.past[p];
      var i :| 0 <= i < |w.past[p]| && w.past[p][i] == pc.o;
      assert Evolves(w.past[p], w.past[|w.past| - 1]);
      assert OrderEvolves(pc.o, w.orders[i]);
    }
  }

  lemma {:induction false} RunsInv(w: World, moves: seq<Move>, w': World)
    requires Inv(w) && Runs(w, moves, w')
    ensures Inv(w') && Evolves(w.orders, w'.orders)
    decreases |moves|
  {
    if moves != [] {
      var next := Moved(w, moves[0]);
      MoveInv(w, moves[0]);
      RunsInv(next, moves[1..], w');
      EvolvesTransitive(w.orders, next.orders, w'.orders);
    }
  }

  // ---- One order for one identity ---------------------------------------------------------

  /** No order, accepted or under way, carries the identity. */
  predicate Fresh(w: World, clientId: nat) {
    Unused(w.orders, clientId) && Unused(w.flight, clientId)
  }

  predicate Apart(a: seq<PaperOrder>, b: seq<PaperOrder>) {
    forall i, j | 0 <= i < |a| && 0 <= j < |b| && a[i].clientId.Some? :: a[i].clientId != b[j].clientId
  }

  /** Accepted or under way, no two orders carry one identity, and a request about to be placed is fresh. */
  predicate Once(w: World) {
    && OnceEach(w.orders) && OnceEach(w.flight) && Apart(w.orders, w.flight)
    && (w.pc.Unseen? || w.pc.Admitted? ==> Fresh(w, w.pc.r.clientId))
  }

  /** The history read missed an order of the identity that is accepted or under way. */
  predicate Blind(w: World, m: Move) {
    m.Look? && m.placing && Matching(m.history, m.r.clientId) == [] && !Fresh(w, m.r.clientId)
  }

  lemma AcceptOnce(w: World, j: nat)
    requires Once(w) && j < |w.flight|
    ensures Once(Moved(w, Accept(j)))
  {
    var w' := Moved(w, Accept(j));
    forall i | 0 <= i < |w'.flight|
      ensures w'.flight[i] == w.flight[if i < j then i else i + 1]
    {
    }
  }

  lemma DropOnce(w: World, j: nat)
    requires Once(w) && j < |w.flight|
    ensures Once(Moved(w, Drop(j)))
  {
    var w' := Moved(w, Drop(j));
    forall i | 0 <= i < |w'.flight|
      ensures w'.flight[i] == w.flight[if i < j then i else i + 1]
    {
    }
  }

  lemma EvolveOnce(w: World, next: seq<PaperOrder>)
    requires Once(w) && Can(w, Evolve(next))
    ensures Once(Moved(w, Evolve(next)))
  {
    assert forall i | 0 <= i < |next| :: OrderEvolves(w.orders[i], next[i]);
  }

  lemma MoveOnce(w: World, m: Move)
    requires Once(w) && Can(w, m) && !Blind(w, m)
    ensures Once(Moved(w, m))
  {
    if m.Accept? {
      AcceptOnce(w, m.j);
    } else if m.Drop? {
      DropOnce(w, m.j);
    } else if m.Evolve? {
      EvolveOnce(w, m.next);
    }
  }

  ghost predicate NeverBlind(w: World, moves: seq<Move>)
    decreases |moves|
  {
    moves == [] || (Can(w, moves[0]) && !Blind(w, moves[0]) && NeverBlind(Moved(w, moves[0]), moves[1..]))
  }

  lemma {:induction false} RunsOnce(w: World, moves: seq<Move>, w': World)
    requires Once(w) && Runs(w, moves, w') && NeverBlind(w, moves)
    ensures Once(w')
    decreases |moves|
  {
    if moves != [] {
      MoveOnce(w, moves[0]);
      RunsOnce(Moved(w, moves[0]), moves[1..], w');
    }
  }

  /** Over every run - any number of calls for any identities, deaths at any point, orders accepted long
  after the process that placed them has died - no identity is carried by two orders, as long as no
  history read misses an order that is accepted or under way. */
  lemma OneOrderPerIdentity(opening: map<Symbol, int>, moves: seq<Move>, w: World)
    requires Runs(Start(opening), moves, w) && NeverBlind(Start(opening), moves)
    ensures OnceEach(w.orders) && OnceEach(w.flight) && Apart(w.orders, w.flight)
  {
    StartInv(opening);
    RunsOnce(Start(opening), moves, w);
  }

  // ---- Exactly when a second order is possible --------------------------------------------

  predicate NoLook(moves: seq<Move>) {
    forall i | 0 <= i < |moves| :: !moves[i].Look?
  }

  lemma {:induction false} NoLookNeverBlind(w: World, moves: seq<Move>, w': World)
    requires Runs(w, moves, w') && NoLook(moves)
    ensures NeverBlind(w, moves)
    decreases |moves|
  {
    if moves != [] {
      NoLookNeverBlind(Moved(w, moves[0]), moves[1..], w');
    }
  }

  predicate Twice(orders: seq<PaperOrder>, clientId: nat) {
    exists i, j | 0 <= i < j < |orders| ::
      orders[i].clientId == Some(clientId) && orders[j].clientId == Some(clientId)
  }

  /** Some continuation of this call, without another look at the history, ends with two accepted orders of
  the identity. */
  ghost predicate CanDouble(w: World, clientId: nat) {
    exists moves: seq<Move>, w': World :: Doubles(w, moves, w', clientId)
  }

  ghost predicate Doubles(w: World, moves: seq<Move>, w': World, clientId: nat) {
    Runs(w, moves, w') && NoLook(moves) && Twice(w'.orders, clientId)
  }

  lemma OnceCannotDouble(w: World, clientId: nat)
    requires Once(w)
    ensures !CanDouble(w, clientId)
  {
    if CanDouble(w, clientId) {
      var moves, w' :| Doubles(w, moves, w', clientId);
      NoLookNeverBlind(w, moves, w');
      RunsOnce(w, moves, w');
    }
  }

  lemma RunsOne(w: World, m: Move, moves: seq<Move>, w': World)
    requires Can(w, m) && Runs(Moved(w, m), moves, w')
    ensures Runs(w, [m] + moves, w')
  {
    assert ([m] + moves)[1..] == moves;
  }

  /** At moment `p` the account held what the request expects to find. */
  predicate Expected(w: World, r: Request, p: nat) {
    p < |w.past| && HeldAt(w, p, r.symbol) == r.expectedBefore
  }

  /** The request is admitted on an old position, placed, and accepted after the other order. */
  lemma PlacesAgain(w: World, r: Request, p: nat) returns (moves: seq<Move>, w': World)
    requires w.pc == Unseen(r) && ValidRequest(r) && Expected(w, r, p) && !Unused(w.orders, r.clientId)
    ensures Doubles(w, moves, w', r.clientId)
  {
    var w1 := Moved(w, Admit(p, true));
    var w2 := Moved(w1, Place);
    w' := Moved(w2, Accept(|w.flight|));
    moves := [Admit(p, true)] + ([Place] + ([Accept(|w.flight|)] + []));
    assert Runs(w', [], w');
    RunsOne(w2, Accept(|w.flight|), [], w');
    RunsOne(w1, Place, [Accept(|w.flight|)] + [], w');
    RunsOne(w, Admit(p, true), [Place] + ([Accept(|w.flight|)] + []), w');
    var i :| 0 <= i < |w.orders| && w.orders[i].clientId == Some(r.clientId);
    assert w'.orders[i].clientId == Some(r.clientId) && w'.orders[|w.orders|].clientId == Some(r.clientId);
  }

  /** What a look that found nothing makes possible: a second accepted order if and only if it was blind -
  some order of the identity was accepted or still under way - given that the account has at some moment
  held what the request expects, so that an old answer can still admit it. */
  lemma SecondOrderIffBlind(opening: map<Symbol, int>, run: seq<Move>, w: World, m: Move, p: nat)
    requires Runs(Start(opening), run, w) && NeverBlind(Start(opening), run)
    requires m.Look? && m.placing && Can(w, m) && Matching(m.history, m.r.clientId) == []
    requires Expected(w, m.r, p)
    ensures CanDouble(Moved(w, m), m.r.clientId) <==> Blind(w, m)
  {
    StartInv(opening);
    RunsOnce(Start(opening), run, w);
    var w1 := Moved(w, m);
    if !Blind(w, m) {
      MoveOnce(w, m);
      OnceCannotDouble(w1, m.r.clientId);
    } else {
      BlindDoubles(w1, m.r, p);
    }
  }

  lemma BlindDoubles(w: World, r: Request, p: nat)
    requires w.pc == Unseen(r) && ValidRequest(r) && Expected(w, r, p) && !Fresh(w, r.clientId)
    ensures CanDouble(w, r.clientId)
  {
    if !Unused(w.orders, r.clientId) {
      var moves, w' := PlacesAgain(w, r, p);
      assert Doubles(w, moves, w', r.clientId);
    } else {
      var j :| 0 <= j < |w.flight| && w.flight[j].clientId == Some(r.clientId);
      var w1 := Moved(w, Accept(j));
      assert w1.orders[|w.orders|].clientId == Some(r.clientId);
      assert Expected(w1, r, p);
      var moves, w' := PlacesAgain(w1, r, p);
      RunsOne(w, Accept(j), moves, w');
      assert Doubles(w, [Accept(j)] + moves, w', r.clientId);
    }
  }

  /** What a request with these terms expects to find. */
  function Before(o: PaperOrder): int {
    if o.action.Buy? then 0 else o.quantity
  }

  /** Each order was admitted when the account, at some moment, held what it expected. */
  ghost predicate WellAdmitted(w: World, o: PaperOrder) {
    exists p | 0 <= p < |w.past| :: HeldAt(w, p, o.symbol) == Before(o)
  }

  ghost predicate AllWellAdmitted(w: World) {
    && (forall o | o in w.orders || o in w.flight :: WellAdmitted(w, o))
    && (w.pc.Admitted? ==> WellAdmitted(w, Sent(w.pc.r, 0)))
  }

  lemma WellAdmittedStays(w: World, o: PaperOrder, w': World, o': PaperOrder)
    requires WellAdmitted(w, o) && w'.opening == w.opening && w.past <= w'.past
    requires o'.symbol == o.symbol && Before(o') == Before(o)
    ensures WellAdmitted(w', o')
  {
    var p :| 0 <= p < |w.past| && HeldAt(w, p, o.symbol) == Before(o);
    assert HeldAt(w', p, o'.symbol) == Before(o');
  }

  lemma MoveWellAdmitted(w: World, m: Move)
    requires Inv(w) && AllWellAdmitted(w) && Can(w, m)
    ensures AllWellAdmitted(Moved(w, m))
  {
    var w' := Moved(w, m);
    forall o | o in w'.orders || o in w'.flight
      ensures WellAdmitted(w', o)
    {
      if m.Evolve? && o in w'.orders {
        var i :| 0 <= i < |w'.orders| && w'.orders[i] == o;
        assert OrderEvolves(w.orders[i], o) && w.orders[i] in w.orders;
        WellAdmittedStays(w, w.orders[i], w', o);
      } else if m.Place? && o !in w.orders && o !in w.flight {
        WellAdmittedStays(w, Sent(w.pc.r, 0), w', o);
      } else {
        assert m.Accept? ==> w.flight[m.j] in w.flight;
        WellAdmittedStays(w, o, w', o);
      }
    }
    if w'.pc.Admitted? {
      AdmittedExpected(w, m);
    }
  }

  lemma AdmittedExpected(w: World, m: Move)
    requires Inv(w) && AllWellAdmitted(w) && Can(w, m) && Moved(w, m).pc.Admitted?
    ensures WellAdmitted(Moved(w, m), Sent(Moved(w, m).pc.r, 0))
  {
    var w' := Moved(w, m);
    if m.Admit? {
      assert HeldAt(w', m.p, w'.pc.r.symbol) == Before(Sent(w'.pc.r, 0));
    } else {
      WellAdmittedStays(w, Sent(w.pc.r, 0), w', Sent(w.pc.r, 0));
    }
  }

  lemma {:induction false} RunsWellAdmitted(w: World, moves: seq<Move>, w': World)
    requires Inv(w) && AllWellAdmitted(w) && Runs(w, moves, w')
    ensures Inv(w') && AllWellAdmitted(w')
    decreases |moves|
  {
    if moves != [] {
      MoveInv(w, moves[0]);
      MoveWellAdmitted(w, moves[0]);
      RunsWellAdmitted(Moved(w, moves[0]), moves[1..], w');
    }
  }

  /** Every order of the identity has the terms of this request: the call is a retry. */
  ghost predicate Retries(w: World, r: Request) {
    forall o | (o in w.orders || o in w.flight) && o.clientId == Some(r.clientId) :: SameTerms(r, o)
  }

  lemma RetryExpected(opening: map<Symbol, int>, run: seq<Move>, w: World, r: Request) returns (p: nat)
    requires Runs(Start(opening), run, w) && ValidRequest(r) && Retries(w, r) && !Fresh(w, r.clientId)
    ensures Expected(w, r, p)
  {
    StartInv(opening);
    RunsWellAdmitted(Start(opening), run, w);
    var o :| (o in w.orders || o in w.flight) && o.clientId == Some(r.clientId);
    assert WellAdmitted(w, o);
    p :| 0 <= p < |w.past| && HeldAt(w, p, o.symbol) == Before(o);
  }

  /** For a retried request, with no other condition: after a look that found nothing a second accepted order
  is possible if and only if the look missed one that is accepted or under way. */
  lemma RetryDoublesIffBlind(opening: map<Symbol, int>, run: seq<Move>, w: World, m: Move)
    requires Runs(Start(opening), run, w) && NeverBlind(Start(opening), run)
    requires m.Look? && m.placing && Can(w, m) && Matching(m.history, m.r.clientId) == [] && Retries(w, m.r)
    ensures CanDouble(Moved(w, m), m.r.clientId) <==> Blind(w, m)
  {
    if Blind(w, m) {
      var p := RetryExpected(opening, run, w, m.r);
      SecondOrderIffBlind(opening, run, w, m, p);
    } else {
      StartInv(opening);
      RunsOnce(Start(opening), run, w);
      MoveOnce(w, m);
      OnceCannotDouble(Moved(w, m), m.r.clientId);
    }
  }

  lemma NewestIsPage(w: World, p: nat)
    requires p < |w.past|
    ensures Page(Newest(w.past[p]), w.past)
  {
    forall o | o in Newest(w.past[p])
      ensures o in w.past[p]
    {
    }
  }

  /** At an earlier moment too an identity has one order. */
  lemma OnceEarlier(w: World, p: nat)
    requires PastOk(w) && p < |w.past| && OnceEach(w.orders)
    ensures OnceEach(w.past[p])
    ensures forall i | 0 <= i < |w.past[p]| :: w.past[p][i].clientId == w.orders[i].clientId
  {
    assert Evolves(w.past[p], w.past[|w.past| - 1]);
    forall i | 0 <= i < |w.past[p]|
      ensures w.past[p][i].clientId == w.orders[i].clientId
    {
      assert OrderEvolves(w.past[p][i], w.orders[i]);
    }
  }

  /** When the history read answers with the newest hundred orders of some moment, the retry of an accepted
  order can be placed and accepted a second time if and only if the order is older than those or newer than
  that moment. */
  lemma ForgottenIffNotListed(opening: map<Symbol, int>, run: seq<Move>, w: World, p: nat, k: nat, r: Request)
    requires Runs(Start(opening), run, w) && NeverBlind(Start(opening), run)
    requires Resting(w.pc) && ValidRequest(r) && k < |w.orders| && SameTerms(r, w.orders[k]) && p < |w.past|
    ensures Can(w, Look(r, Newest(w.past[p]), true))
    ensures CanDouble(Moved(w, Look(r, Newest(w.past[p]), true)), r.clientId) <==>
            !(|w.past[p]| - HISTORY_LIMIT <= k < |w.past[p]|)
  {
    StartInv(opening);
    RunsInv(Start(opening), run, w);
    RunsOnce(Start(opening), run, w);
    NewestIsPage(w, p);
    OnceEarlier(w, p);
    OnlyCarrier(w, k, r);
    var m := Look(r, Newest(w.past[p]), true);
    NotListedIff(w.past[p], k, r.clientId);
    if Matching(m.history, r.clientId) == [] {
      RetryDoublesIffBlind(opening, run, w, m);
    } else {
      MoveOnce(w, m);
      OnceCannotDouble(Moved(w, m), r.clientId);
    }
  }

  lemma NotListedIff(orders: seq<PaperOrder>, k: nat, clientId: nat)
    requires OnceEach(orders)
    requires forall i | 0 <= i < |orders| :: orders[i].clientId == Some(clientId) <==> i == k
    ensures Matching(Newest(orders), clientId) == [] <==> !(|orders| - HISTORY_LIMIT <= k < |orders|)
  {
    if k < |orders| {
      ListedIffNewest(orders, k, clientId);
    }
  }

  lemma OnlyCarrier(w: World, k: nat, r: Request)
    requires Once(w) && k < |w.orders| && SameTerms(r, w.orders[k])
    ensures Retries(w, r) && !Fresh(w, r.clientId)
    ensures forall i | 0 <= i < |w.orders| :: w.orders[i].clientId == Some(r.clientId) <==> i == k
  {
    forall j | 0 <= j < |w.flight|
      ensures w.flight[j].clientId != Some(r.clientId)
    {
      assert w.orders[k].clientId != w.flight[j].clientId;
    }
    forall i | 0 <= i < |w.orders| && w.orders[i].clientId == Some(r.clientId)
      ensures i == k
    {
    }
  }

  const BUY := Request(Buy, 7, 10.0, 0, 1, 5)

  /** The process dies with its order under way; the next one reads a history without it. */
  const DEATH := [
    Look(BUY, [], true), Admit(0, true), Place, Die, Look(BUY, [], true), Admit(0, true), Place, Accept(0), Accept(0)]

  function DeathAt(k: nat): World {
    var w := Start(map[]);
    var a, b := Sent(BUY, 0), Sent(BUY, 1);
    match k
    case 0 => w
    case 1 => w.(pc := Unseen(BUY))
    case 2 => w.(pc := Admitted(BUY))
    case 3 => w.(flight := [a], references := 1, pc := Placing(BUY, 0))
    case 4 => w.(flight := [a], references := 1, pc := Idle)
    case 5 => w.(flight := [a], references := 1, pc := Unseen(BUY))
    case 6 => w.(flight := [a], references := 1, pc := Admitted(BUY))
    case 7 => w.(flight := [a, b], references := 2, pc := Placing(BUY, 1))
    case 8 => w.(orders := [a], flight := [b], past := [[], [a]], references := 2, pc := Placing(BUY, 1))
    case _ => w.(orders := [a, b], flight := [], past := [[], [a], [a, b]], references := 2, pc := Placing(BUY, 1))
  }

  lemma DeathStep(k: nat)
    requires k < 7
    ensures Can(DeathAt(k), DEATH[k]) && Moved(DeathAt(k), DEATH[k]) == DeathAt(k + 1)
  {
    assert Moves([], 7) == 0;
  }

  lemma AcceptsFirst(w: World, a: PaperOrder, rest: seq<PaperOrder>)
    requires w.flight == [a] + rest
    ensures Can(w, Accept(0))
    ensures Moved(w, Accept(0)) == w.(orders := w.orders + [a], flight := rest, past := w.past + [w.orders + [a]])
  {
    assert Without(w.flight, 0) == rest;
  }

  lemma DeathAccepts()
    ensures Can(DeathAt(7), DEATH[7]) && Moved(DeathAt(7), DEATH[7]) == DeathAt(8)
  {
    var a, b := Sent(BUY, 0), Sent(BUY, 1);
    AcceptsFirst(DeathAt(7), a, [b]);
    assert DeathAt(7).orders + [a] == [a];
  }

  lemma DeathAcceptsAgain()
    ensures Can(DeathAt(8), DEATH[8]) && Moved(DeathAt(8), DEATH[8]) == DeathAt(9)
  {
    var a, b := Sent(BUY, 0), Sent(BUY, 1);
    AcceptsFirst(DeathAt(8), b, []);
    assert [a] + [b] == [a, b];
  }

  lemma {:induction false} DeathRuns(k: nat)
    requires k <= |DEATH|
    ensures Runs(Start(map[]), DEATH[..k], DeathAt(k))
  {
    if k > 0 {
      DeathRuns(k - 1);
      if k - 1 < 7 {
        DeathStep(k - 1);
      } else if k == 8 {
        DeathAccepts();
      } else {
        DeathAcceptsAgain();
      }
      RunsNext(Start(map[]), DEATH, k - 1, DeathAt(k - 1), DeathAt(k));
    }
  }

  /** So without the condition the promise fails: one identity, two accepted orders. */
  lemma DeathInFlightDoubles()
    ensures Runs(Start(map[]), DEATH, DeathAt(9)) && Twice(DeathAt(9).orders, BUY.clientId)
  {
    DeathRuns(9);
    assert DEATH[..9] == DEATH;
    assert DeathAt(9).orders[0].clientId == Some(1) && DeathAt(9).orders[1].clientId == Some(1);
  }

  // ---- What "not filled" means ------------------------------------------------------------

  /** From moment `a` on, nothing but order `k` could move the symbol. */
  predicate OnlyMover(w: World, a: nat, k: nat, symbol: Symbol) {
    && a < |w.past| && |w.past[a]| <= k < |w.orders| && w.orders[k].symbol == symbol && Quiet(w.past[a], symbol)
    && forall i | |w.past[a]| <= i < |w.orders| && i != k :: w.orders[i].symbol != symbol
  }

  /** The fill of order `k` as moment `p` shows it. */
  function FilledAt(w: World, p: nat, k: nat): int
    requires p < |w.past|
  {
    if k < |w.past[p]| then w.past[p][k].filled else 0
  }

  lemma {:induction false} OneMover(a: seq<PaperOrder>, b: seq<PaperOrder>, k: nat, symbol: Symbol)
    requires Evolves(a, b) && Quiet(a, symbol) && |a| <= k
    requires forall i | |a| <= i < |b| && i != k :: b[i].symbol != symbol
    requires k < |b| ==> b[k].symbol == symbol
    ensures Moves(b, symbol) == Moves(a, symbol) + if k < |b| then SignedShares(b[k].action, b[k].filled) else 0
    decreases |b|
  {
    if |b| == |a| {
      QuietMoves(a, b, symbol);
    } else {
      OneMover(a, b[..|b| - 1], k, symbol);
    }
  }

  lemma PositionShowsFill(w: World, a: nat, p: nat, k: nat, r: Request)
    requires Inv(w) && OnlyMover(w, a, k, r.symbol) && a <= p < |w.past| && SameTerms(r, w.orders[k])
    ensures HeldAt(w, p, r.symbol) == HeldAt(w, a, r.symbol) + SignedShares(r.action, FilledAt(w, p, k))
  {
    var n := |w.past| - 1;
    assert Evolves(w.past[a], w.past[p]) && Evolves(w.past[p], w.past[n]);
    forall i | 0 <= i < |w.past[p]|
      ensures w.past[p][i].symbol == w.orders[i].symbol && w.past[p][i].action == w.orders[i].action
    {
      assert OrderEvolves(w.past[p][i], w.orders[i]);
    }
    OneMover(w.past[a], w.past[p], k, r.symbol);
  }

  /** `execute` has watched its order end without filling completely, and nothing else moved the symbol since
  it was admitted.  It answers "not filled" if and only if the position it reads is older than the order's
  first fill, or, when it is even older than the admission, shows the same shares as then; the account is
  really unchanged, and `reconcile` says the same once positions are current, if and only if there was no
  fill. */
  lemma NotFilledTruth(w: World, a: nat, p: nat)
    requires Inv(w) && w.pc.Watched? && w.pc.filled != w.pc.r.quantity
    requires OnlyMover(w, a, w.pc.k, w.pc.r.symbol) && HeldAt(w, a, w.pc.r.symbol) == w.pc.r.expectedBefore
    requires p < |w.past|
    requires forall j | 0 <= j < |w.orders| && j != w.pc.k :: w.orders[j].clientId != Some(w.pc.r.clientId)
    ensures Moved(w, Conclude(p)).pc.Answered? <==>
            if p < a then HeldAt(w, p, w.pc.r.symbol) == HeldAt(w, a, w.pc.r.symbol) else FilledAt(w, p, w.pc.k) == 0
    ensures HeldNow(w, w.pc.r.symbol) == w.pc.r.expectedBefore <==> w.pc.filled == 0
    ensures Moved(w, Conclude(p)).pc.Answered? ==>
      var result := Moved(w, Conclude(p)).pc.result;
      result.verdict.NotFilled? &&
      (Reconciled(w.pc.r, w.orders, HeldNow(w, w.pc.r.symbol)) == Answer(Some(result)) <==> w.pc.filled == 0)
  {
    var r, k, n := w.pc.r, w.pc.k, |w.past| - 1;
    if a <= p {
      PositionShowsFill(w, a, p, k, r);
    }
    PositionShowsFill(w, a, n, k, r);
    OneMatch(w.orders, k, r.clientId);
    if HeldNow(w, r.symbol) == r.expectedBefore {
      AgreeIffNotPartial(r, w.orders[k], r.expectedBefore);
    }
  }

  /** When positions are never behind, `execute` calls an order not filled only if it was not. */
  lemma CurrentPositionIsTrue(w: World, a: nat)
    requires Inv(w) && w.pc.Watched? && w.pc.filled != w.pc.r.quantity
    requires OnlyMover(w, a, w.pc.k, w.pc.r.symbol) && HeldAt(w, a, w.pc.r.symbol) == w.pc.r.expectedBefore
    ensures Moved(w, Conclude(|w.past| - 1)).pc.Answered? <==> w.pc.filled == 0
  {
    PositionShowsFill(w, a, |w.past| - 1, w.pc.k, w.pc.r);
  }

  const PARTIAL := Sent(BUY, 0).(filled := 3)
  const STOPPED := PARTIAL.(status := Status.Cancelled)

  /** Three of five shares are bought before the order is cancelled; `execute` still reads the position of the
  first moment, and `reconcile` afterwards the current one. */
  const LAG := [
    Look(BUY, [], true), Admit(0, true), Place, Accept(0), Reply(0), Evolve([PARTIAL]), Evolve([STOPPED]), Watch(3),
    Conclude(0), Look(BUY, [STOPPED], false), ReadFound(3)]

  const NOT_FILLED := PaperResult(NotFilled, 0, 0, 0)

  function LagAt(k: nat): World {
    var w, a := Start(map[]), Sent(BUY, 0);
    var past := [[], [a], [PARTIAL], [STOPPED]];
    var ended := w.(orders := [STOPPED], past := past, references := 1);
    match k
    case 0 => w
    case 1 => w.(pc := Unseen(BUY))
    case 2 => w.(pc := Admitted(BUY))
    case 3 => w.(flight := [a], references := 1, pc := Placing(BUY, 0))
    case 4 => w.(orders := [a], past := past[..2], references := 1, pc := Placing(BUY, 0))
    case 5 => w.(orders := [a], past := past[..2], references := 1, pc := Following(BUY, 0))
    case 6 => w.(orders := [PARTIAL], past := past[..3], references := 1, pc := Following(BUY, 0))
    case 7 => ended.(pc := Following(BUY, 0))
    case 8 => ended.(pc := Watched(BUY, 0, 3))
    case 9 => ended.(pc := Answered(BUY, NOT_FILLED))
    case 10 => ended.(pc := Found(BUY, STOPPED, false))
    case _ => ended.(pc := Answered(BUY, PaperResult(Unresolved, 3, 0, 3)))
  }

  lemma LagPositions()
    ensures Moves([], 7) == 0 && Moves([STOPPED], 7) == 3 && Without([Sent(BUY, 0)], 0) == []
    ensures Matching([STOPPED], 1) == [STOPPED]
  {
    assert [STOPPED][..0] == [];
  }

  lemma LagStarts(k: nat)
    requires k < 2
    ensures Can(LagAt(k), LAG[k]) && Moved(LagAt(k), LAG[k]) == LagAt(k + 1)
  {
    LagPositions();
  }

  lemma LagPlaces()
    ensures Can(LagAt(2), LAG[2]) && Moved(LagAt(2), LAG[2]) == LagAt(3)
  {
  }

  lemma LagAccepts()
    ensures Can(LagAt(3), LAG[3]) && Moved(LagAt(3), LAG[3]) == LagAt(4)
  {
    AcceptsFirst(LagAt(3), Sent(BUY, 0), []);
    assert LagAt(3).orders + [Sent(BUY, 0)] == [Sent(BUY, 0)];
  }

  lemma LagReplies()
    ensures Can(LagAt(4), LAG[4]) && Moved(LagAt(4), LAG[4]) == LagAt(5)
  {
    assert LAG[4] == Reply(0) && LagAt(4).orders[0] == Sent(BUY, 0);
  }

  lemma LagFills(k: nat)
    requires 5 <= k < 8
    ensures Can(LagAt(k), LAG[k]) && Moved(LagAt(k), LAG[k]) == LagAt(k + 1)
  {
  }

  lemma LagConcludes()
    ensures Can(LagAt(8), LAG[8]) && Moved(LagAt(8), LAG[8]) == LagAt(9)
  {
    assert LAG[8] == Conclude(0);
    OldPositionEnds(LagAt(8));
  }

  lemma OldPositionEnds(w: World)
    requires w.opening == map[] && w.pc == Watched(BUY, 0, 3) && w.past != [] && w.past[0] == []
    ensures Can(w, Conclude(0)) && Moved(w, Conclude(0)) == w.(pc := Answered(BUY, NOT_FILLED))
  {
  }

  lemma LagLooks()
    ensures Can(LagAt(9), LAG[9]) && Moved(LagAt(9), LAG[9]) == LagAt(10)
  {
    LagPositions();
    assert LAG[9] == Look(BUY, [STOPPED], false) && LagAt(9).past[3] == [STOPPED];
  }

  lemma LagJudges()
    ensures Can(LagAt(10), LAG[10]) && Moved(LagAt(10), LAG[10]) == LagAt(11)
  {
    assert LAG[10] == ReadFound(3);
    NewPositionDiffers(LagAt(10));
  }

  lemma NewPositionDiffers(w: World)
    requires w.opening == map[] && w.pc == Found(BUY, STOPPED, false) && |w.past| == 4 && w.past[3] == [STOPPED]
    ensures Can(w, ReadFound(3))
    ensures Moved(w, ReadFound(3)) == w.(pc := Answered(BUY, PaperResult(Unresolved, 3, 0, 3)))
  {
    LagPositions();
  }

  lemma LagStep(k: nat)
    requires k < 11
    ensures Can(LagAt(k), LAG[k]) && Moved(LagAt(k), LAG[k]) == LagAt(k + 1)
  {
    if k < 2 {
      LagStarts(k);
    } else if k == 2 {
      LagPlaces();
    } else if k == 3 {
      LagAccepts();
    } else if k == 4 {
      LagReplies();
    } else if k < 8 {
      LagFills(k);
    } else if k == 8 {
      LagConcludes();
    } else if k == 9 {
      LagLooks();
    } else {
      LagJudges();
    }
  }

  lemma {:induction false} LagRuns(k: nat)
    requires k <= |LAG|
    ensures Runs(Start(map[]), LAG[..k], LagAt(k))
  {
    if k > 0 {
      LagRuns(k - 1);
      LagStep(k - 1);
      RunsNext(Start(map[]), LAG, k - 1, LagAt(k - 1), LagAt(k));
    }
  }

  lemma LagHolds()
    ensures HeldNow(LagAt(9), BUY.symbol) == 3
  {
    LagPositions();
  }

  /** `execute` answers "not filled" with three shares bought, and `reconcile` calls the same order unresolved. */
  lemma PartialFillDisagrees()
    ensures Runs(Start(map[]), LAG[..9], LagAt(9)) && LagAt(9).pc == Answered(BUY, NOT_FILLED)
    ensures HeldNow(LagAt(9), BUY.symbol) == 3
    ensures Runs(Start(map[]), LAG, LagAt(11)) && LagAt(11).pc == Answered(BUY, PaperResult(Unresolved, 3, 0, 3))
  {
    LagRuns(9);
    LagRuns(11);
    LagHolds();
    assert LAG[..11] == LAG;
  }
}
