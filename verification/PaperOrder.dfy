/** Orders of one paper account, the requests that are sent to it, and what an order and a position are
taken to mean for the request.
*/
module PaperOrders {
  import opened Contracts

  const HISTORY_LIMIT := 100
  const MAX_WHOLE_SHARES := 1000000

  datatype Request = Request(
    action: Side, symbol: Symbol, limitPrice: real, expectedBefore: int, clientId: nat, quantity: int)

  /** Whole shares, opened from nothing or closed in full. */
  predicate ValidRequest(r: Request) {
    && 0 < r.quantity <= MAX_WHOLE_SHARES && 0.0 < r.limitPrice
    && r.expectedBefore == if r.action.Buy? then 0 else r.quantity
  }

  datatype Status = Live | Cancelled | Expired | Filled | Rejected

  predicate Ended(s: Status) {
    !s.Live?
  }

  /** An order as the broker holds it, under its own reference; `plain` is a day order for a stock in
  regular hours. */
  datatype PaperOrder = PaperOrder(
    reference: nat, clientId: Option<nat>, action: Side, symbol: Symbol, quantity: int, limitPrice: real, plain: bool,
    filled: int, status: Status)

  datatype Verdict = Filled | NotFilled | AlreadyFlat | Unresolved

  datatype PaperResult = PaperResult(verdict: Verdict, quantity: int, positionBefore: int, positionAfter: int)

  datatype Failure =
    | LeaseLost | NotAuthorized | QuoteStale | NotionalGuard | UnresolvedHistory | PositionChanged
    | WouldBeShort | CapacityUnavailable | CapacityExceeded | PreviewRejected | NoReference
    | CancelUnconfirmed | PartialFill | PositionMismatch | IdentityNotUnique | IdentityChanged
    | InvalidRequest | BrokerFailed

  datatype Reply<+T> = Answer(value: T) | Raised(failure: Failure)

  function SignedShares(action: Side, quantity: int): int {
    if action.Buy? then quantity else -quantity
  }

  function ExpectedAfter(r: Request): int {
    r.expectedBefore + SignedShares(r.action, r.quantity)
  }

  function Sent(r: Request, reference: nat): PaperOrder {
    PaperOrder(reference, Some(r.clientId), r.action, r.symbol, r.quantity, r.limitPrice, true, 0, Status.Live)
  }

  // ---- The account ------------------------------------------------------------------------

  /** Shares of a symbol moved by all fills so far. */
  function Moves(orders: seq<PaperOrder>, symbol: Symbol): int {
    if orders == [] then 0
    else
      var last := orders[|orders| - 1];
      Moves(orders[..|orders| - 1], symbol)
      + if last.symbol == symbol then SignedShares(last.action, last.filled) else 0
  }

  predicate OrdersOk(orders: seq<PaperOrder>) {
    forall i | 0 <= i < |orders| ::
      && 0 <= orders[i].filled <= orders[i].quantity
      && (orders[i].status.Filled? ==> orders[i].filled == orders[i].quantity)
  }

  /** Fills only grow, terms never change, and an ended order is final. */
  predicate OrderEvolves(a: PaperOrder, b: PaperOrder) {
    && b == a.(filled := b.filled, status := b.status)
    && a.filled <= b.filled
    && (Ended(a.status) ==> b == a)
  }

  predicate Evolves(a: seq<PaperOrder>, b: seq<PaperOrder>) {
    |a| <= |b| && forall i | 0 <= i < |a| :: OrderEvolves(a[i], b[i])
  }

  predicate SameTerms(r: Request, o: PaperOrder) {
    && o.clientId == Some(r.clientId)
    && o.action == r.action && o.symbol == r.symbol && o.plain
    && o.quantity == r.quantity && o.limitPrice == r.limitPrice
  }

  predicate OnceEach(orders: seq<PaperOrder>) {
    forall i, j | 0 <= i < j < |orders| && orders[i].clientId.Some? :: orders[i].clientId != orders[j].clientId
  }

  predicate Unused(orders: seq<PaperOrder>, clientId: nat) {
    forall i | 0 <= i < |orders| :: orders[i].clientId != Some(clientId)
  }

  /** No other order can still move this symbol. */
  predicate Quiet(orders: seq<PaperOrder>, symbol: Symbol) {
    forall i | 0 <= i < |orders| && orders[i].symbol == symbol :: Ended(orders[i].status)
  }

  // ---- What one identity's history means --------------------------------------------------

  function Matching(history: seq<PaperOrder>, clientId: nat): (r: seq<PaperOrder>)
    ensures r == [] <==> Unused(history, clientId)
    ensures forall o | o in r :: o in history && o.clientId == Some(clientId)
  {
    if history == [] then []
    else
      var last := history[|history| - 1];
      var front := Matching(history[..|history| - 1], clientId);
      if last.clientId == Some(clientId) then front + [last] else front
  }

  /** How `reconcile` classifies the one order of an identity. */
  function Classified(r: Request, o: PaperOrder, position: int): PaperResult {
    if o.filled == r.quantity && position == ExpectedAfter(r)
      then PaperResult(Verdict.Filled, r.quantity, r.expectedBefore, position)
    else if Ended(o.status) && o.filled == 0 && position == r.expectedBefore
      then PaperResult(NotFilled, 0, r.expectedBefore, position)
    else PaperResult(Unresolved, o.filled, r.expectedBefore, position)
  }

  function Reconciled(r: Request, history: seq<PaperOrder>, position: int): Reply<Option<PaperResult>> {
    var matches := Matching(history, r.clientId);
    if matches == [] then Answer(None)
    else if |matches| != 1 then Raised(IdentityNotUnique)
    else if !SameTerms(r, matches[0]) then Raised(IdentityChanged)
    else Answer(Some(Classified(r, matches[0], position)))
  }

  /** What `execute` concludes from the last fill it saw and the position afterwards. */
  function Concluded(r: Request, filled: int, position: int): Reply<PaperResult> {
    if filled != r.quantity then
      if position != r.expectedBefore then Raised(PartialFill)
      else Answer(PaperResult(NotFilled, 0, r.expectedBefore, position))
    else if position != ExpectedAfter(r) then Raised(PositionMismatch)
    else Answer(PaperResult(Verdict.Filled, r.quantity, r.expectedBefore, position))
  }

  /** One finished order and one position: the two verdicts differ just when the fill is a partial one. */
  lemma AgreeIffNotPartial(r: Request, o: PaperOrder, position: int)
    requires ValidRequest(r) && SameTerms(r, o) && (o.filled == r.quantity || Ended(o.status))
    requires Concluded(r, o.filled, position).Answer?
    ensures Classified(r, o, position) == Concluded(r, o.filled, position).value <==>
            o.filled == 0 || o.filled == r.quantity
  {
  }

  // ---- Fills and positions ----------------------------------------------------------------

  /** While nothing else is live on the symbol, the position moves by exactly the new order's fill. */
  lemma {:induction false} QuietMoves(a: seq<PaperOrder>, b: seq<PaperOrder>, symbol: Symbol)
    requires |a| == |b| && Evolves(a, b) && Quiet(a, symbol)
    ensures Moves(a, symbol) == Moves(b, symbol)
  {
    if a != [] {
      var m := |a| - 1;
      assert OrderEvolves(a[m], b[m]);
      QuietMoves(a[..m], b[..m], symbol);
    }
  }

  lemma OnlyTheNewOrderMoves(a: seq<PaperOrder>, b: seq<PaperOrder>, symbol: Symbol)
    requires |b| == |a| + 1 && Evolves(a, b) && Quiet(a, symbol) && b[|a|].symbol == symbol
    ensures Moves(b, symbol) == Moves(a, symbol) + SignedShares(b[|a|].action, b[|a|].filled)
  {
    QuietMoves(a, b[..|a|], symbol);
  }

  lemma EvolvesTransitive(a: seq<PaperOrder>, b: seq<PaperOrder>, c: seq<PaperOrder>)
    requires Evolves(a, b) && Evolves(b, c)
    ensures Evolves(a, c)
  {
    forall i | 0 <= i < |a|
      ensures OrderEvolves(a[i], c[i])
    {
      assert OrderEvolves(a[i], b[i]) && OrderEvolves(b[i], c[i]);
    }
  }

  /** A filled result has moved the position by the signed quantity, an unfilled one not at all. */
  predicate Shows(r: Request, result: PaperResult) {
    && result.positionBefore == r.expectedBefore
    && ((result.verdict.Filled? && result.quantity == r.quantity && result.positionAfter == ExpectedAfter(r))
        || (result.verdict.NotFilled? && result.quantity == 0 && result.positionAfter == r.expectedBefore))
  }

  /** The identity's only order bears the result out. */
  predicate Supports(orders: seq<PaperOrder>, r: Request, result: PaperResult) {
    exists k | 0 <= k < |orders| :: SupportedBy(orders, k, r, result)
  }

  predicate SupportedBy(orders: seq<PaperOrder>, k: nat, r: Request, result: PaperResult)
    requires k < |orders|
  {
    && SameTerms(r, orders[k])
    && (forall j | 0 <= j < |orders| && j != k :: orders[j].clientId != Some(r.clientId))
    && result.positionBefore == r.expectedBefore
    && match result.verdict
       case Filled => orders[k].filled == r.quantity == result.quantity && result.positionAfter == ExpectedAfter(r)
       case NotFilled => Ended(orders[k].status) && orders[k].filled == 0 == result.quantity
                         && result.positionAfter == r.expectedBefore
       case _ => false
  }

  lemma OneMatch(orders: seq<PaperOrder>, k: nat, clientId: nat)
    requires k < |orders| && orders[k].clientId == Some(clientId)
    requires forall j | 0 <= j < |orders| && j != k :: orders[j].clientId != Some(clientId)
    ensures Matching(orders, clientId) == [orders[k]]
  {
    var m := |orders| - 1;
    if k == m {
      assert Unused(orders[..m], clientId);
    } else {
      OneMatch(orders[..m], k, clientId);
    }
  }

  /** Whatever the account does later - other identities' orders, other symbols - a later `reconcile`
  repeats what `execute` returned exactly as long as the position still shows it. */
  lemma LaterReconcileAgrees(orders: seq<PaperOrder>, later: seq<PaperOrder>, r: Request, result: PaperResult,
                             position: int)
    requires ValidRequest(r) && Supports(orders, r, result)
    requires Evolves(orders, later) && OrdersOk(later)
    requires forall j | |orders| <= j < |later| :: later[j].clientId != Some(r.clientId)
    ensures Reconciled(r, later, position) == Answer(Some(result)) <==> position == result.positionAfter
  {
    var k :| 0 <= k < |orders| && SupportedBy(orders, k, r, result);
    assert OrderEvolves(orders[k], later[k]);
    forall j | 0 <= j < |later| && j != k
      ensures later[j].clientId != Some(r.clientId)
    {
      if j < |orders| {
        assert OrderEvolves(orders[j], later[j]);
      }
    }
    OneMatch(later, k, r.clientId);
    assert 0 <= later[k].filled <= later[k].quantity;
  }

  /** One page of history, newest orders last. */
  function Newest(orders: seq<PaperOrder>): seq<PaperOrder> {
    if |orders| <= HISTORY_LIMIT then orders else orders[|orders| - HISTORY_LIMIT..]
  }

  /** A page of the newest orders shows an identity's one order exactly when it is among them. */
  lemma ListedIffNewest(orders: seq<PaperOrder>, k: nat, clientId: nat)
    requires OnceEach(orders) && k < |orders| && orders[k].clientId == Some(clientId)
    ensures Matching(Newest(orders), clientId) == if k < |orders| - HISTORY_LIMIT then [] else [orders[k]]
  {
    var page := Newest(orders);
    var first := |orders| - |page|;
    forall j | 0 <= j < |page| && first + j != k
      ensures page[j].clientId != Some(clientId)
    {
      assert page[j] == orders[first + j];
    }
    if k >= first {
      assert page[k - first] == orders[k];
      OneMatch(page, k - first, clientId);
    }
  }
}
