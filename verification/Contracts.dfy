/** The frozen records that cross the broker boundary, with the checks their validators make.

Identifiers (symbols, account numbers, revisions, audit ids, broker order ids) are opaque: only
equality matters, so they are natural numbers.  Hashes are injective, so a hash is represented by
what is hashed.  Decimal amounts are exact `real`s and instants are whole seconds.
*/
module Contracts {

  datatype Option<+T> = None | Some(value: T)

  datatype Result<+T> = Ok(value: T) | Err(error: Error)

  /** The constant codes of `BrokerError`, and the two failures that carry no code of their own. */
  datatype Error =
    | AuthorityInvalidated | IdentityMismatch | SnapshotStale | IdentityUnverified
    | ConfirmationRequired | PermissionUnverified | InitialAccountMustBeEmpty
    | TradingNotAuthorized | ReconciliationRequired | OpenOrdersRequireReconciliation
    | PositionDrift | UnsupportedExposure | QuoteStaleOrDelayed | SpreadExcessive | IntentExpired
    | OrderNotionalLimit | LimitPriceOutsideBand | InsufficientCash | ValuationUnavailable
    | GrossExposureLimit | SellExceedsOwned | ClientIdConflict | SubmissionUnconfirmed
    | ReconciliationUnconfirmed | OrderNotOwned | OrdersStillWorking | CancellationUnconfirmed
    | PlanRevisionMismatch | PlanIdentityConflict | PlanExpired | PlanAuditStale | AuditNotProven
    | EntryIdentityOwned | ActivePlanRequiresMonitoring | EntryIdentityNotUnique | PlanNotFound
    | AuditPlanMismatch | AuditReceiptConflict | TrustedQuoteUnavailable | ExitTermsInvalid
    | RouteConflict | ProfileConflict | ProfileNotConfigured | DeselectBeforeChange
    | RevokeBeforeChange | SettleBeforeChange | FreshFlatProofRequired | BrokerNotSelected
    | RevokeBeforeSwitch | ReconcileBeforeSwitch | RouteConfigurationChanged
    | AdapterFailed

  type Symbol = nat
  type PlanId = nat

  datatype Environment = Paper | Live

  datatype Provider = Tiger | Alpaca | Ibkr | Longport | Futu | Schwab

  /** `Profile.binding` hashes exactly this triple. */
  datatype Binding = Binding(provider: Provider, environment: Environment, account: nat)

  datatype Profile = Profile(
    binding: Binding, revision: nat, maxOrderNotional: real, maxGrossNotional: real,
    maxQuoteAge: int, maxSpreadBps: real)

  predicate ValidProfile(p: Profile) {
    && 0.0 < p.maxOrderNotional <= p.maxGrossNotional
    && 1 <= p.maxQuoteAge <= 30
    && 0.0 < p.maxSpreadBps
    && (p.binding.provider == Schwab ==> p.binding.environment == Live)
  }

  /** An exit id is the hash of `plan_id + ":exit:1"`; an entry id is chosen by the planner. */
  datatype ClientId = Named(id: nat) | ExitOf(plan: PlanId)

  datatype Side = Buy | Sell

  datatype Intent = Intent(
    clientId: ClientId, symbol: Symbol, side: Side, quantity: real, limitPrice: real,
    reference: nat, expiresAt: int)

  predicate Whole(x: real) {
    x == x.Floor as real
  }

  /** Whole positive shares and a positive price in cents, both of at most twelve digits. */
  predicate ValidIntent(i: Intent) {
    && 0.0 < i.quantity < 1000000000000.0 && Whole(i.quantity)
    && 0.0 < i.limitPrice < 10000000000.0 && Whole(i.limitPrice * 100.0)
  }

  function Notional(i: Intent): real {
    i.quantity * i.limitPrice
  }

  /** `Prepared` is a ledger state only; the other five are also the broker's order states. */
  datatype OrderState = Prepared | Working | Filled | Cancelled | Rejected | Unknown

  predicate Terminal(s: OrderState) {
    s.Filled? || s.Cancelled? || s.Rejected?
  }

  datatype Order = Order(
    orderId: nat, clientId: ClientId, symbol: Symbol, side: Side, quantity: real, filled: real,
    limitPrice: Option<real>, averagePrice: Option<real>, state: OrderState)

  predicate ValidOrder(o: Order) {
    && !o.state.Prepared?
    && 0.0 < o.quantity
    && 0.0 <= o.filled <= o.quantity
    && (o.state.Filled? ==> o.filled == o.quantity && o.averagePrice.Some?)
  }

  /** The order answers this very intent. */
  predicate Matches(i: Intent, o: Order) {
    && o.clientId == i.clientId
    && o.symbol == i.symbol
    && o.side == i.side
    && o.quantity == i.quantity
    && o.limitPrice == Some(i.limitPrice)
  }

  /** Proof that the broker received the order, and of nothing more. */
  function Receipt(i: Intent, orderId: nat): Order {
    Order(orderId, i.clientId, i.symbol, i.side, i.quantity, 0.0, Some(i.limitPrice), None, Unknown)
  }

  datatype Position = Position(symbol: Symbol, quantity: real, marketValue: Option<real>, usd: bool)

  datatype Snapshot = Snapshot(
    binding: Binding, verifiedAt: int, cash: real, buyingPower: real, positions: seq<Position>,
    orders: seq<Order>, accountVerified: bool, environmentVerified: bool, tradingPermitted: bool,
    previewRequired: bool)

  predicate ValidSnapshot(s: Snapshot) {
    && (forall i, j | 0 <= i < j < |s.positions| :: s.positions[i].symbol != s.positions[j].symbol)
    && (forall i, j | 0 <= i < j < |s.orders| :: s.orders[i].orderId != s.orders[j].orderId)
    && (forall i | 0 <= i < |s.orders| :: ValidOrder(s.orders[i]))
  }

  /** What the snapshot says is held of one symbol; symbols are not repeated. */
  function Quantity(positions: seq<Position>, symbol: Symbol): real {
    if positions == [] then 0.0
    else if positions[|positions| - 1].symbol == symbol then positions[|positions| - 1].quantity
    else Quantity(positions[..|positions| - 1], symbol)
  }

  function Gross(positions: seq<Position>): real {
    if positions == [] then 0.0
    else
      var value := positions[|positions| - 1].marketValue;
      Gross(positions[..|positions| - 1]) +
      if value.None? then 0.0 else if value.value < 0.0 then -value.value else value.value
  }

  /** Symbol by symbol, what the snapshot holds, without the symbols it holds nothing of. */
  function Holdings(positions: seq<Position>): map<Symbol, real> {
    map s | s in (set i | 0 <= i < |positions| :: positions[i].symbol) && Quantity(positions, s) != 0.0
      :: Quantity(positions, s)
  }

  datatype Quote = Quote(symbol: Symbol, bid: real, ask: real, observedAt: int, realtime: bool)

  predicate ValidQuote(q: Quote) {
    0.0 < q.bid <= q.ask
  }

  function SpreadBps(q: Quote): real
    requires ValidQuote(q)
  {
    (q.ask - q.bid) / q.bid * 10000.0
  }

  function Min(a: int, b: int): int {
    if a <= b then a else b
  }

  lemma QuantityOfMissing(positions: seq<Position>, symbol: Symbol)
    requires forall i | 0 <= i < |positions| :: positions[i].symbol != symbol
    ensures Quantity(positions, symbol) == 0.0
  {
    if positions != [] {
      QuantityOfMissing(positions[..|positions| - 1], symbol);
    }
  }

  /** The dictionary a snapshot is reduced to keeps every non-zero holding and nothing else. */
  lemma HoldingsExact(positions: seq<Position>, symbol: Symbol)
    ensures symbol in Holdings(positions) <==> Quantity(positions, symbol) != 0.0
    ensures symbol in Holdings(positions) ==> Holdings(positions)[symbol] == Quantity(positions, symbol)
  {
    if forall i | 0 <= i < |positions| :: positions[i].symbol != symbol {
      QuantityOfMissing(positions, symbol);
    }
  }
}
