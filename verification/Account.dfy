/** One account as a state machine over its durable writes.

A step is one durable write (a ledger row, a plan row, an audit receipt, the authority file), one
adapter call that may reach the broker (`Post`), or a crash, which loses only the volatile `phase`.
Everything the outside world answers - snapshots, quotes, clock readings, broker replies - is part
of the step, so a run is a sequence of steps and every interleaving with crashes is a run.
*/
module Accounts {
  import opened Contracts
  import opened Ledgers

  datatype Mode = Off | Entries | CloseOnly

  datatype Authority = Authority(mode: Mode, revision: nat, binding: Binding)

  /** What the process that holds the account's locks is in the middle of. */
  datatype Phase =
    | Idle
    | Dispatching(intent: Intent, deadline: int)
    | Posted(intent: Intent)
    | Revoking

  /** One call of `adapter.submit`; the deadline is the shortened expiry handed to it. */
  datatype Dispatch = Dispatch(intent: Intent, deadline: int)

  datatype Node = Node(
    profile: Profile, rows: seq<Row>, authority: Option<Authority>, plans: seq<PlanRow>,
    audits: map<PlanId, Audit>, phase: Phase, posts: seq<Dispatch>)

  datatype Receipt = Receipt(auditId: nat, expressionHash: nat, artifactHash: nat, planHash: Plan)

  /** Three readings of the clock, in the order the code takes them. */
  datatype Clock = Clock(first: int, second: int, third: int)

  datatype Step =
    | PutAudit(plan: Plan, receipt: Receipt)
    | Stage(plan: Plan, clock: Clock)
    | Prepare(intent: Intent, quote: Quote, snapshot: Snapshot, clock: Clock)
    | Post
    | Acknowledge(orderId: nat)
    | Reply(order: Order)
    | ReplyLost
    | Reconcile(id: ClientId, order: Order)
    | ReconcileFailed(id: ClientId)
    | CancelPending(id: ClientId)
    | PlanExpires(planId: PlanId, now: int)
    | PlanWaits(planId: PlanId)
    | PlanUnfilled(planId: PlanId)
    | PlanMonitors(planId: PlanId, quote: Quote, clock: Clock)
    | PlanExits(planId: PlanId, quote: Quote, clock: Clock)
    | ExitWaits(planId: PlanId)
    | ExitReview(planId: PlanId, now: int)
    | ExitCloses(planId: PlanId)
    | Authorize(snapshot: Snapshot, now: int)
    | RevokeAuthority
    | RevokePlans
    | CloseAuthority(snapshot: Snapshot, now: int)
    | Disarm(revision: nat)
    | Configure(profile: Profile)
    | Crash

  function Fresh(profile: Profile): Node {
    Node(profile, [], None, [], map[], Idle, [])
  }

  // ---- Authority and admission ------------------------------------------------------------

  /** `_authority()["mode"]`: no file is off, and another revision's file is invalid. */
  function EffectiveMode(profile: Profile, authority: Option<Authority>): Result<Mode> {
    if authority.None? then Ok(Off)
    else if authority.value.revision == profile.revision && authority.value.binding == profile.binding
      then Ok(authority.value.mode)
    else Err(AuthorityInvalidated)
  }

  function RawMode(authority: Option<Authority>): Mode {
    if authority.None? then Off else authority.value.mode
  }

  function SnapshotRefusal(profile: Profile, s: Snapshot, now: int): Option<Error> {
    if s.binding != profile.binding then Some(IdentityMismatch)
    else if !(0 <= now - s.verifiedAt <= 30) then Some(SnapshotStale)
    else if !(s.accountVerified && s.environmentVerified) then Some(IdentityUnverified)
    else None
  }

  predicate Permitted(profile: Profile, s: Snapshot) {
    s.tradingPermitted || (profile.binding.provider == Ibkr && s.previewRequired)
  }

  predicate QuoteFresh(profile: Profile, symbol: Symbol, q: Quote, now: int) {
    q.symbol == symbol && q.realtime && 0 <= now - q.observedAt <= profile.maxQuoteAge
  }

  function BuyRefusal(profile: Profile, intent: Intent, quote: Quote, s: Snapshot): Option<Error> {
    if Notional(intent) > profile.maxOrderNotional then Some(OrderNotionalLimit)
    else if !(quote.ask <= intent.limitPrice <= quote.ask * 1.005) then Some(LimitPriceOutsideBand)
    else if Notional(intent) * 1.01 > (if s.cash <= s.buyingPower then s.cash else s.buyingPower)
      then Some(InsufficientCash)
    else if exists i | 0 <= i < |s.positions| :: s.positions[i].marketValue.None?
      then Some(ValuationUnavailable)
    else if Gross(s.positions) + Notional(intent) > profile.maxGrossNotional then Some(GrossExposureLimit)
    else None
  }

  function SellRefusal(intent: Intent, quote: Quote, s: Snapshot): Option<Error> {
    if Quantity(s.positions, intent.symbol) < intent.quantity then Some(SellExceedsOwned)
    else if !(quote.bid * 0.995 <= intent.limitPrice <= quote.bid) then Some(LimitPriceOutsideBand)
    else None
  }

  /** The first gate of `submit` that refuses a new intent, or `None` when all of them pass. */
  function Refusal(
    profile: Profile, rows: seq<Row>, authority: Option<Authority>, intent: Intent, quote: Quote,
    s: Snapshot, clock: Clock): Option<Error>
    requires ValidQuote(quote)
  {
    var mode := EffectiveMode(profile, authority);
    if mode.Err? then Some(mode.error)
    else if !(mode.value.Entries? || (mode.value.CloseOnly? && intent.side.Sell?))
      then Some(TradingNotAuthorized)
    else if !NonePending(rows) then Some(ReconciliationRequired)
    else if SnapshotRefusal(profile, s, clock.first).Some? then SnapshotRefusal(profile, s, clock.first)
    else if !Permitted(profile, s) then Some(PermissionUnverified)
    else if s.orders != [] then Some(OpenOrdersRequireReconciliation)
    else if Holdings(s.positions) != Book(rows) then Some(PositionDrift)
    else if exists i | 0 <= i < |s.positions| :: !s.positions[i].usd || s.positions[i].quantity < 0.0
      then Some(UnsupportedExposure)
    else if !QuoteFresh(profile, intent.symbol, quote, clock.second) then Some(QuoteStaleOrDelayed)
    else if SpreadBps(quote) > profile.maxSpreadBps then Some(SpreadExcessive)
    else if clock.third >= intent.expiresAt then Some(IntentExpired)
    else if intent.side.Buy? then BuyRefusal(profile, intent, quote, s)
    else SellRefusal(intent, quote, s)
  }

  /** What an admitted intent is entitled to rely on. */
  lemma Admitted(
    profile: Profile, rows: seq<Row>, authority: Option<Authority>, intent: Intent, quote: Quote,
    s: Snapshot, clock: Clock)
    requires ValidQuote(quote) && Refusal(profile, rows, authority, intent, quote, s, clock).None?
    ensures EffectiveMode(profile, authority).Ok?
    ensures EffectiveMode(profile, authority).value.Entries? ||
            (EffectiveMode(profile, authority).value.CloseOnly? && intent.side.Sell?)
    ensures NonePending(rows)
    ensures s.orders == [] && Holdings(s.positions) == Book(rows)
    ensures intent.side.Buy? ==> Notional(intent) <= profile.maxOrderNotional
    ensures intent.side.Sell? ==> intent.quantity <= Quantity(s.positions, intent.symbol)
  {
  }

  // ---- Plans ------------------------------------------------------------------------------

  function PlanIndex(plans: seq<PlanRow>, id: PlanId): (i: int)
    ensures -1 <= i < |plans|
    ensures i >= 0 ==> plans[i].plan.planId == id
    ensures i < 0 ==> forall k | 0 <= k < |plans| :: plans[k].plan.planId != id
  {
    if plans == [] then -1
    else if plans[|plans| - 1].plan.planId == id then |plans| - 1
    else PlanIndex(plans[..|plans| - 1], id)
  }

  /** States in which `tick` does nothing any more. */
  predicate Final(s: PlanState) {
    s.Closed? || s.Expired? || s.Unfilled? || s.ManualReview?
  }

  /** States that free the account for another plan; a manual review does not. */
  predicate Inactive(s: PlanState) {
    s.Closed? || s.Expired? || s.Unfilled?
  }

  predicate Bound(profile: Profile, plan: Plan) {
    plan.binding == profile.binding && plan.revision == profile.revision
  }

  predicate Audited(audits: map<PlanId, Audit>, plan: Plan) {
    plan.planId in audits && audits[plan.planId].digest == plan && audits[plan.planId].auditId == plan.auditId
  }

  /** The first gate of `stage` that refuses a plan that is not stored yet. */
  function StageRefusal(
    profile: Profile, rows: seq<Row>, authority: Option<Authority>, plans: seq<PlanRow>,
    audits: map<PlanId, Audit>, plan: Plan, clock: Clock): Option<Error>
  {
    var mode := EffectiveMode(profile, authority);
    if mode.Err? then Some(mode.error)
    else if !mode.value.Entries? then Some(TradingNotAuthorized)
    else if clock.first >= plan.entry.expiresAt then Some(PlanExpired)
    else if !(0 <= clock.second - plan.auditedAt <= 300) then Some(PlanAuditStale)
    else if !Audited(audits, plan) then Some(AuditNotProven)
    else if Find(rows, plan.entry.clientId).Some? then Some(EntryIdentityOwned)
    else if exists i | 0 <= i < |plans| :: !Inactive(plans[i].state) then Some(ActivePlanRequiresMonitoring)
    else if exists i | 0 <= i < |plans| :: plans[i].plan.entry.clientId == plan.entry.clientId
      then Some(EntryIdentityNotUnique)
    else None
  }

  predicate ExitDue(plan: Plan, mode: Mode, quote: Quote, now: int) {
    !mode.Entries? || now >= plan.exitAt || quote.bid <= plan.stopPrice || quote.bid >= plan.targetPrice
  }

  /** Rounds down to whole cents. */
  function FloorCents(x: real): real {
    (x * 100.0).Floor as real / 100.0
  }

  function ExitIntent(profile: Profile, plan: Plan, filled: real, quote: Quote, now: int): Intent {
    Intent(
      ExitOf(plan.planId), plan.entry.symbol, Sell, filled, FloorCents(quote.bid * 0.9975),
      plan.auditId, Min(now + 10, quote.observedAt + profile.maxQuoteAge))
  }

  // ---- Steps ------------------------------------------------------------------------------

  /** The plan is stored, not final, and belongs to the account's current revision. */
  predicate Open(n: Node, id: PlanId) {
    var i := PlanIndex(n.plans, id);
    i >= 0 && !Final(n.plans[i].state) && Bound(n.profile, n.plans[i].plan)
  }

  function PlanAt(n: Node, id: PlanId): PlanRow
    requires Open(n, id)
  {
    n.plans[PlanIndex(n.plans, id)]
  }

  function EntryRow(n: Node, id: PlanId): Option<Row>
    requires Open(n, id)
  {
    Find(n.rows, PlanAt(n, id).plan.entry.clientId)
  }

  /** The plan still waits on its entry, whose order ended with a fill. */
  predicate EntryFilled(n: Node, id: PlanId) {
    && Open(n, id)
    && PlanAt(n, id).exitRequest.None?
    && EntryRow(n, id).Some?
    && Terminal(EntryRow(n, id).value.state)
    && EntryRow(n, id).value.result.Some?
    && EntryRow(n, id).value.result.value.filled != 0.0
  }

  function ExitRow(n: Node, id: PlanId): Option<Row>
    requires Open(n, id) && PlanAt(n, id).exitRequest.Some?
  {
    Find(n.rows, PlanAt(n, id).exitRequest.value.clientId)
  }

  predicate Exiting(n: Node, id: PlanId) {
    Open(n, id) && PlanAt(n, id).exitRequest.Some?
  }

  predicate Unresolved(row: Option<Row>) {
    row.Some? && (row.value.state.Working? || row.value.state.Unknown?)
  }

  /** The order a lookup may record on a row: it answers the request and nothing regresses. */
  predicate Progress(row: Row, order: Order) {
    && ValidOrder(order)
    && Matches(row.request, order)
    && (row.result.Some? ==>
          order.orderId == row.result.value.orderId && order.filled >= row.result.value.filled)
  }

  predicate Enabled(n: Node, s: Step) {
    match s
    case PutAudit(plan, receipt) =>
      && n.phase.Idle? && ValidPlan(plan) && Bound(n.profile, plan)
      && receipt.auditId == plan.auditId && receipt.planHash == plan && plan.planId !in n.audits
    case Stage(plan, clock) =>
      && n.phase.Idle? && ValidPlan(plan) && Bound(n.profile, plan)
      && PlanIndex(n.plans, plan.planId) < 0
      && StageRefusal(n.profile, n.rows, n.authority, n.plans, n.audits, plan, clock).None?
    case Prepare(intent, quote, snapshot, clock) =>
      && n.phase.Idle? && ValidIntent(intent) && ValidQuote(quote) && ValidSnapshot(snapshot)
      && Find(n.rows, intent.clientId).None?
      && Refusal(n.profile, n.rows, n.authority, intent, quote, snapshot, clock).None?
    case Post => n.phase.Dispatching?
    case Acknowledge(orderId) =>
      && n.phase.Posted?
      && Find(n.rows, n.phase.intent.clientId).Some?
      && Find(n.rows, n.phase.intent.clientId).value.result.None?
    case Reply(order) =>
      && n.phase.Posted?
      && Find(n.rows, n.phase.intent.clientId).Some?
      && Progress(Find(n.rows, n.phase.intent.clientId).value, order)
    case ReplyLost => n.phase.Posted?
    case Reconcile(id, order) =>
      && n.phase.Idle?
      && Find(n.rows, id).Some? && !Terminal(Find(n.rows, id).value.state)
      && Progress(Find(n.rows, id).value, order)
    case ReconcileFailed(id) =>
      n.phase.Idle? && Find(n.rows, id).Some? && !Terminal(Find(n.rows, id).value.state)
    case CancelPending(id) =>
      n.phase.Idle? && Unresolved(Find(n.rows, id)) && Find(n.rows, id).value.result.Some?
    case PlanExpires(id, now) =>
      && n.phase.Idle? && Open(n, id) && PlanAt(n, id).exitRequest.None? && EntryRow(n, id).None?
      && EffectiveMode(n.profile, n.authority).Ok?
      && (now >= PlanAt(n, id).plan.entry.expiresAt || !EffectiveMode(n.profile, n.authority).value.Entries?)
    case PlanWaits(id) =>
      && n.phase.Idle? && Open(n, id) && PlanAt(n, id).exitRequest.None? && Unresolved(EntryRow(n, id))
    case PlanUnfilled(id) =>
      && n.phase.Idle? && Open(n, id) && PlanAt(n, id).exitRequest.None?
      && EntryRow(n, id).Some? && Terminal(EntryRow(n, id).value.state)
      && EntryRow(n, id).value.result.Some? && EntryRow(n, id).value.result.value.filled == 0.0
    case PlanMonitors(id, quote, clock) =>
      && n.phase.Idle? && EntryFilled(n, id) && EffectiveMode(n.profile, n.authority).Ok?
      && QuoteFresh(n.profile, PlanAt(n, id).plan.entry.symbol, quote, clock.first)
      && !ExitDue(PlanAt(n, id).plan, EffectiveMode(n.profile, n.authority).value, quote, clock.second)
    case PlanExits(id, quote, clock) =>
      && n.phase.Idle? && EntryFilled(n, id) && EffectiveMode(n.profile, n.authority).Ok?
      && QuoteFresh(n.profile, PlanAt(n, id).plan.entry.symbol, quote, clock.first)
      && ExitDue(PlanAt(n, id).plan, EffectiveMode(n.profile, n.authority).value, quote, clock.second)
      && ValidIntent(FrozenExit(n, id, quote, clock))
    case ExitWaits(id) => n.phase.Idle? && Exiting(n, id) && Unresolved(ExitRow(n, id))
    case ExitReview(id, now) =>
      && n.phase.Idle? && Exiting(n, id)
      && (if ExitRow(n, id).None? then now >= PlanAt(n, id).exitRequest.value.expiresAt
          else ExitRow(n, id).value.state.Cancelled? || ExitRow(n, id).value.state.Rejected?)
    case ExitCloses(id) =>
      && n.phase.Idle? && Exiting(n, id)
      && ExitRow(n, id).Some? && ExitRow(n, id).value.state.Filled? && FlatAndSettled(n.rows)
    case Authorize(snapshot, now) =>
      && n.phase.Idle? && SnapshotRefusal(n.profile, snapshot, now).None? && Permitted(n.profile, snapshot)
      && snapshot.positions == [] && snapshot.orders == [] && FlatAndSettled(n.rows)
    case RevokeAuthority => n.phase.Idle?
    case RevokePlans => n.phase.Revoking?
    case CloseAuthority(snapshot, now) =>
      && n.phase.Idle? && EffectiveMode(n.profile, n.authority) == Ok(CloseOnly)
      && SnapshotRefusal(n.profile, snapshot, now).None?
      && snapshot.positions == [] && snapshot.orders == [] && Book(n.rows) == map[]
      && forall i | 0 <= i < |n.rows| :: n.rows[i].result.Some?
    case Disarm(revision) => n.phase.Idle? && RawMode(n.authority).Off? && FlatAndSettled(n.rows)
    case Configure(profile) =>
      && n.phase.Idle? && RawMode(n.authority).Off? && FlatAndSettled(n.rows)
      && ValidProfile(profile) && profile.binding == n.profile.binding
    case Crash => true
  }

  function FrozenExit(n: Node, id: PlanId, quote: Quote, clock: Clock): Intent
    requires EntryFilled(n, id)
  {
    ExitIntent(n.profile, PlanAt(n, id).plan, EntryRow(n, id).value.result.value.filled, quote, clock.third)
  }

  /** `_save`: an exit request, once written, is never replaced. */
  function Saved(n: Node, id: PlanId, state: PlanState, exit: Option<Intent>): Node
    requires Open(n, id)
  {
    var i := PlanIndex(n.plans, id);
    var exitRequest := if exit.Some? then exit else n.plans[i].exitRequest;
    n.(plans := n.plans[i := n.plans[i].(state := state, exitRequest := exitRequest)])
  }

  function WithAuthority(n: Node, mode: Mode): Node {
    n.(authority := Some(Authority(mode, n.profile.revision, n.profile.binding)))
  }

  function WithRow(n: Node, id: ClientId, state: OrderState, result: Option<Order>): Node {
    n.(rows := Recorded(n.rows, id, state, result))
  }

  /** The second write of `revoke`: staged plans with no submitted intent expire. */
  function RevokedPlans(rows: seq<Row>, plans: seq<PlanRow>): (r: seq<PlanRow>)
    ensures |r| == |plans|
    ensures forall i | 0 <= i < |plans| :: r[i] == RevokedPlan(rows, plans[i])
  {
    seq(|plans|, i requires 0 <= i < |plans| => RevokedPlan(rows, plans[i]))
  }

  function RevokedPlan(rows: seq<Row>, p: PlanRow): PlanRow {
    if p.state.Staged? && Find(rows, p.plan.entry.clientId).None? then p.(state := Expired) else p
  }

  function Apply(n: Node, s: Step): Node
    requires Enabled(n, s)
  {
    match s
    case PutAudit(plan, r) =>
      n.(audits := n.audits[plan.planId := Audit(plan, plan.auditId, r.expressionHash, r.artifactHash)])
    case Stage(plan, _) => n.(plans := n.plans + [PlanRow(plan, Staged, None)])
    case Prepare(intent, quote, _, _) =>
      n.(rows := n.rows + [Row(intent, n.profile.binding, Prepared, None)],
         phase := Dispatching(intent, Min(intent.expiresAt, quote.observedAt + n.profile.maxQuoteAge)))
    case Post =>
      n.(phase := Posted(n.phase.intent), posts := n.posts + [Dispatch(n.phase.intent, n.phase.deadline)])
    case Acknowledge(orderId) =>
      WithRow(n, n.phase.intent.clientId, Unknown, Some(Contracts.Receipt(n.phase.intent, orderId)))
    case Reply(order) => WithRow(n, n.phase.intent.clientId, order.state, Some(order)).(phase := Idle)
    case ReplyLost => WithRow(n, n.phase.intent.clientId, Unknown, None).(phase := Idle)
    case Reconcile(id, order) => WithRow(n, id, order.state, Some(order))
    case ReconcileFailed(id) => WithRow(n, id, Unknown, None)
    case CancelPending(id) => WithRow(n, id, Unknown, None)
    case PlanExpires(id, _) => Saved(n, id, Expired, None)
    case PlanWaits(id) => Saved(n, id, EntryWorking, None)
    case PlanUnfilled(id) => Saved(n, id, Unfilled, None)
    case PlanMonitors(id, _, _) => Saved(n, id, Monitoring, None)
    case PlanExits(id, quote, clock) => Saved(n, id, ExitPrepared, Some(FrozenExit(n, id, quote, clock)))
    case ExitWaits(id) => Saved(n, id, ExitWorking, None)
    case ExitReview(id, _) => Saved(n, id, ManualReview, None)
    case ExitCloses(id) => Saved(n, id, Closed, None)
    case Authorize(_, _) => WithAuthority(n, Entries)
    case RevokeAuthority =>
      WithAuthority(n, if FlatAndSettled(n.rows) then Off else CloseOnly).(phase := Revoking)
    case RevokePlans => n.(plans := RevokedPlans(n.rows, n.plans), phase := Idle)
    case CloseAuthority(_, _) => WithAuthority(n, Off)
    case Disarm(revision) => n.(authority := Some(Authority(Off, revision, n.profile.binding)))
    case Configure(profile) => n.(profile := profile)
    case Crash => n.(phase := Idle)
  }

  // ---- Runs -------------------------------------------------------------------------------

  /** Every step of the run is enabled where it is taken. */
  ghost predicate Legal(n: Node, run: seq<Step>)
    decreases |run|, 0
  {
    run == [] || (Legal(n, run[..|run| - 1]) && Enabled(After(n, run[..|run| - 1]), run[|run| - 1]))
  }

  ghost function After(n: Node, run: seq<Step>): Node
    requires Legal(n, run)
    decreases |run|, 1
  {
    if run == [] then n else Apply(After(n, run[..|run| - 1]), run[|run| - 1])
  }

  /** Some plan asks for exactly this intent: its audited entry, or its frozen exit. */
  predicate Asked(n: Node, intent: Intent) {
    exists i | 0 <= i < |n.plans| :: AskedBy(n, n.plans[i], intent)
  }

  predicate AskedBy(n: Node, p: PlanRow, intent: Intent) {
    && !Final(p.state) && Bound(n.profile, p.plan)
    && (if p.exitRequest.Some? then p.exitRequest.value == intent
        else p.plan.entry == intent && Audited(n.audits, p.plan)
             && EffectiveMode(n.profile, n.authority) == Ok(Entries))
  }

  /** Every order of the run goes through the plan lifecycle. */
  ghost predicate Planned(n: Node, run: seq<Step>)
    requires Legal(n, run)
  {
    forall k | 0 <= k < |run| && run[k].Prepare? ::
      Legal(n, run[..k]) && Asked(After(n, run[..k]), run[k].intent)
  }

  lemma LegalSnoc(n: Node, run: seq<Step>, s: Step)
    requires Legal(n, run) && Enabled(After(n, run), s)
    ensures Legal(n, run + [s]) && After(n, run + [s]) == Apply(After(n, run), s)
  {
    assert (run + [s])[..|run|] == run;
  }

  lemma LegalPrefix(n: Node, run: seq<Step>, k: nat)
    requires Legal(n, run) && k <= |run|
    ensures Legal(n, run[..k])
  {
    if k < |run| {
      assert run[..|run| - 1][..k] == run[..k];
      LegalPrefix(n, run[..|run| - 1], k);
    } else {
      assert run[..k] == run;
    }
  }

  lemma PlannedPrefix(n: Node, run: seq<Step>, k: nat)
    requires Legal(n, run) && Planned(n, run) && k <= |run|
    ensures Legal(n, run[..k]) && Planned(n, run[..k])
  {
    LegalPrefix(n, run, k);
    forall j | 0 <= j < k && run[j].Prepare?
      ensures Legal(n, run[..k][..j]) && Asked(After(n, run[..k][..j]), run[j].intent)
    {
      assert run[..k][..j] == run[..j];
    }
  }

  lemma PlannedSnoc(n: Node, run: seq<Step>, s: Step)
    requires Legal(n, run) && Planned(n, run) && Enabled(After(n, run), s)
    requires s.Prepare? ==> Asked(After(n, run), s.intent)
    ensures Legal(n, run + [s]) && Planned(n, run + [s])
    ensures After(n, run + [s]) == Apply(After(n, run), s)
  {
    LegalSnoc(n, run, s);
    forall k | 0 <= k < |run + [s]| && (run + [s])[k].Prepare?
      ensures Legal(n, (run + [s])[..k]) && Asked(After(n, (run + [s])[..k]), (run + [s])[k].intent)
    {
      if k < |run| {
        assert (run + [s])[..k] == run[..k];
      } else {
        assert (run + [s])[..k] == run;
      }
    }
  }
}
