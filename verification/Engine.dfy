/** `BrokerEngine`: the only code that admits, sends, reconciles and cancels orders.

Every durable write and the adapter call are logged as steps of the account machine, in the order the
code makes them; `Valid` says the log is a legal run that ends in the engine's state.  A crash at any
point therefore leaves the state at some prefix of the log.
*/
module Engines {
  import opened Contracts
  import opened Ledgers
  import opened Accounts
  import opened LedgerSafety

  /** The broker session, the clock and the quote feed: any answer that passes the validators.  What has
  been sent to the broker is remembered: every submission for this account and every cancellation. */
  class Adapter {
    ghost var sent: seq<Dispatch>
    ghost var cancelled: seq<nat>

    constructor (ghost sent: seq<Dispatch>)
      ensures this.sent == sent && cancelled == []
    {
      this.sent, this.cancelled := sent, [];
    }

    method Now() returns (t: int) {
      t := *;
    }

    method Snapshot() returns (r: Option<Snapshot>)
      ensures r.Some? ==> ValidSnapshot(r.value)
    {
      r := *;
      if r.Some? && !ValidSnapshot(r.value) {
        r := None;
      }
    }

    /** `None` for the acknowledgment is a lost or refused POST; `None` for the reply is an exception. */
    method Submit(intent: Intent, deadline: int) returns (acknowledged: Option<nat>, reply: Option<Order>)
      modifies this`sent
      ensures sent == old(sent) + [Dispatch(intent, deadline)]
      ensures reply.Some? ==> ValidOrder(reply.value)
    {
      sent := sent + [Dispatch(intent, deadline)];
      acknowledged, reply := *, *;
      if reply.Some? && !ValidOrder(reply.value) {
        reply := None;
      }
    }

    method Lookup(id: ClientId, orderId: Option<nat>) returns (r: Option<Order>)
      ensures r.Some? ==> ValidOrder(r.value)
    {
      r := *;
      if r.Some? && !ValidOrder(r.value) {
        r := None;
      }
    }

    method Cancel(orderId: nat) returns (ok: bool)
      modifies this`cancelled
      ensures cancelled == old(cancelled) + [orderId]
    {
      cancelled := cancelled + [orderId];
      ok := *;
    }

    method TrustedQuote() returns (r: Option<Quote>)
      ensures r.Some? ==> ValidQuote(r.value)
    {
      r := *;
      if r.Some? && !ValidQuote(r.value) {
        r := None;
      }
    }
  }

  // ---- What the methods promise -----------------------------------------------------------

  /** `_reconcile`: an ended row answers from the ledger; otherwise a proven, matching, non-regressing
  order is recorded, or the row becomes unknown. */
  ghost predicate Reconciled(n: Node, id: ClientId, r: Result<Order>, n': Node) {
    var row := Find(n.rows, id);
    && row.Some?
    && if Terminal(row.value.state) then n' == n && row.value.result.Some? && r == Ok(row.value.result.value)
       else if r.Ok? then Enabled(n, Reconcile(id, r.value)) && n' == Apply(n, Reconcile(id, r.value))
       else r.error == ReconciliationUnconfirmed && Enabled(n, ReconcileFailed(id))
            && n' == Apply(n, ReconcileFailed(id))
  }

  /** The row of `id` now says what was returned; every other row and table is untouched. */
  ghost predicate Answered(n: Node, id: ClientId, r: Result<Order>, n': Node) {
    && n' == n.(rows := n'.rows)
    && |n'.rows| == |n.rows|
    && RowsGrow(n.rows, n'.rows)
    && (forall i | 0 <= i < |n.rows| && n.rows[i].request.clientId != id :: n'.rows[i] == n.rows[i])
    && Find(n'.rows, id).Some?
    && (r.Ok? ==> Find(n'.rows, id).value.result == Some(r.value) && Find(n'.rows, id).value.state == r.value.state)
    && (r.Err? ==> Find(n'.rows, id).value.state.Unknown?)
  }

  /** The row of a sent intent says exactly what came back. */
  predicate SentRow(row: Row, intent: Intent, binding: Binding, r: Result<Order>) {
    && row.request == intent && row.binding == binding
    && if r.Ok? then row.state == r.value.state && row.result == Some(r.value) && Matches(intent, r.value)
       else r.error == SubmissionUnconfirmed && row.state.Unknown?
            && (row.result.Some? ==> row.result.value == Contracts.Receipt(intent, row.result.value.orderId))
  }

  function Acknowledged(intent: Intent, acknowledged: Option<nat>): Option<Order> {
    if acknowledged.None? then None else Some(Contracts.Receipt(intent, acknowledged.value))
  }

  predicate Proves(intent: Intent, acknowledged: Option<nat>, reply: Order) {
    && ValidOrder(reply) && Matches(intent, reply)
    && (acknowledged.Some? ==> reply.orderId == acknowledged.value)
  }

  /** The last row takes the proven reply, or becomes unknown and keeps what it had. */
  predicate SettledRow(last: Row, reply: Option<Order>, r: Result<Order>, last': Row) {
    if r.Ok? then reply == Some(r.value) && last' == Updated(last, r.value.state, reply)
    else r.error == SubmissionUnconfirmed && last' == Updated(last, Unknown, None)
  }

  /** The prepared row once the acknowledgment, if one came, is durable. */
  function AcknowledgedRow(intent: Intent, binding: Binding, acknowledged: Option<nat>): Row {
    Row(intent, binding, if acknowledged.None? then Prepared else Unknown, Acknowledged(intent, acknowledged))
  }

  /** Only the last row may differ. */
  predicate LastOnly(rows: seq<Row>, rows': seq<Row>) {
    |rows'| == |rows| > 0 && rows'[..|rows| - 1] == rows[..|rows| - 1]
  }

  lemma LastRecorded(rows: seq<Row>, id: ClientId, state: OrderState, result: Option<Order>)
    requires rows != [] && DistinctIds(rows) && rows[|rows| - 1].request.clientId == id
    ensures LastOnly(rows, Recorded(rows, id, state, result))
    ensures Recorded(rows, id, state, result)[|rows| - 1] == Updated(rows[|rows| - 1], state, result)
  {
    FindAt(rows, |rows| - 1);
  }

  /** From the prepared row through an optional receipt to the settled one. */
  lemma AnsweredRow(intent: Intent, binding: Binding, acknowledged: Option<nat>, reply: Option<Order>,
                    r: Result<Order>, last: Row)
    requires SettledRow(AcknowledgedRow(intent, binding, acknowledged), reply, r, last)
    requires r.Ok? <==> reply.Some? && Progress(AcknowledgedRow(intent, binding, acknowledged), reply.value)
    ensures SentRow(last, intent, binding, r)
    ensures r.Ok? <==> reply.Some? && Proves(intent, acknowledged, reply.value)
    ensures r.Err? ==> last.result == Acknowledged(intent, acknowledged)
  {
  }

  lemma AdmitsBy(n: Node, s: Step, before: seq<Step>, mid: seq<Step>, after: seq<Step>)
    requires s.Prepare? && Enabled(n, s) && mid == before + [s, Step.Post]
    requires mid <= after && NoneAdmitted(after, |mid|)
    ensures Admits(n, s.intent, before, after) && before <= after
  {
    assert after[|before|] == mid[|before|] == s;
    assert after[|before| + 1] == mid[|before| + 1];
  }

  /** The account right after the call: the prepared row is the last one, the dispatch the last post. */
  function PostedNode(n: Node, intent: Intent, quote: Quote): Node {
    n.(rows := n.rows + [Row(intent, n.profile.binding, Prepared, None)], phase := Posted(intent),
       posts := n.posts + [Dispatch(intent, Min(intent.expiresAt, quote.observedAt + n.profile.maxQuoteAge))])
  }

  lemma SentBy(n: Node, n': Node, intent: Intent, quote: Quote, r: Result<Order>)
    requires n.phase.Idle? && n' == PostedNode(n, intent, quote).(rows := n'.rows, phase := Idle)
    requires LastOnly(PostedNode(n, intent, quote).rows, n'.rows)
    requires SentRow(n'.rows[|n'.rows| - 1], intent, n.profile.binding, r)
    ensures Sent(n, intent, quote, r, n')
  {
  }

  /** A new intent was written, sent once, and its row says what came back. */
  ghost predicate Sent(n: Node, intent: Intent, quote: Quote, r: Result<Order>, n': Node) {
    && |n'.rows| == |n.rows| + 1 && n'.rows[..|n.rows|] == n.rows
    && n'.posts == n.posts + [Dispatch(intent, Min(intent.expiresAt, quote.observedAt + n.profile.maxQuoteAge))]
    && n' == n.(rows := n'.rows, posts := n'.posts)
    && SentRow(n'.rows[|n.rows|], intent, n.profile.binding, r)
  }

  /** The first new step admits the intent, in the state the call started from, and no other does. */
  ghost predicate Admits(n: Node, intent: Intent, before: seq<Step>, after: seq<Step>) {
    && |before| < |after| && after[|before|].Prepare? && after[|before|].intent == intent
    && Enabled(n, after[|before|]) && NoneAdmitted(after, |before| + 1)
  }

  /** Some gate refused the intent, on some snapshot and clock reading, or the broker did not answer. */
  ghost predicate Refused(n: Node, intent: Intent, quote: Quote, e: Error)
    requires ValidQuote(quote)
  {
    e == AdapterFailed
    || exists s: Snapshot, clock: Clock :: Refusal(n.profile, n.rows, n.authority, intent, quote, s, clock) == Some(e)
  }

  lemma RefusedOn(n: Node, intent: Intent, quote: Quote, s: Snapshot, clock: Clock)
    requires ValidQuote(quote)
    ensures var refusal := Refusal(n.profile, n.rows, n.authority, intent, quote, s, clock);
      refusal.Some? ==> Refused(n, intent, quote, refusal.value)
  {
  }

  /** The gates that come before the snapshot refuse whatever the snapshot would have said. */
  lemma EarlyRefusal(n: Node, intent: Intent, quote: Quote, e: Error)
    requires ValidQuote(quote)
    requires var mode := EffectiveMode(n.profile, n.authority);
      if mode.Err? then e == mode.error
      else if !(mode.value.Entries? || (mode.value.CloseOnly? && intent.side.Sell?)) then e == TradingNotAuthorized
      else !NonePending(n.rows) && e == ReconciliationRequired
    ensures Refused(n, intent, quote, e)
  {
    var s := Contracts.Snapshot(n.profile.binding, 0, 0.0, 0.0, [], [], true, true, true, true);
    assert Refusal(n.profile, n.rows, n.authority, intent, quote, s, Clock(0, 0, 0)) == Some(e);
  }

  lemma NoneAdmittedOneMore(before: seq<Step>, mid: seq<Step>, after: seq<Step>)
    requires before <= mid <= after && NoneAdmitted(mid, |before|) && |after| == |mid| + 1 && !after[|mid|].Prepare?
    ensures before <= after && NoneAdmitted(after, |before|)
  {
    forall i | |before| <= i < |mid|
      ensures !after[i].Prepare?
    {
      assert after[i] == mid[i];
    }
  }

  /** A fresh, verified snapshot shows the ledger's book and no open order, and every row has a result. */
  predicate AccountProven(n: Node, snapshot: Snapshot, now: int) {
    && SnapshotRefusal(n.profile, snapshot, now).None?
    && Holdings(snapshot.positions) == Book(n.rows) && snapshot.orders == []
    && forall i | 0 <= i < |n.rows| :: n.rows[i].result.Some?
  }

  ghost predicate ProvenBySome(n: Node) {
    exists snapshot: Snapshot, now: int :: AccountProven(n, snapshot, now)
  }

  /** No step from `k` on admits a new intent. */
  ghost predicate NoneAdmitted(run: seq<Step>, k: nat) {
    forall i | k <= i < |run| :: !run[i].Prepare?
  }

  lemma PendingAnswers(n: Node, id: ClientId, n': Node)
    requires Sound(n) && Enabled(n, CancelPending(id)) && n' == Apply(n, CancelPending(id))
    ensures Answered(n, id, Err(CancellationUnconfirmed), n')
  {
    StepSound(n, CancelPending(id));
    FindAt(n'.rows, IndexOf(n.rows, id));
  }

  lemma ProvenAnswers(n: Node, id: ClientId, o: Order)
    requires Sound(n) && Enabled(n, Reconcile(id, o))
    ensures Answered(n, id, Ok(o), Apply(n, Reconcile(id, o)))
  {
    StepSound(n, Reconcile(id, o));
    FindAt(Apply(n, Reconcile(id, o)).rows, IndexOf(n.rows, id));
  }

  lemma FailedAnswers(n: Node, id: ClientId)
    requires Sound(n) && Enabled(n, ReconcileFailed(id))
    ensures Answered(n, id, Err(ReconciliationUnconfirmed), Apply(n, ReconcileFailed(id)))
  {
    StepSound(n, ReconcileFailed(id));
    FindAt(Apply(n, ReconcileFailed(id)).rows, IndexOf(n.rows, id));
  }

  lemma EndedAnswers(n: Node, id: ClientId)
    requires Sound(n) && Find(n.rows, id).Some? && Terminal(Find(n.rows, id).value.state)
    ensures Find(n.rows, id).value.result.Some? && Answered(n, id, Ok(Find(n.rows, id).value.result.value), n)
  {
    assert RowOk(n.rows[IndexOf(n.rows, id)], n.profile.binding);
  }

  lemma ReconciledAnswers(n: Node, id: ClientId, r: Result<Order>, n': Node)
    requires Sound(n) && Reconciled(n, id, r, n')
    ensures Answered(n, id, r, n')
  {
    if Terminal(Find(n.rows, id).value.state) {
      EndedAnswers(n, id);
    } else if r.Ok? {
      ProvenAnswers(n, id, r.value);
    } else {
      FailedAnswers(n, id);
    }
  }

  class BrokerEngine {
    const profile: Profile
    const ledger: Ledger
    const adapter: Adapter
    var authority: Option<Authority>
    var phase: Phase
    var posts: seq<Dispatch>
    ghost const start: Node
    ghost var run: seq<Step>

    function State(): Node
      reads this, ledger
    {
      Node(profile, ledger.intents, authority, ledger.plans, ledger.audits, phase, posts)
    }

    /** The log is a legal run that ends here, and its posts are the calls the adapter has had. */
    ghost predicate Logged()
      reads this, ledger, adapter
    {
      && Legal(start, run) && After(start, run) == State() && ValidProfile(profile) && Sound(State())
      && adapter.sent == posts
    }

    ghost predicate Valid()
      reads this, ledger, adapter
    {
      phase.Idle? && Logged()
    }

    /** Opens the account's directory: whatever was durable is the state. */
    constructor (node: Node, adapter: Adapter)
      requires node.phase.Idle? && ValidProfile(node.profile) && Sound(node) && adapter.sent == node.posts
      ensures Valid() && fresh(ledger) && State() == node && start == node && run == [] && profile == node.profile
      ensures this.adapter == adapter
    {
      this.profile, this.adapter, this.authority, this.phase, this.posts :=
        node.profile, adapter, node.authority, Idle, node.posts;
      this.start, this.run := node, [];
      this.ledger := new Ledger(node.rows, node.plans, node.audits);
    }

    /** Logs the step the state has just taken. */
    ghost method Log(before: Node, s: Step)
      requires Legal(start, run) && After(start, run) == before && Sound(before) && Enabled(before, s)
      requires State() == Apply(before, s) && ValidProfile(profile) && adapter.sent == posts
      modifies this`run
      ensures run == old(run) + [s] && Logged()
    {
      LegalSnoc(start, run, s);
      StepSound(before, s);
      run := run + [s];
    }

    method ReconcileRow(id: ClientId) returns (r: Result<Order>)
      requires Valid() && Find(ledger.intents, id).Some?
      modifies this`run, ledger`intents
      ensures Valid() && Reconciled(old(State()), id, r, State()) && Answered(old(State()), id, r, State())
      ensures old(run) <= run && NoneAdmitted(run, |old(run)|)
    {
      ghost var before := State();
      var row := Find(ledger.intents, id).value;
      assert RowOk(ledger.intents[IndexOf(ledger.intents, id)], profile.binding);
      if Terminal(row.state) {
        r := Ok(row.result.value);
        ReconciledAnswers(before, id, r, State());
        return;
      }
      var known := if row.result.Some? then Some(row.result.value.orderId) else None;
      var order := adapter.Lookup(id, known);
      r := RecordLookup(id, order);
    }

    /** A lookup is believed exactly when it matches the request and nothing regresses. */
    method RecordLookup(id: ClientId, order: Option<Order>) returns (r: Result<Order>)
      requires Valid() && Find(ledger.intents, id).Some? && !Terminal(Find(ledger.intents, id).value.state)
      modifies this`run, ledger`intents
      ensures Valid() && Reconciled(old(State()), id, r, State()) && Answered(old(State()), id, r, State())
      ensures r.Ok? <==> order.Some? && Progress(Find(old(ledger.intents), id).value, order.value)
      ensures r.Ok? ==> r.value == order.value
      ensures old(run) <= run && NoneAdmitted(run, |old(run)|)
    {
      ghost var before := State();
      if order.Some? && Progress(Find(ledger.intents, id).value, order.value) {
        ledger.Record(id, order.value.state, order);
        r := Ok(order.value);
        Log(before, Reconcile(id, order.value));
      } else {
        ledger.Record(id, Unknown, None);
        r := Err(ReconciliationUnconfirmed);
        Log(before, ReconcileFailed(id));
      }
      ReconciledAnswers(before, id, r, State());
    }

    /** Looks one order of the ledger up again; the other orders and the positions are not asked about. */
    method ReconcileOrder(id: ClientId) returns (r: Result<Order>)
      requires Valid()
      modifies this`run, ledger`intents
      ensures Valid()
      ensures Find(old(ledger.intents), id).None? ==> r == Err(OrderNotOwned) && State() == old(State())
      ensures Find(old(ledger.intents), id).Some? ==>
                Reconciled(old(State()), id, r, State()) && Answered(old(State()), id, r, State())
      ensures old(run) <= run && NoneAdmitted(run, |old(run)|)
    {
      if Find(ledger.intents, id).None? {
        return Err(OrderNotOwned);
      }
      r := ReconcileRow(id);
    }

    /** The callback of the adapter: the broker's id is on the row before the rest of the submission goes on. */
    method Acknowledge(intent: Intent, orderId: nat)
      requires Logged() && phase == Posted(intent)
      requires Find(ledger.intents, intent.clientId).Some?
      requires Find(ledger.intents, intent.clientId).value.result.None?
      modifies this`run, ledger`intents
      ensures Logged() && old(run) <= run && NoneAdmitted(run, |old(run)|)
      ensures State() == old(State()).(rows := ledger.intents)
      ensures ledger.intents ==
              Recorded(old(ledger.intents), intent.clientId, Unknown, Some(Contracts.Receipt(intent, orderId)))
    {
      ghost var before := State();
      ledger.Record(intent.clientId, Unknown, Some(Contracts.Receipt(intent, orderId)));
      Log(before, Step.Acknowledge(orderId));
    }

    method AcknowledgeIfAny(intent: Intent, acknowledged: Option<nat>)
      requires Logged() && phase == Posted(intent) && ledger.intents != []
      requires ledger.intents[|ledger.intents| - 1] == Row(intent, profile.binding, Prepared, None)
      modifies this`run, ledger`intents
      ensures Logged() && old(run) <= run && NoneAdmitted(run, |old(run)|)
      ensures State() == old(State()).(rows := ledger.intents)
      ensures LastOnly(old(ledger.intents), ledger.intents)
      ensures ledger.intents[|ledger.intents| - 1] == AcknowledgedRow(intent, profile.binding, acknowledged)
    {
      PostedRow(State());
      if acknowledged.Some? {
        LastRecorded(ledger.intents, intent.clientId, Unknown, Acknowledged(intent, acknowledged));
        Acknowledge(intent, acknowledged.value);
      }
    }

    /** The first write of a submission: the row is durable before anything is sent. */
    method Write(intent: Intent, quote: Quote, snapshot: Snapshot, clock: Clock)
      requires Valid() && ValidIntent(intent) && ValidQuote(quote) && ValidSnapshot(snapshot)
      requires Find(ledger.intents, intent.clientId).None?
      requires Refusal(profile, ledger.intents, authority, intent, quote, snapshot, clock).None?
      modifies this`run, this`phase, ledger`intents
      ensures Logged() && phase == Dispatching(intent, Deadline(intent, quote))
      ensures ledger.intents == old(ledger.intents) + [Row(intent, profile.binding, Prepared, None)]
      ensures run == old(run) + [Prepare(intent, quote, snapshot, clock)]
      ensures Enabled(old(State()), Prepare(intent, quote, snapshot, clock))
      ensures State() == old(State()).(rows := ledger.intents, phase := phase)
    {
      ghost var before := State();
      var _ := ledger.Prepare(profile, intent);
      phase := Dispatching(intent, Deadline(intent, quote));
      Log(before, Prepare(intent, quote, snapshot, clock));
    }

    function Deadline(intent: Intent, quote: Quote): int {
      Min(intent.expiresAt, quote.observedAt + profile.maxQuoteAge)
    }

    /** The one call of the adapter. */
    method Send() returns (acknowledged: Option<nat>, reply: Option<Order>)
      requires Logged() && phase.Dispatching?
      modifies this`run, this`phase, this`posts, adapter`sent
      ensures Logged() && phase == Posted(old(phase).intent)
      ensures posts == old(posts) + [Dispatch(old(phase).intent, old(phase).deadline)]
      ensures adapter.sent == old(adapter.sent) + [Dispatch(old(phase).intent, old(phase).deadline)]
      ensures run == old(run) + [Step.Post] && State() == old(State()).(phase := phase, posts := posts)
      ensures reply.Some? ==> ValidOrder(reply.value)
    {
      ghost var prepared := State();
      var intent, deadline := phase.intent, phase.deadline;
      acknowledged, reply := adapter.Submit(intent, deadline);
      posts := posts + [Dispatch(intent, deadline)];
      phase := Posted(intent);
      Log(prepared, Step.Post);
    }

    /** The write-ahead half of a submission: the row is durable, then the adapter is called once. */
    method WriteAndPost(intent: Intent, quote: Quote, snapshot: Snapshot, clock: Clock)
      returns (acknowledged: Option<nat>, reply: Option<Order>)
      requires Valid() && ValidIntent(intent) && ValidQuote(quote) && ValidSnapshot(snapshot)
      requires Find(ledger.intents, intent.clientId).None?
      requires Refusal(profile, ledger.intents, authority, intent, quote, snapshot, clock).None?
      modifies this`run, this`phase, this`posts, ledger`intents, adapter`sent
      ensures Logged() && phase == Posted(intent)
      ensures adapter.sent == old(adapter.sent) + [Dispatch(intent, Deadline(intent, quote))]
      ensures run == old(run) + [Prepare(intent, quote, snapshot, clock), Step.Post]
      ensures Enabled(old(State()), Prepare(intent, quote, snapshot, clock))
      ensures State() == PostedNode(old(State()), intent, quote)
      ensures reply.Some? ==> ValidOrder(reply.value)
    {
      ghost var before := State();
      Write(intent, quote, snapshot, clock);
      acknowledged, reply := Send();
      assert State() == PostedNode(before, intent, quote);
    }

    /** No order is sent twice, and what was sent is what the ledger holds under its id. */
    lemma SentOnce(i: nat, j: nat)
      requires Valid() && i < j < |adapter.sent|
      ensures adapter.sent[i].intent.clientId != adapter.sent[j].intent.clientId
      ensures Find(ledger.intents, adapter.sent[i].intent.clientId).Some?
      ensures Find(ledger.intents, adapter.sent[i].intent.clientId).value.request == adapter.sent[i].intent
    {
    }

    /** Records the adapter's reply when it proves the posted order, and uncertainty otherwise. */
    method Settle(intent: Intent, reply: Option<Order>) returns (r: Result<Order>)
      requires Logged() && phase == Posted(intent) && ledger.intents != []
      modifies this`run, this`phase, ledger`intents
      ensures Valid() && |run| == |old(run)| + 1 && old(run) <= run && !run[|old(run)|].Prepare?
      ensures State() == old(State()).(rows := ledger.intents, phase := Idle)
      ensures LastOnly(old(ledger.intents), ledger.intents)
      ensures SettledRow(old(ledger.intents)[|old(ledger.intents)| - 1], reply, r,
                         ledger.intents[|ledger.intents| - 1])
      ensures r.Ok? <==> reply.Some? && Progress(old(ledger.intents)[|old(ledger.intents)| - 1], reply.value)
    {
      PostedRow(State());
      if reply.Some? && Progress(ledger.intents[|ledger.intents| - 1], reply.value) {
        RecordReply(intent, reply.value);
        return Ok(reply.value);
      }
      RecordLost(intent);
      r := Err(SubmissionUnconfirmed);
    }

    method RecordReply(intent: Intent, order: Order)
      requires Logged() && phase == Posted(intent) && ledger.intents != []
      requires Progress(ledger.intents[|ledger.intents| - 1], order)
      modifies this`run, this`phase, ledger`intents
      ensures Valid() && run == old(run) + [Reply(order)]
      ensures State() == old(State()).(rows := ledger.intents, phase := Idle)
      ensures LastOnly(old(ledger.intents), ledger.intents)
      ensures ledger.intents[|ledger.intents| - 1]
              == Updated(old(ledger.intents)[|old(ledger.intents)| - 1], order.state, Some(order))
    {
      ghost var before := State();
      PostedRow(before);
      LastRecorded(ledger.intents, intent.clientId, order.state, Some(order));
      ledger.Record(intent.clientId, order.state, Some(order));
      phase := Idle;
      Log(before, Reply(order));
    }

    method RecordLost(intent: Intent)
      requires Logged() && phase == Posted(intent) && ledger.intents != []
      modifies this`run, this`phase, ledger`intents
      ensures Valid() && run == old(run) + [ReplyLost]
      ensures State() == old(State()).(rows := ledger.intents, phase := Idle)
      ensures LastOnly(old(ledger.intents), ledger.intents)
      ensures ledger.intents[|ledger.intents| - 1]
              == Updated(old(ledger.intents)[|old(ledger.intents)| - 1], Unknown, None)
    {
      ghost var before := State();
      PostedRow(before);
      LastRecorded(ledger.intents, intent.clientId, Unknown, None);
      ledger.Record(intent.clientId, Unknown, None);
      phase := Idle;
      Log(before, ReplyLost);
    }

    /** First the acknowledgment, if one came, then the outcome. */
    method Answer(intent: Intent, acknowledged: Option<nat>, reply: Option<Order>) returns (r: Result<Order>)
      requires Logged() && phase == Posted(intent) && ledger.intents != []
      requires ledger.intents[|ledger.intents| - 1] == Row(intent, profile.binding, Prepared, None)
      modifies this`run, this`phase, ledger`intents
      ensures Valid() && old(run) <= run && NoneAdmitted(run, |old(run)|)
      ensures State() == old(State()).(rows := ledger.intents, phase := Idle)
      ensures LastOnly(old(ledger.intents), ledger.intents)
      ensures SentRow(ledger.intents[|ledger.intents| - 1], intent, profile.binding, r)
      // The outcome is proven exactly by a matching reply that does not contradict the acknowledgment,
      // and without one the row still keeps the acknowledged id.
      ensures r.Ok? <==> reply.Some? && Proves(intent, acknowledged, reply.value)
      ensures r.Err? ==> ledger.intents[|ledger.intents| - 1].result == Acknowledged(intent, acknowledged)
    {
      ghost var first := run;
      AcknowledgeIfAny(intent, acknowledged);
      ghost var mid := run;
      r := Settle(intent, reply);
      NoneAdmittedOneMore(first, mid, run);
      AnsweredRow(intent, profile.binding, acknowledged, reply, r, ledger.intents[|ledger.intents| - 1]);
    }

    /** An admitted intent: written, posted once, and answered. */
    method SendAdmitted(intent: Intent, quote: Quote, snapshot: Snapshot, clock: Clock) returns (r: Result<Order>)
      requires Valid() && ValidIntent(intent) && ValidQuote(quote) && ValidSnapshot(snapshot)
      requires Find(ledger.intents, intent.clientId).None?
      requires Refusal(profile, ledger.intents, authority, intent, quote, snapshot, clock).None?
      modifies this`run, this`phase, this`posts, ledger`intents, adapter`sent
      ensures Valid() && old(run) <= run
      ensures Sent(old(State()), intent, quote, r, State()) && Admits(old(State()), intent, old(run), run)
    {
      ghost var before := State();
      var acknowledged, reply := WriteAndPost(intent, quote, snapshot, clock);
      assert ledger.intents == before.rows + [Row(intent, profile.binding, Prepared, None)];
      ghost var logged := run;
      r := Answer(intent, acknowledged, reply);
      SentBy(before, State(), intent, quote, r);
      AdmitsBy(before, Prepare(intent, quote, snapshot, clock), old(run), logged, run);
    }

    /** The gates before the snapshot, in order. */
    method EarlyGate(intent: Intent, quote: Quote) returns (e: Option<Error>)
      requires ValidQuote(quote)
      ensures e.Some? ==> Refused(State(), intent, quote, e.value)
    {
      var mode := EffectiveMode(profile, authority);
      if mode.Err? {
        EarlyRefusal(State(), intent, quote, mode.error);
        return Some(mode.error);
      }
      if !(mode.value.Entries? || (mode.value.CloseOnly? && intent.side.Sell?)) {
        EarlyRefusal(State(), intent, quote, TradingNotAuthorized);
        return Some(TradingNotAuthorized);
      }
      if !NonePending(ledger.intents) {
        EarlyRefusal(State(), intent, quote, ReconciliationRequired);
        return Some(ReconciliationRequired);
      }
      e := None;
    }

    /** The gates, then the write, the one POST and its outcome, for an id the ledger does not know. */
    method SubmitNew(intent: Intent, quote: Quote) returns (r: Result<Order>)
      requires Valid() && ValidIntent(intent) && ValidQuote(quote)
      requires Find(ledger.intents, intent.clientId).None?
      modifies this`run, this`phase, this`posts, ledger`intents, adapter`sent
      ensures Valid() && old(run) <= run
      ensures
        || (State() == old(State()) && run == old(run) && r.Err? && Refused(old(State()), intent, quote, r.error))
        || (Sent(old(State()), intent, quote, r, State()) && Admits(old(State()), intent, old(run), run))
    {
      var early := EarlyGate(intent, quote);
      if early.Some? {
        return Err(early.value);
      }
      var snapshot := adapter.Snapshot();
      var first := adapter.Now();
      var second := adapter.Now();
      var third := adapter.Now();
      ghost var before := State();
      r := SubmitOn(intent, quote, snapshot, Clock(first, second, third));
      if snapshot.Some? {
        RefusedOn(before, intent, quote, snapshot.value, Clock(first, second, third));
      }
    }

    /** The decision on what was read: the first refusal is reported and nothing is written; without one
    the intent is written and sent. */
    method SubmitOn(intent: Intent, quote: Quote, snapshot: Option<Snapshot>, clock: Clock) returns (r: Result<Order>)
      requires Valid() && ValidIntent(intent) && ValidQuote(quote) && (snapshot.Some? ==> ValidSnapshot(snapshot.value))
      requires Find(ledger.intents, intent.clientId).None?
      modifies this`run, this`phase, this`posts, ledger`intents, adapter`sent
      ensures Valid() && old(run) <= run
      ensures snapshot.None? ==> r == Err(AdapterFailed) && State() == old(State()) && run == old(run)
      ensures snapshot.Some? ==>
        var refusal := Refusal(profile, old(ledger.intents), old(authority), intent, quote, snapshot.value, clock);
        if refusal.Some? then r == Err(refusal.value) && State() == old(State()) && run == old(run)
        else Sent(old(State()), intent, quote, r, State()) && Admits(old(State()), intent, old(run), run)
    {
      if snapshot.None? {
        return Err(AdapterFailed);
      }
      var refusal := Refusal(profile, ledger.intents, authority, intent, quote, snapshot.value, clock);
      if refusal.Some? {
        return Err(refusal.value);
      }
      r := SendAdmitted(intent, quote, snapshot.value, clock);
    }

    method Submit(intent: Intent, quote: Quote) returns (r: Result<Order>)
      requires Valid() && ValidIntent(intent) && ValidQuote(quote)
      modifies this`run, this`phase, this`posts, ledger`intents, adapter`sent
      ensures Valid() && old(run) <= run
      // A known id: exact reuse reconciles and never posts again, anything else is a conflict.
      ensures Find(old(ledger.intents), intent.clientId).Some? ==>
                NoneAdmitted(run, |old(run)|) && posts == old(posts)
      ensures Find(old(ledger.intents), intent.clientId).Some? ==>
                if Find(old(ledger.intents), intent.clientId).value.request == intent
                then Reconciled(old(State()), intent.clientId, r, State())
                     && Answered(old(State()), intent.clientId, r, State())
                else r == Err(ClientIdConflict) && State() == old(State())
      // A new id: refused with nothing written, or written ahead, posted once and answered.
      ensures Find(old(ledger.intents), intent.clientId).None? ==>
        || (State() == old(State()) && run == old(run) && r.Err? && Refused(old(State()), intent, quote, r.error))
        || (Sent(old(State()), intent, quote, r, State()) && Admits(old(State()), intent, old(run), run))
    {
      var current := Find(ledger.intents, intent.clientId);
      if current.Some? {
        assert RowOk(ledger.intents[IndexOf(ledger.intents, intent.clientId)], profile.binding);
        var reuse := ledger.Prepare(profile, intent);
        if reuse.Err? {
          return Err(reuse.error);
        }
        r := ReconcileRow(intent.clientId);
      } else {
        r := SubmitNew(intent, quote);
      }
    }

    method Cancel(id: ClientId) returns (r: Result<Order>)
      requires Valid()
      modifies this`run, ledger`intents, adapter`cancelled
      ensures Valid() && old(run) <= run && NoneAdmitted(run, |old(run)|)
      ensures Find(old(ledger.intents), id).None? ==> r == Err(OrderNotOwned) && State() == old(State())
      ensures Find(old(ledger.intents), id).Some? ==>
                Answered(old(State()), id, r, State())
                && (r.Err? ==> r.error == ReconciliationUnconfirmed || r.error == CancellationUnconfirmed)
      // Unless the order is proven ended, or nothing is proven of it, its cancellation has been sent once.
      ensures adapter.cancelled == old(adapter.cancelled) ||
              exists orderId :: adapter.cancelled == old(adapter.cancelled) + [orderId]
      ensures adapter.cancelled == old(adapter.cancelled) ==>
                if r.Ok? then Terminal(r.value.state)
                else r.error == OrderNotOwned || r.error == ReconciliationUnconfirmed
    {
      if Find(ledger.intents, id).None? {
        return Err(OrderNotOwned);
      }
      ghost var first := State();
      r := ReconcileRow(id);
      if r.Err? || Terminal(r.value.state) {
        return;
      }
      ghost var second := State();
      ghost var proven := r;
      r := CancelOpen(id, r.value);
      AnsweredTwice(first, id, proven, second, r, State());
    }

    /** Between the two lookups of a cancellation the row is unknown, with the order just proven. */
    method MarkPending(id: ClientId, order: Order)
      requires Valid() && Find(ledger.intents, id).Some? && !Terminal(order.state)
      requires Find(ledger.intents, id).value.result == Some(order)
      requires Find(ledger.intents, id).value.state == order.state
      modifies this`run, ledger`intents
      ensures Valid() && old(run) <= run && NoneAdmitted(run, |old(run)|)
      ensures Answered(old(State()), id, Err(CancellationUnconfirmed), State())
    {
      ghost var before := State();
      assert RowOk(ledger.intents[IndexOf(ledger.intents, id)], profile.binding);
      ledger.Record(id, Unknown, Some(order));
      Log(before, CancelPending(id));
      PendingAnswers(before, id, State());
    }

    method CancelOpen(id: ClientId, order: Order) returns (r: Result<Order>)
      requires Valid() && Find(ledger.intents, id).Some? && !Terminal(order.state)
      requires Find(ledger.intents, id).value.result == Some(order)
      requires Find(ledger.intents, id).value.state == order.state
      modifies this`run, ledger`intents, adapter`cancelled
      ensures adapter.cancelled == old(adapter.cancelled) + [order.orderId]
      ensures Valid() && old(run) <= run && NoneAdmitted(run, |old(run)|)
      ensures Answered(old(State()), id, r, State())
      ensures r.Err? ==> r.error == ReconciliationUnconfirmed || r.error == CancellationUnconfirmed
    {
      ghost var before := State();
      MarkPending(id, order);
      ghost var pending := State();
      var sent := adapter.Cancel(order.orderId);
      if !sent {
        return Err(CancellationUnconfirmed);
      }
      r := ReconcileRow(id);
      AnsweredTwice(before, id, Err(CancellationUnconfirmed), pending, r, State());
    }

    method Authorize(confirmed: bool) returns (r: Result<bool>)
      requires Valid()
      modifies this`run, this`authority
      ensures Valid() && old(run) <= run && NoneAdmitted(run, |old(run)|)
      ensures r.Err? ==> State() == old(State()) && run == old(run)
      ensures r.Ok? ==> confirmed && FlatAndSettled(ledger.intents) && State() == WithAuthority(old(State()), Entries)
    {
      if !confirmed {
        return Err(ConfirmationRequired);
      }
      var snapshot := adapter.Snapshot();
      if snapshot.None? {
        return Err(AdapterFailed);
      }
      var now := adapter.Now();
      r := AuthorizeOn(snapshot.value, now);
    }

    /** Authority is given exactly on a fresh, verified, permitted and empty account with a settled ledger. */
    method AuthorizeOn(snapshot: Snapshot, now: int) returns (r: Result<bool>)
      requires Valid()
      modifies this`run, this`authority
      ensures Valid() && old(run) <= run && NoneAdmitted(run, |old(run)|)
      ensures r.Ok? <==>
        && SnapshotRefusal(profile, snapshot, now).None? && Permitted(profile, snapshot)
        && snapshot.positions == [] && snapshot.orders == [] && FlatAndSettled(ledger.intents)
      ensures r.Ok? ==> State() == WithAuthority(old(State()), Entries)
      ensures r.Err? ==> State() == old(State()) && run == old(run)
    {
      var refusal := SnapshotRefusal(profile, snapshot, now);
      if refusal.Some? {
        return Err(refusal.value);
      }
      if !Permitted(profile, snapshot) {
        return Err(PermissionUnverified);
      }
      var flat := ledger.IsFlatAndSettled();
      if snapshot.positions != [] || snapshot.orders != [] || !flat {
        return Err(InitialAccountMustBeEmpty);
      }
      ghost var before := State();
      authority := Some(Authority(Entries, profile.revision, profile.binding));
      Log(before, Step.Authorize(snapshot, now));
      r := Ok(true);
    }

    method RevokeEntries()
      requires Valid()
      modifies this`run, this`authority, this`phase
      ensures Logged() && phase == Revoking && run == old(run) + [RevokeAuthority]
      ensures authority == Some(Authority(if FlatAndSettled(ledger.intents) then Off else CloseOnly,
                                          profile.revision, profile.binding))
    {
      var flat := ledger.IsFlatAndSettled();
      ghost var before := State();
      authority := Some(Authority(if flat then Off else CloseOnly, profile.revision, profile.binding));
      phase := Revoking;
      Log(before, RevokeAuthority);
    }

    /** Stops opening risk without the network: authority first, then the staged plans. */
    method Revoke()
      requires Valid()
      modifies this`run, this`authority, this`phase, ledger`plans
      ensures Valid() && run == old(run) + [RevokeAuthority, RevokePlans]
      ensures ledger.plans == RevokedPlans(ledger.intents, old(ledger.plans)) && phase == Idle
      ensures authority == Some(Authority(if FlatAndSettled(ledger.intents) then Off else CloseOnly,
                                          profile.revision, profile.binding))
    {
      RevokeEntries();
      ghost var halfway := State();
      ledger.plans := RevokedPlans(ledger.intents, ledger.plans);
      phase := Idle;
      Log(halfway, RevokePlans);
    }

    /** The loop of `reconcile`: every row is looked up, oldest first. */
    method ReconcileEvery() returns (r: Result<bool>)
      requires Valid()
      modifies this`run, ledger`intents
      ensures Valid() && old(run) <= run && NoneAdmitted(run, |old(run)|)
      ensures State() == old(State()).(rows := ledger.intents)
      ensures |ledger.intents| == |old(ledger.intents)| && RowsGrow(old(ledger.intents), ledger.intents)
      ensures r.Ok? ==> forall i | 0 <= i < |ledger.intents| :: ledger.intents[i].result.Some?
    {
      ghost var first := State();
      var i := 0;
      while i < |ledger.intents|
        invariant 0 <= i <= |ledger.intents| == |first.rows|
        invariant Valid() && old(run) <= run && NoneAdmitted(run, |old(run)|)
        invariant State() == first.(rows := ledger.intents)
        invariant RowsGrow(first.rows, ledger.intents)
        invariant forall k | 0 <= k < i :: ledger.intents[k].result.Some?
      {
        ghost var before := State();
        var id := ledger.intents[i].request.clientId;
        FindAt(ledger.intents, i);
        var result := ReconcileRow(id);
        RowsGrowTransitive(first.rows, before.rows, ledger.intents);
        if result.Err? {
          return Err(result.error);
        }
        assert RowGrows(before.rows[i], ledger.intents[i]);
        FindAt(ledger.intents, i);
        forall k | 0 <= k < i
          ensures ledger.intents[k].result.Some?
        {
          assert before.rows[k].request.clientId != before.rows[i].request.clientId;
        }
        i := i + 1;
      }
      r := Ok(true);
    }

    /** Proves every row, then the positions and the open orders; close-only authority ends when the
    account is proven empty. */
    method ReconcileAll() returns (r: Result<bool>)
      requires Valid()
      modifies this`run, this`authority, ledger`intents
      ensures Valid() && old(run) <= run && NoneAdmitted(run, |old(run)|)
      ensures State() == old(State()).(rows := ledger.intents, authority := authority)
      ensures |ledger.intents| == |old(ledger.intents)| && RowsGrow(old(ledger.intents), ledger.intents)
      ensures authority == old(authority) ||
              (&& r.Ok? && authority == Some(Authority(Off, profile.revision, profile.binding))
               && EffectiveMode(profile, old(authority)) == Ok(CloseOnly) && Book(ledger.intents) == map[])
      ensures r.Ok? ==> ProvenBySome(State())
    {
      r := ReconcileEvery();
      if r.Err? {
        return;
      }
      var snapshot := adapter.Snapshot();
      if snapshot.None? {
        return Err(AdapterFailed);
      }
      var now := adapter.Now();
      r := ProveAccount(snapshot.value, now);
      assert r.Ok? ==> AccountProven(State(), snapshot.value, now);
    }

    /** With every row proven: the account is proven exactly by a fresh, verified snapshot that agrees with
    the book and lists no open order, and close-only authority then ends exactly when nothing is held. */
    method ProveAccount(snapshot: Snapshot, now: int) returns (r: Result<bool>)
      requires Valid() && forall i | 0 <= i < |ledger.intents| :: ledger.intents[i].result.Some?
      modifies this`run, this`authority
      ensures Valid() && old(run) <= run && NoneAdmitted(run, |old(run)|)
      ensures r.Ok? <==>
        && SnapshotRefusal(profile, snapshot, now).None? && Holdings(snapshot.positions) == Book(ledger.intents)
        && snapshot.orders == [] && EffectiveMode(profile, old(authority)).Ok?
      ensures State() ==
        if r.Ok? && EffectiveMode(profile, old(authority)) == Ok(CloseOnly) && snapshot.positions == []
        then WithAuthority(old(State()), Off) else old(State())
    {
      var refusal := SnapshotRefusal(profile, snapshot, now);
      if refusal.Some? {
        return Err(refusal.value);
      }
      var book := ledger.PositionBook();
      if Holdings(snapshot.positions) != book {
        return Err(PositionDrift);
      }
      if snapshot.orders != [] {
        return Err(OrdersStillWorking);
      }
      var mode := EffectiveMode(profile, authority);
      if mode.Err? {
        return Err(mode.error);
      }
      if mode.value.CloseOnly? && snapshot.positions == [] {
        ghost var before := State();
        assert Holdings([]) == map[];
        authority := Some(Authority(Off, profile.revision, profile.binding));
        Log(before, CloseAuthority(snapshot, now));
      }
      r := Ok(true);
    }
  }

  lemma AnsweredTwice(a: Node, id: ClientId, r: Result<Order>, b: Node, q: Result<Order>, c: Node)
    requires Answered(a, id, r, b) && Answered(b, id, q, c)
    ensures Answered(a, id, q, c)
  {
    RowsGrowTransitive(a.rows, b.rows, c.rows);
    forall i | 0 <= i < |a.rows| && a.rows[i].request.clientId != id
      ensures c.rows[i] == a.rows[i]
    {
      assert b.rows[i] == a.rows[i];
    }
  }
}
