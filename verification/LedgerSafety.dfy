/** What every account run keeps, whatever the broker answers: ledger discipline, at most one POST
per order with its row written first, and a book that never goes short.
*/
module LedgerSafety {
  import opened Contracts
  import opened Ledgers
  import opened Accounts

  // ---- The invariant ----------------------------------------------------------------------

  predicate RowOk(row: Row, binding: Binding) {
    && ValidIntent(row.request)
    && row.binding == binding
    && (row.state.Prepared? ==> row.result.None?)
    && (Terminal(row.state) ==> row.result.Some? && row.result.value.state == row.state)
    && (row.result.Some? ==> ValidOrder(row.result.value) && Matches(row.request, row.result.value))
  }

  function FilledOf(row: Row): real {
    if row.result.Some? then row.result.value.filled else 0.0
  }

  /** What a pending sell may still take out of the book. */
  function Reserved(rows: seq<Row>, symbol: Symbol): real {
    if rows == [] || Terminal(rows[|rows| - 1].state) then 0.0
    else
      var row := rows[|rows| - 1];
      if row.request.side.Sell? && row.request.symbol == symbol then row.request.quantity - FilledOf(row)
      else 0.0
  }

  ghost predicate NotShort(rows: seq<Row>) {
    && (forall s: Symbol :: 0.0 <= Reserved(rows, s) <= Held(rows, s))
    && (rows != [] ==> Covered(rows[..|rows| - 1]))
  }

  ghost predicate Covered(rows: seq<Row>) {
    forall s: Symbol :: 0.0 <= Held(rows, s)
  }

  /** Only the newest row may be unresolved. */
  ghost predicate RowsOk(rows: seq<Row>, binding: Binding) {
    && DistinctIds(rows)
    && (forall i | 0 <= i < |rows| :: RowOk(rows[i], binding))
    && (forall i | 0 <= i < |rows| - 1 :: Terminal(rows[i].state))
    && NotShort(rows)
  }

  /** Each dispatch has its own id, and the row it was written ahead to. */
  ghost predicate PostsOk(n: Node) {
    && (forall i, j | 0 <= i < j < |n.posts| :: n.posts[i].intent.clientId != n.posts[j].intent.clientId)
    && (forall i | 0 <= i < |n.posts| ::
          && n.posts[i].deadline <= n.posts[i].intent.expiresAt
          && Find(n.rows, n.posts[i].intent.clientId).Some?
          && Find(n.rows, n.posts[i].intent.clientId).value.request == n.posts[i].intent)
  }

  ghost predicate PhaseOk(n: Node) {
    match n.phase
    case Dispatching(intent, deadline) =>
      && n.rows != [] && n.rows[|n.rows| - 1] == Row(intent, n.profile.binding, Prepared, None)
      && deadline <= intent.expiresAt
      && forall i | 0 <= i < |n.posts| :: n.posts[i].intent.clientId != intent.clientId
    case Posted(intent) =>
      && n.rows != [] && n.rows[|n.rows| - 1].request == intent && !Terminal(n.rows[|n.rows| - 1].state)
    case _ => true
  }

  ghost predicate Sound(n: Node) {
    RowsOk(n.rows, n.profile.binding) && PostsOk(n) && PhaseOk(n)
  }

  // ---- How rows may change ----------------------------------------------------------------

  /** A row keeps its request; an ended row never changes; a broker id and a fill never go back. */
  predicate RowGrows(a: Row, b: Row) {
    && b.request == a.request && b.binding == a.binding
    && (Terminal(a.state) ==> b == a)
    && (a.result.Some? ==>
          && b.result.Some?
          && b.result.value.orderId == a.result.value.orderId
          && b.result.value.filled >= a.result.value.filled)
  }

  ghost predicate RowsGrow(a: seq<Row>, b: seq<Row>) {
    |a| <= |b| && forall i | 0 <= i < |a| :: RowGrows(a[i], b[i])
  }

  /** The one unresolved row is the last one, so that is the row every record touches. */
  lemma UnresolvedIsLast(rows: seq<Row>, binding: Binding, id: ClientId)
    requires RowsOk(rows, binding)
    requires Find(rows, id).Some? && !Terminal(Find(rows, id).value.state)
    ensures rows != [] && IndexOf(rows, id) == |rows| - 1
  {
  }

  /** Recording a matching order, or an uncertain outcome, on the unresolved row keeps `RowsOk`. */
  lemma RecordKeepsRows(rows: seq<Row>, binding: Binding, id: ClientId, state: OrderState, result: Option<Order>)
    requires RowsOk(rows, binding)
    requires Find(rows, id).Some? && !Terminal(Find(rows, id).value.state)
    requires result.Some? ==> result.value.state == state && Progress(Find(rows, id).value, result.value)
    requires result.None? ==> state.Unknown?
    ensures RowsOk(Recorded(rows, id, state, result), binding)
    ensures RowsGrow(rows, Recorded(rows, id, state, result))
  {
    UnresolvedIsLast(rows, binding, id);
    var last := rows[|rows| - 1];
    var rows' := Recorded(rows, id, state, result);
    var last' := rows'[|rows| - 1];
    assert rows' == rows[|rows| - 1 := last'];
    assert RowOk(last, binding) && RowOk(last', binding);
    assert rows'[..|rows| - 1] == rows[..|rows| - 1];
    forall s: Symbol
      ensures 0.0 <= Reserved(rows', s) <= Held(rows', s)
    {
      HeldOfUpdatedLast(rows, last', s);
      assert 0.0 <= Reserved(rows, s) <= Held(rows, s);
      if rows[..|rows| - 1] != [] {
        assert Held(rows, s) == Held(rows[..|rows| - 1], s) + Contribution(last, s);
      }
    }
  }

  lemma RecordKeepsFind(rows: seq<Row>, id: ClientId, state: OrderState, result: Option<Order>, other: ClientId)
    requires DistinctIds(rows) && Find(rows, other).Some?
    ensures Find(Recorded(rows, id, state, result), other).Some?
    ensures Find(Recorded(rows, id, state, result), other).value.request == Find(rows, other).value.request
    ensures other != id ==> Find(Recorded(rows, id, state, result), other) == Find(rows, other)
  {
    var rows' := Recorded(rows, id, state, result);
    assert DistinctIds(rows');
    FindAt(rows', IndexOf(rows, other));
  }

  lemma AppendKeepsFind(rows: seq<Row>, row: Row, other: ClientId)
    requires row.request.clientId != other
    ensures Find(rows + [row], other) == Find(rows, other)
    ensures Find(rows + [row], row.request.clientId) == Some(row)
  {
    assert (rows + [row])[..|rows|] == rows;
  }

  // ---- Every step keeps it ----------------------------------------------------------------

  /** A sell is admitted only against a snapshot that agrees with the book and holds the quantity. */
  lemma PrepareKeepsRows(rows: seq<Row>, binding: Binding, intent: Intent, positions: seq<Position>)
    requires RowsOk(rows, binding) && NonePending(rows) && Holdings(positions) == Book(rows)
    requires ValidIntent(intent) && Find(rows, intent.clientId).None?
    requires intent.side.Sell? ==> intent.quantity <= Quantity(positions, intent.symbol)
    ensures RowsOk(rows + [Row(intent, binding, Prepared, None)], binding)
    ensures RowsGrow(rows, rows + [Row(intent, binding, Prepared, None)])
  {
    var row := Row(intent, binding, Prepared, None);
    var rows' := rows + [row];
    forall i | 0 <= i < |rows|
      ensures Terminal(rows[i].state)
    {
      assert !Pending(rows[i]);
    }
    SameBook(positions, rows);
    assert Agrees(positions, rows);
    forall x: Symbol
      ensures 0.0 <= Reserved(rows', x) <= Held(rows', x)
    {
      HeldOfAppended(rows, row, x);
      assert Quantity(positions, x) == Held(rows, x);
      assert 0.0 <= Reserved(rows, x) <= Held(rows, x);
    }
    assert rows'[..|rows|] == rows;
  }

  lemma PostsKept(n: Node, id: ClientId, state: OrderState, result: Option<Order>)
    requires DistinctIds(n.rows) && PostsOk(n)
    ensures PostsOk(WithRow(n, id, state, result))
  {
    forall i | 0 <= i < |n.posts|
      ensures Find(Recorded(n.rows, id, state, result), n.posts[i].intent.clientId).Some?
      ensures Find(Recorded(n.rows, id, state, result), n.posts[i].intent.clientId).value.request == n.posts[i].intent
    {
      RecordKeepsFind(n.rows, id, state, result, n.posts[i].intent.clientId);
    }
  }

  /** The row being submitted is the last one and is found under its id. */
  lemma PostedRow(n: Node)
    requires Sound(n) && (n.phase.Posted? || n.phase.Dispatching?)
    ensures Find(n.rows, n.phase.intent.clientId) == Some(n.rows[|n.rows| - 1])
    ensures !Terminal(n.rows[|n.rows| - 1].state)
  {
    FindAt(n.rows, |n.rows| - 1);
  }

  /** A record step: which row, and with what. */
  predicate Records(n: Node, s: Step) {
    s.Acknowledge? || s.Reply? || s.ReplyLost? || s.Reconcile? || s.ReconcileFailed? || s.CancelPending?
  }

  function RecordedId(n: Node, s: Step): ClientId
    requires Records(n, s) && Enabled(n, s)
  {
    if s.Reconcile? || s.ReconcileFailed? || s.CancelPending? then s.id else n.phase.intent.clientId
  }

  function RecordedResult(n: Node, s: Step): Option<Order>
    requires Records(n, s) && Enabled(n, s)
  {
    match s
    case Acknowledge(orderId) => Some(Contracts.Receipt(n.phase.intent, orderId))
    case Reply(order) => Some(order)
    case Reconcile(_, order) => Some(order)
    case _ => None
  }

  function RecordedState(n: Node, s: Step): OrderState
    requires Records(n, s) && Enabled(n, s)
  {
    var r := RecordedResult(n, s);
    if r.Some? then r.value.state else Unknown
  }

  /** Every record writes a matching order, or an uncertain outcome, on a row that has not ended. */
  lemma RecordShape(n: Node, s: Step)
    requires Sound(n) && Records(n, s) && Enabled(n, s)
    ensures var id, r := RecordedId(n, s), RecordedResult(n, s);
      && Find(n.rows, id).Some? && !Terminal(Find(n.rows, id).value.state)
      && (r.Some? ==> Progress(Find(n.rows, id).value, r.value))
    ensures Apply(n, s) ==
            WithRow(n, RecordedId(n, s), RecordedState(n, s), RecordedResult(n, s)).(phase := Apply(n, s).phase)
    ensures Apply(n, s).phase == n.phase || Apply(n, s).phase.Idle?
    ensures s.Acknowledge? || Apply(n, s).phase.Idle?
  {
    if n.phase.Posted? {
      PostedRow(n);
    }
  }

  /** A receipt names a row that stays open. */
  lemma PhaseKept(n: Node, n': Node)
    requires PhaseOk(n) && (n'.phase.Idle? || (n'.phase == n.phase && n.phase.Posted?))
    requires n'.rows != [] && |n'.rows| == |n.rows|
    requires n'.rows[|n'.rows| - 1].request == n.rows[|n.rows| - 1].request
    requires n'.phase.Posted? ==> !Terminal(n'.rows[|n'.rows| - 1].state)
    ensures PhaseOk(n')
  {
  }

  lemma RecordStep(n: Node, s: Step)
    requires Sound(n) && Records(n, s) && Enabled(n, s)
    ensures Apply(n, s).rows == Recorded(n.rows, RecordedId(n, s), RecordedState(n, s), RecordedResult(n, s))
    ensures Sound(Apply(n, s))
    ensures RowsGrow(n.rows, Apply(n, s).rows)
  {
    RecordShape(n, s);
    var id, state, result := RecordedId(n, s), RecordedState(n, s), RecordedResult(n, s);
    UnresolvedIsLast(n.rows, n.profile.binding, id);
    RecordKeepsRows(n.rows, n.profile.binding, id, state, result);
    PostsKept(n, id, state, result);
    PhaseKept(n, Apply(n, s));
  }

  lemma PrepareSound(n: Node, s: Step)
    requires Sound(n) && s.Prepare? && Enabled(n, s)
    ensures Sound(Apply(n, s)) && RowsGrow(n.rows, Apply(n, s).rows)
  {
    Admitted(n.profile, n.rows, n.authority, s.intent, s.quote, s.snapshot, s.clock);
    PrepareKeepsRows(n.rows, n.profile.binding, s.intent, s.snapshot.positions);
    var row := Row(s.intent, n.profile.binding, Prepared, None);
    forall i | 0 <= i < |n.posts|
      ensures n.posts[i].intent.clientId != s.intent.clientId
      ensures Find(n.rows + [row], n.posts[i].intent.clientId) == Find(n.rows, n.posts[i].intent.clientId)
    {
      AppendKeepsFind(n.rows, row, n.posts[i].intent.clientId);
    }
  }

  lemma PostSound(n: Node, s: Step)
    requires Sound(n) && s.Post? && Enabled(n, s)
    ensures Sound(Apply(n, s)) && RowsGrow(n.rows, Apply(n, s).rows)
  {
    PostedRow(n);
  }

  /** The other steps touch neither rows nor posts, and start nothing. */
  lemma OtherStep(n: Node, s: Step)
    requires Enabled(n, s) && !Records(n, s) && !s.Prepare? && !s.Post?
    ensures Apply(n, s).rows == n.rows && Apply(n, s).posts == n.posts
    ensures Apply(n, s).phase == n.phase || Apply(n, s).phase.Idle? || Apply(n, s).phase.Revoking?
    ensures Apply(n, s).profile.binding == n.profile.binding
  {
  }

  lemma StepSound(n: Node, s: Step)
    requires Sound(n) && Enabled(n, s)
    ensures Sound(Apply(n, s))
    ensures RowsGrow(n.rows, Apply(n, s).rows)
    ensures Apply(n, s).profile.binding == n.profile.binding
  {
    if Records(n, s) {
      RecordStep(n, s);
    } else if s.Prepare? {
      PrepareSound(n, s);
    } else if s.Post? {
      PostSound(n, s);
    } else {
      OtherStep(n, s);
    }
  }

  lemma {:induction false} RunSound(n: Node, run: seq<Step>)
    requires Sound(n) && Legal(n, run)
    ensures Sound(After(n, run))
    ensures RowsGrow(n.rows, After(n, run).rows)
    ensures After(n, run).profile.binding == n.profile.binding
  {
    if run != [] {
      var front := run[..|run| - 1];
      RunSound(n, front);
      StepSound(After(n, front), run[|run| - 1]);
    }
  }

  // ---- What it means ----------------------------------------------------------------------

  /** Over any run from an empty account: at most one row is unresolved, no id is reused, an ended
  row carries a result that ended the same way, and every result answers its request. */
  lemma RowDiscipline(profile: Profile, run: seq<Step>)
    requires Legal(Fresh(profile), run)
    ensures var rows := After(Fresh(profile), run).rows;
      && DistinctIds(rows)
      && (forall i, j | 0 <= i < |rows| && 0 <= j < |rows| && Pending(rows[i]) && Pending(rows[j]) :: i == j)
      && (forall i | 0 <= i < |rows| && Terminal(rows[i].state) ::
            rows[i].result.Some? && rows[i].result.value.state == rows[i].state)
      && (forall i | 0 <= i < |rows| && rows[i].result.Some? :: Matches(rows[i].request, rows[i].result.value))
  {
    RunSound(Fresh(profile), run);
    var rows := After(Fresh(profile), run).rows;
    forall i | 0 <= i < |rows|
      ensures RowOk(rows[i], profile.binding)
    {
    }
  }

  /** Between any two moments of a run rows only grow: same request, ended rows frozen, the broker's
  order id kept, the recorded fill never smaller. */
  lemma RowsOnlyGrow(profile: Profile, run: seq<Step>, k: nat)
    requires Legal(Fresh(profile), run) && k <= |run|
    ensures Legal(Fresh(profile), run[..k])
    ensures RowsGrow(After(Fresh(profile), run[..k]).rows, After(Fresh(profile), run).rows)
    decreases |run|
  {
    LegalPrefix(Fresh(profile), run, k);
    if k == |run| {
      assert run[..k] == run;
    } else {
      var front := run[..|run| - 1];
      RowsOnlyGrow(profile, front, k);
      assert front[..k] == run[..k];
      RunSound(Fresh(profile), front);
      StepSound(After(Fresh(profile), front), run[|run| - 1]);
      RowsGrowTransitive(
        After(Fresh(profile), run[..k]).rows, After(Fresh(profile), front).rows, After(Fresh(profile), run).rows);
    }
  }

  lemma RowsGrowTransitive(a: seq<Row>, b: seq<Row>, c: seq<Row>)
    requires RowsGrow(a, b) && RowsGrow(b, c)
    ensures RowsGrow(a, c)
  {
    forall i | 0 <= i < |a|
      ensures RowGrows(a[i], c[i])
    {
      assert RowGrows(a[i], b[i]) && RowGrows(b[i], c[i]);
    }
  }

  /** Over any run, crashes included, `adapter.submit` is called at most once per client id, and when
  it is called the ledger already holds that request for this account. */
  lemma AtMostOncePost(profile: Profile, run: seq<Step>, k: nat)
    requires Legal(Fresh(profile), run) && k < |run| && run[k].Post?
    ensures Legal(Fresh(profile), run[..k])
    ensures var before := After(Fresh(profile), run[..k]); var sent := before.phase;
      && sent.Dispatching?
      && Find(before.rows, sent.intent.clientId) == Some(Row(sent.intent, profile.binding, Prepared, None))
      && (forall i | 0 <= i < |before.posts| :: before.posts[i].intent.clientId != sent.intent.clientId)
    ensures var posts := After(Fresh(profile), run).posts;
      forall i, j | 0 <= i < j < |posts| :: posts[i].intent.clientId != posts[j].intent.clientId
  {
    LegalPrefix(Fresh(profile), run, k);
    LegalPrefix(Fresh(profile), run, k + 1);
    assert run[..k + 1][..k] == run[..k];
    RunSound(Fresh(profile), run[..k]);
    RunSound(Fresh(profile), run);
    PostedRow(After(Fresh(profile), run[..k]));
  }

  /** The recorded book is never short, and what a pending sell can still take is covered by it. */
  lemma NeverShort(profile: Profile, run: seq<Step>, symbol: Symbol)
    requires Legal(Fresh(profile), run)
    ensures 0.0 <= Reserved(After(Fresh(profile), run).rows, symbol) <= Held(After(Fresh(profile), run).rows, symbol)
  {
    RunSound(Fresh(profile), run);
  }
}
