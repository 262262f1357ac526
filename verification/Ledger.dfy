/** The per-account SQLite ledger: an ordered table of owned order intents, the plan table and the
audit receipts.  The functions give the tables' meaning; the class is the store itself.
*/
module Ledgers {
  import opened Contracts

  /** One row of `intents`: `record` keeps an old result when it is given none. */
  datatype Row = Row(request: Intent, binding: Binding, state: OrderState, result: Option<Order>)

  datatype PlanState =
    | Staged | EntryWorking | Monitoring | ExitPrepared | ExitWorking
    | Closed | Expired | Unfilled | ManualReview

  datatype Plan = Plan(
    planId: PlanId, binding: Binding, revision: nat, auditId: nat, auditedAt: int, entry: Intent,
    exitAt: int, stopPrice: real, targetPrice: real)

  /** The plan's own validator, on top of the validators of its parts. */
  predicate ValidPlan(p: Plan) {
    && p.entry.side.Buy? && p.entry.clientId.Named? && ValidIntent(p.entry)
    && p.auditedAt < p.entry.expiresAt <= p.auditedAt + 300
    && p.entry.expiresAt < p.exitAt <= p.auditedAt + 7776000
    && 0.0 < p.stopPrice < p.entry.limitPrice < p.targetPrice
  }

  datatype PlanRow = PlanRow(plan: Plan, state: PlanState, exitRequest: Option<Intent>)

  /** One row of `broker_audits`; the digest is the hashed plan. */
  datatype Audit = Audit(digest: Plan, auditId: nat, expressionHash: nat, artifactHash: nat)

  // ---- Rows -------------------------------------------------------------------------------

  function IndexOf(rows: seq<Row>, id: ClientId): (i: int)
    ensures -1 <= i < |rows|
    ensures i >= 0 ==> rows[i].request.clientId == id
    ensures i < 0 ==> forall k | 0 <= k < |rows| :: rows[k].request.clientId != id
  {
    if rows == [] then -1
    else if rows[|rows| - 1].request.clientId == id then |rows| - 1
    else IndexOf(rows[..|rows| - 1], id)
  }

  function Find(rows: seq<Row>, id: ClientId): Option<Row> {
    var i := IndexOf(rows, id);
    if i < 0 then None else Some(rows[i])
  }

  /** The new state, and the new result unless it is missing: then the recorded one stays. */
  function Updated(row: Row, state: OrderState, result: Option<Order>): Row {
    row.(state := state, result := if result.Some? then result else row.result)
  }

  function Recorded(rows: seq<Row>, id: ClientId, state: OrderState, result: Option<Order>): seq<Row> {
    var i := IndexOf(rows, id);
    if i < 0 then rows else rows[i := Updated(rows[i], state, result)]
  }

  predicate Pending(row: Row) {
    row.state.Prepared? || row.state.Unknown? || row.state.Working?
  }

  predicate NonePending(rows: seq<Row>) {
    forall i | 0 <= i < |rows| :: !Pending(rows[i])
  }

  predicate DistinctIds(rows: seq<Row>) {
    forall i, j | 0 <= i < j < |rows| :: rows[i].request.clientId != rows[j].request.clientId
  }

  // ---- The position book ------------------------------------------------------------------

  function Signed(side: Side, quantity: real): real {
    if side.Buy? then quantity else -quantity
  }

  function Contribution(row: Row, symbol: Symbol): real {
    if row.result.Some? && row.result.value.symbol == symbol
    then Signed(row.result.value.side, row.result.value.filled)
    else 0.0
  }

  /** The signed sum of the recorded fills of one symbol. */
  function Held(rows: seq<Row>, symbol: Symbol): real {
    if rows == [] then 0.0
    else Held(rows[..|rows| - 1], symbol) + Contribution(rows[|rows| - 1], symbol)
  }

  function Symbols(rows: seq<Row>): set<Symbol> {
    set i | 0 <= i < |rows| && rows[i].result.Some? :: rows[i].result.value.symbol
  }

  /** `_position_book`: every symbol with a non-zero recorded sum. */
  function Book(rows: seq<Row>): map<Symbol, real> {
    map s | s in Symbols(rows) && Held(rows, s) != 0.0 :: Held(rows, s)
  }

  ghost predicate Flat(rows: seq<Row>) {
    forall s: Symbol :: Held(rows, s) == 0.0
  }

  /** Every row has ended with a result. */
  predicate Settled(rows: seq<Row>) {
    forall i | 0 <= i < |rows| :: Terminal(rows[i].state) && rows[i].result.Some?
  }

  /** No row is unresolved and the recorded fills cancel; how many rows there are does not matter. */
  predicate FlatAndSettled(rows: seq<Row>)
    ensures FlatAndSettled(rows) <==> Settled(rows) && Flat(rows)
  {
    BookEmptyIffFlat(rows);
    Settled(rows) && Book(rows) == map[]
  }

  lemma HeldOfMissing(rows: seq<Row>, symbol: Symbol)
    requires symbol !in Symbols(rows)
    ensures Held(rows, symbol) == 0.0
  {
    if rows != [] {
      var front := rows[..|rows| - 1];
      assert symbol !in Symbols(front) by {
        forall i | 0 <= i < |front| && front[i].result.Some?
          ensures front[i].result.value.symbol != symbol
        {
          assert rows[i].result.value.symbol in Symbols(rows);
        }
      }
      HeldOfMissing(front, symbol);
      var row := rows[|rows| - 1];
      if row.result.Some? {
        assert row.result.value.symbol in Symbols(rows);
      }
    }
  }

  /** The book and the per-symbol sums say the same thing. */
  lemma BookExact(rows: seq<Row>, symbol: Symbol)
    ensures symbol in Book(rows) <==> Held(rows, symbol) != 0.0
    ensures symbol in Book(rows) ==> Book(rows)[symbol] == Held(rows, symbol)
  {
    if symbol !in Symbols(rows) {
      HeldOfMissing(rows, symbol);
    }
  }

  lemma BookEmptyIffFlat(rows: seq<Row>)
    ensures Book(rows) == map[] <==> Flat(rows)
  {
    forall s: Symbol
      ensures s in Book(rows) <==> Held(rows, s) != 0.0
    {
      BookExact(rows, s);
    }
    if Flat(rows) {
      assert Book(rows).Keys == {};
    }
  }

  ghost predicate Agrees(positions: seq<Position>, rows: seq<Row>) {
    forall s: Symbol :: Quantity(positions, s) == Held(rows, s)
  }

  /** A snapshot and the ledger show the same book exactly when they agree on every symbol. */
  lemma SameBook(positions: seq<Position>, rows: seq<Row>)
    ensures Holdings(positions) == Book(rows) <==> Agrees(positions, rows)
  {
    forall s: Symbol
      ensures s in Holdings(positions) <==> Quantity(positions, s) != 0.0
      ensures s in Holdings(positions) ==> Holdings(positions)[s] == Quantity(positions, s)
      ensures s in Book(rows) <==> Held(rows, s) != 0.0
      ensures s in Book(rows) ==> Book(rows)[s] == Held(rows, s)
    {
      HoldingsExact(positions, s);
      BookExact(rows, s);
    }
    var actual, book := Holdings(positions), Book(rows);
    if actual == book {
      forall s: Symbol
        ensures Quantity(positions, s) == Held(rows, s)
      {
        assert s in actual <==> s in book;
      }
    }
  }

  /** Recording on the last row changes only that row's contribution. */
  lemma HeldOfUpdatedLast(rows: seq<Row>, row: Row, symbol: Symbol)
    requires rows != []
    ensures Held(rows[|rows| - 1 := row], symbol) ==
            Held(rows[..|rows| - 1], symbol) + Contribution(row, symbol)
  {
    assert rows[|rows| - 1 := row][..|rows| - 1] == rows[..|rows| - 1];
  }

  lemma HeldOfAppended(rows: seq<Row>, row: Row, symbol: Symbol)
    ensures Held(rows + [row], symbol) == Held(rows, symbol) + Contribution(row, symbol)
  {
    assert (rows + [row])[..|rows|] == rows;
  }

  /** With distinct ids the row at `i` is the one found under its id. */
  lemma FindAt(rows: seq<Row>, i: nat)
    requires i < |rows| && DistinctIds(rows)
    ensures IndexOf(rows, rows[i].request.clientId) == i
    ensures Find(rows, rows[i].request.clientId) == Some(rows[i])
  {
    var j := IndexOf(rows, rows[i].request.clientId);
  }

  /** An id that is already in the ledger may only come back with the same request and account. */
  function Reuse(row: Row, profile: Profile, intent: Intent): Result<bool> {
    if row.request == intent && row.binding == profile.binding then Ok(false) else Err(ClientIdConflict)
  }

  // ---- The store --------------------------------------------------------------------------

  class Ledger {
    var intents: seq<Row>
    var plans: seq<PlanRow>
    var audits: map<PlanId, Audit>

    constructor (intents: seq<Row>, plans: seq<PlanRow>, audits: map<PlanId, Audit>)
      ensures this.intents == intents && this.plans == plans && this.audits == audits
    {
      this.intents, this.plans, this.audits := intents, plans, audits;
    }

    /** Verifies exact reuse of an id, or makes the intent durable before anything is sent. */
    method Prepare(profile: Profile, intent: Intent) returns (r: Result<bool>)
      modifies this`intents
      ensures Find(old(intents), intent.clientId).None? ==>
                && r == Ok(true)
                && intents == old(intents) + [Row(intent, profile.binding, Prepared, None)]
      ensures Find(old(intents), intent.clientId).Some? ==>
                && intents == old(intents)
                && r == Reuse(Find(old(intents), intent.clientId).value, profile, intent)
    {
      var current := Find(intents, intent.clientId);
      if current.Some? {
        if current.value.request != intent || current.value.binding != profile.binding {
          return Err(ClientIdConflict);
        }
        return Ok(false);
      }
      intents := intents + [Row(intent, profile.binding, Prepared, None)];
      r := Ok(true);
    }

    method Record(id: ClientId, state: OrderState, result: Option<Order>)
      modifies this`intents
      ensures intents == Recorded(old(intents), id, state, result)
    {
      var i := IndexOf(intents, id);
      if i >= 0 {
        intents := intents[i := Updated(intents[i], state, result)];
      }
    }

    method IsFlatAndSettled() returns (flat: bool)
      ensures flat == FlatAndSettled(intents)
    {
      var book: map<Symbol, real> := map[];
      var i := 0;
      while i < |intents|
        invariant 0 <= i <= |intents|
        invariant Settled(intents[..i])
        invariant forall s: Symbol :: (if s in book then book[s] else 0.0) == Held(intents[..i], s)
      {
        var row := intents[i];
        if !Terminal(row.state) || row.result.None? {
          return false;
        }
        assert intents[..i + 1] == intents[..i] + [row];
        forall s: Symbol {
          HeldOfAppended(intents[..i], row, s);
        }
        var result := row.result.value;
        var before := if result.symbol in book then book[result.symbol] else 0.0;
        book := book[result.symbol := before + Signed(result.side, result.filled)];
        i := i + 1;
      }
      assert intents[..i] == intents;
      flat := forall s | s in book :: book[s] == 0.0;
      if flat {
        assert Flat(intents);
      } else {
        var s :| s in book && book[s] != 0.0;
        assert Held(intents, s) != 0.0;
      }
    }

    /** The loop of `_position_book`: accumulate, then drop the zero entries. */
    method PositionBook() returns (book: map<Symbol, real>)
      ensures book == Book(intents)
    {
      var positions: map<Symbol, real> := map[];
      for i := 0 to |intents|
        invariant forall s: Symbol :: (if s in positions then positions[s] else 0.0) == Held(intents[..i], s)
      {
        var row := intents[i];
        assert intents[..i + 1] == intents[..i] + [row];
        forall s: Symbol {
          HeldOfAppended(intents[..i], row, s);
        }
        if row.result.Some? {
          var result := row.result.value;
          var before := if result.symbol in positions then positions[result.symbol] else 0.0;
          positions := positions[result.symbol := before + Signed(result.side, result.filled)];
        }
      }
      assert intents[..|intents|] == intents;
      book := map s | s in positions && positions[s] != 0.0 :: positions[s];
      forall s: Symbol {
        BookExact(intents, s);
      }
      assert forall s: Symbol :: s in book <==> s in Book(intents);
    }
  }
}
