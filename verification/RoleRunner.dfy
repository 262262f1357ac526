/** `StructuredRoleRunner`: one run id, one database row, at most one artifact, and any number of
concurrent workers that may die at any point.

Each database transaction is one step; so is the start of a model turn and its answer.  A world holds
the row, the artifact, every worker that was ever called for this run id, and the attempts whose model
turn has begun.
*/
module RoleRuns {
  import opened Contracts
  import opened Ordering

  type Output = nat

  const MAX_ATTEMPTS := 2

  datatype Status = Running | Succeeded | Failed

  /** What a caller asks for; the cycle, the frozen input's hash and the model route must not change. */
  datatype Job = Job(cycle: nat, role: nat, inputHash: nat, route: nat)

  /** One row of `research.run`; an older row may have no cycle yet. */
  datatype Run = Run(
    shadow: bool, cycle: Option<nat>, role: nat, inputHash: nat, route: nat, status: Status, attempts: nat)

  datatype Failure =
    | RouteChanged | MissingOutput | RecoveredInvalid | DifferentInput | DifferentRoute | NotRecovered
    | Exhausted | LostRunning | InvalidOutput | DeadlineExceeded | BudgetExceeded | ClientFailed

  /** What the model turn came to: a validated value, or one of the caught exceptions. */
  datatype Reply = Valid(value: Output) | Invalid | TooLate | OverBudget | Broken

  /** Where a worker is: between which two steps. */
  datatype Pc =
    | Asked
    | Seen(run: Run, artifact: Option<Output>)
    | Ready
    | Started(attempt: nat)
    | Turning(attempt: nat)
    | Turned(attempt: nat, reply: Reply)
    | Lost(attempt: nat)
    | Done(value: Output, recovered: bool)
    | Raised(failure: Failure)
    | Dead

  datatype Worker = Worker(job: Job, pc: Pc)

  datatype World = World(row: Option<Run>, artifact: Option<Output>, workers: seq<Worker>, turns: seq<nat>)

  datatype Move =
    | Call(job: Job)
    | Look(i: nat, decodes: bool)
    | Claim(i: nat, decodes: bool)
    | Start(i: nat)
    | Begin(i: nat)
    | Answer(i: nat, reply: Reply)
    | Settle(i: nat)
    | GiveUp(i: nat)
    | Die(i: nat)

  /** What `_existing` concludes from the row it read. */
  function Judge(job: Job, run: Run, artifact: Option<Output>, decodes: bool): Pc {
    if run.cycle != Some(job.cycle) || run.route != job.route then Raised(RouteChanged)
    else if !run.status.Succeeded? then Ready
    else if artifact.None? then Raised(MissingOutput)
    else if !decodes then Raised(RecoveredInvalid)
    else Done(artifact.value, true)
  }

  /** The checks of `_start` on a row that is already there. */
  function StartRefusal(job: Job, run: Run): Option<Failure> {
    if !(run.shadow && run.cycle == Some(job.cycle) && run.role == job.role && run.inputHash == job.inputHash)
      then Some(DifferentInput)
    else if run.route != job.route then Some(DifferentRoute)
    else if run.status.Succeeded? then Some(NotRecovered)
    else if run.attempts >= MAX_ATTEMPTS then Some(Exhausted)
    else None
  }

  function Inserted(job: Job): Run {
    Run(true, Some(job.cycle), job.role, job.inputHash, job.route, Running, 1)
  }

  /** Only a run that is still running can fail. */
  function FailedRow(row: Option<Run>): Option<Run> {
    if row.Some? && row.value.status.Running? then Some(row.value.(status := Failed)) else row
  }

  function ClaimedRow(row: Option<Run>, cycle: nat): Option<Run> {
    if row.Some? && row.value.cycle.None? then Some(row.value.(cycle := Some(cycle))) else row
  }

  predicate IsRunning(row: Option<Run>) {
    row.Some? && row.value.status.Running?
  }

  /** After a failed attempt: retry an invalid answer or a missed deadline while the budget lasts. */
  function AfterFailure(attempt: nat, reply: Reply): Pc {
    if reply.Invalid? then (if attempt < MAX_ATTEMPTS then Ready else Raised(InvalidOutput))
    else if reply.TooLate? then (if attempt < MAX_ATTEMPTS then Ready else Raised(DeadlineExceeded))
    else if reply.OverBudget? then Raised(BudgetExceeded)
    else Raised(ClientFailed)
  }

  predicate Live(pc: Pc) {
    !pc.Done? && !pc.Raised? && !pc.Dead?
  }

  predicate Can(w: World, m: Move) {
    match m
    case Call(_) => true
    case Look(i, _) => i < |w.workers| && w.workers[i].pc.Asked?
    case Claim(i, _) => i < |w.workers| && w.workers[i].pc.Seen?
    case Start(i) => i < |w.workers| && w.workers[i].pc.Ready?
    case Begin(i) => i < |w.workers| && w.workers[i].pc.Started?
    case Answer(i, _) => i < |w.workers| && w.workers[i].pc.Turning?
    case Settle(i) => i < |w.workers| && w.workers[i].pc.Turned?
    case GiveUp(i) => i < |w.workers| && w.workers[i].pc.Lost?
    case Die(i) => i < |w.workers| && Live(w.workers[i].pc)
  }

  function At(w: World, i: nat, pc: Pc): World
    requires i < |w.workers|
  {
    w.(workers := w.workers[i := w.workers[i].(pc := pc)])
  }

  function Moved(w: World, m: Move): World
    requires Can(w, m)
  {
    match m
    case Call(job) => w.(workers := w.workers + [Worker(job, Asked)])
    case Look(i, decodes) =>
      if w.row.None? then At(w, i, Ready)
      else if w.row.value.cycle.None? then At(w, i, Seen(w.row.value, w.artifact))
      else At(w, i, Judge(w.workers[i].job, w.row.value, w.artifact, decodes))
    case Claim(i, decodes) =>
      var job, seen := w.workers[i].job, w.workers[i].pc;
      At(w, i, Judge(job, seen.run.(cycle := Some(job.cycle)), seen.artifact, decodes))
        .(row := ClaimedRow(w.row, job.cycle))
    case Start(i) =>
      var job := w.workers[i].job;
      if w.row.None? then At(w, i, Started(1)).(row := Some(Inserted(job)))
      else if StartRefusal(job, w.row.value).Some? then At(w, i, Raised(StartRefusal(job, w.row.value).value))
      else
        var attempts := w.row.value.attempts + 1;
        At(w, i, Started(attempts)).(row := Some(w.row.value.(status := Running, attempts := attempts)))
    case Begin(i) =>
      var attempt := w.workers[i].pc.attempt;
      At(w, i, Turning(attempt)).(turns := w.turns + [attempt])
    case Answer(i, reply) => At(w, i, Turned(w.workers[i].pc.attempt, reply))
    case Settle(i) =>
      var attempt, reply := w.workers[i].pc.attempt, w.workers[i].pc.reply;
      if !reply.Valid? then At(w, i, AfterFailure(attempt, reply)).(row := FailedRow(w.row))
      else if !IsRunning(w.row) then At(w, i, Lost(attempt))
      else
        At(w, i, Done(reply.value, false)).(
          row := Some(w.row.value.(status := Succeeded)),
          artifact := if w.artifact.None? then Some(reply.value) else w.artifact)
    case GiveUp(i) => At(w, i, Raised(LostRunning)).(row := FailedRow(w.row))
    case Die(i) => At(w, i, Dead)
  }

  ghost predicate Runs(w: World, moves: seq<Move>, w': World)
    decreases |moves|
  {
    if moves == [] then w' == w
    else Can(w, moves[0]) && Runs(Moved(w, moves[0]), moves[1..], w')
  }

  /** Nobody has been called yet; a row left by earlier processes has its artifact exactly when it
  succeeded. */
  predicate Initial(w: World) {
    && w.workers == [] && w.turns == []
    && (w.row.None? ==> w.artifact.None?)
    && (w.row.Some? ==> w.row.value.attempts <= MAX_ATTEMPTS && (w.artifact.Some? <==> w.row.value.status.Succeeded?))
  }

  // ---- The invariant ----------------------------------------------------------------------

  /** The attempt a worker holds, from its start to its settlement. */
  function Holds(pc: Pc): nat {
    if pc.Started? || pc.Turning? || pc.Turned? || pc.Lost? then pc.attempt else 0
  }

  function Attempts(w: World): nat {
    if w.row.None? then 0 else w.row.value.attempts
  }

  predicate RowOk(w: World) {
    && Attempts(w) <= MAX_ATTEMPTS
    && (w.artifact.Some? <==> w.row.Some? && w.row.value.status.Succeeded?)
  }

  predicate PcOk(w: World, pc: Pc) {
    && Holds(pc) <= Attempts(w)
    && (pc.Started? ==> pc.attempt > 0 && pc.attempt !in w.turns)
    && (pc.Turning? || pc.Turned? || pc.Lost? ==> pc.attempt in w.turns)
    && (pc.Done? ==> w.artifact == Some(pc.value))
    && (pc.Seen? ==> w.row.Some? && (pc.run.status.Succeeded? ==> pc.artifact.Some? && pc.artifact == w.artifact))
  }

  /** No two workers hold the same attempt, and no two of them have returned a fresh value. */
  predicate Apart(p: Pc, q: Pc) {
    && (Holds(p) > 0 ==> Holds(p) != Holds(q))
    && !(p.Done? && !p.recovered && q.Done? && !q.recovered)
  }

  predicate WorkersApart(w: World) {
    forall i, j | 0 <= i < j < |w.workers| :: Apart(w.workers[i].pc, w.workers[j].pc)
  }

  predicate WorkersOk(w: World) {
    forall i | 0 <= i < |w.workers| :: PcOk(w, w.workers[i].pc)
  }

  predicate TurnsOk(w: World) {
    && (forall k | 0 <= k < |w.turns| :: 0 < w.turns[k] <= Attempts(w))
    && (forall j, k | 0 <= j < k < |w.turns| :: w.turns[j] != w.turns[k])
  }

  predicate Inv(w: World) {
    RowOk(w) && WorkersOk(w) && WorkersApart(w) && TurnsOk(w)
  }

  /** Everything about the row that workers rely on only grows. */
  predicate Grows(w: World, w': World) {
    && Attempts(w) <= Attempts(w')
    && (w.row.Some? ==> w'.row.Some?)
    && (w.artifact.Some? ==> w'.artifact == w.artifact && SameButCycle(w.row, w'.row))
  }

  /** A finished row stays as it is; only a missing cycle may still be filled in. */
  predicate SameButCycle(a: Option<Run>, b: Option<Run>) {
    a.Some? && b.Some? && b.value == a.value.(cycle := b.value.cycle)
    && (a.value.cycle.Some? ==> b.value.cycle == a.value.cycle)
  }

  lemma MoveGrows(w: World, m: Move)
    requires Inv(w) && Can(w, m)
    ensures Grows(w, Moved(w, m)) && RowOk(Moved(w, m))
  {
  }

  /** The worker that moves, against the world it leaves. */
  lemma MoverOk(w: World, m: Move)
    requires Inv(w) && Can(w, m) && !m.Call?
    ensures PcOk(Moved(w, m), Moved(w, m).workers[m.i].pc)
  {
    assert PcOk(w, w.workers[m.i].pc);
    if m.Begin? {
      assert Moved(w, m).turns[|w.turns|] == w.workers[m.i].pc.attempt;
    }
    if m.Answer? || m.Settle? {
      assert Moved(w, m).turns == w.turns;
    }
  }

  lemma OtherOk(w: World, m: Move, j: nat)
    requires Inv(w) && Can(w, m) && j < |w.workers| && (m.Call? || m.i != j)
    ensures PcOk(Moved(w, m), w.workers[j].pc)
  {
    var pc := w.workers[j].pc;
    assert PcOk(w, pc);
    MoveGrows(w, m);
    if m.Begin? {
      assert Moved(w, m).turns == w.turns + [w.workers[m.i].pc.attempt];
      if m.i < j {
        assert Apart(w.workers[m.i].pc, pc);
      } else {
        assert Apart(pc, w.workers[m.i].pc);
      }
    }
  }

  /** What the mover holds afterwards is what it held, nothing, or a brand-new attempt number; and a
  fresh value is returned only while there is no artifact. */
  lemma MoverHolds(w: World, m: Move)
    requires Inv(w) && Can(w, m) && !m.Call?
    ensures var p, p' := w.workers[m.i].pc, Moved(w, m).workers[m.i].pc;
      && (Holds(p') == Holds(p) || Holds(p') == 0 || Holds(p') == Attempts(w) + 1)
      && (p'.Done? && !p'.recovered ==> w.artifact.None?)
  {
  }

  lemma MoveApart(w: World, m: Move)
    requires Inv(w) && Can(w, m)
    ensures WorkersApart(Moved(w, m))
  {
    var w' := Moved(w, m);
    forall i, j | 0 <= i < j < |w'.workers|
      ensures Apart(w'.workers[i].pc, w'.workers[j].pc)
    {
      if m.Call? {
        if j < |w.workers| {
          assert Apart(w.workers[i].pc, w.workers[j].pc);
        }
      } else {
        MoverHolds(w, m);
        assert Apart(w.workers[i].pc, w.workers[j].pc);
        assert PcOk(w, w.workers[i].pc) && PcOk(w, w.workers[j].pc);
      }
    }
  }

  lemma MoveTurns(w: World, m: Move)
    requires Inv(w) && Can(w, m)
    ensures TurnsOk(Moved(w, m))
  {
    MoveGrows(w, m);
    if m.Begin? {
      assert PcOk(w, w.workers[m.i].pc);
    }
  }

  lemma MoveInv(w: World, m: Move)
    requires Inv(w) && Can(w, m)
    ensures Inv(Moved(w, m)) && Grows(w, Moved(w, m))
  {
    var w' := Moved(w, m);
    MoveGrows(w, m);
    MoveApart(w, m);
    MoveTurns(w, m);
    forall j | 0 <= j < |w'.workers|
      ensures PcOk(w', w'.workers[j].pc)
    {
      if !m.Call? && m.i == j {
        MoverOk(w, m);
      } else if j < |w.workers| {
        OtherOk(w, m, j);
      }
    }
  }

  lemma {:induction false} RunsInv(w: World, moves: seq<Move>, w': World)
    requires Inv(w) && Runs(w, moves, w')
    ensures Inv(w') && Grows(w, w')
    decreases |moves|
  {
    if moves != [] {
      MoveInv(w, moves[0]);
      RunsInv(Moved(w, moves[0]), moves[1..], w');
    }
  }

  ghost predicate ReachableFrom(start: World, w: World) {
    Initial(start) && exists moves: seq<Move> :: Runs(start, moves, w)
  }

  lemma ReachableInv(start: World, w: World)
    requires ReachableFrom(start, w)
    ensures Inv(w)
  {
    var moves :| Runs(start, moves, w);
    RunsInv(start, moves, w);
  }

  // ---- What it means ----------------------------------------------------------------------

  /** However many workers run, at most two model turns are ever begun for one run id, each under its
  own attempt number. */
  lemma AtMostTwoTurns(start: World, w: World)
    requires ReachableFrom(start, w)
    ensures |w.turns| <= 2
    ensures forall j, k | 0 <= j < k < |w.turns| :: w.turns[j] != w.turns[k]
  {
    ReachableInv(start, w);
    CountIffNoRepeats(w.turns);
    assert Elements(w.turns) <= {1, 2};
    SubsetSize(Elements(w.turns), {1, 2});
  }

  /** Every successful return, fresh or recovered, is the stored artifact; and only one is fresh. */
  lemma EveryReturnIsTheArtifact(start: World, w: World, i: nat, j: nat)
    requires ReachableFrom(start, w) && i < |w.workers| && w.workers[i].pc.Done?
    ensures w.artifact == Some(w.workers[i].pc.value) && w.row.Some? && w.row.value.status.Succeeded?
    ensures j < |w.workers| && w.workers[j].pc.Done? ==>
              && w.workers[j].pc.value == w.workers[i].pc.value
              && (i != j && !w.workers[i].pc.recovered ==> w.workers[j].pc.recovered)
  {
    ReachableInv(start, w);
    assert PcOk(w, w.workers[i].pc);
    if j < |w.workers| && w.workers[j].pc.Done? {
      assert PcOk(w, w.workers[j].pc);
      if i < j {
        assert Apart(w.workers[i].pc, w.workers[j].pc);
      } else if j < i {
        assert Apart(w.workers[j].pc, w.workers[i].pc);
      }
    }
  }

  /** Once succeeded, always succeeded, with the same artifact, input, route and attempt count. */
  lemma SucceededIsAbsorbing(start: World, w: World, moves: seq<Move>, w': World)
    requires ReachableFrom(start, w) && Runs(w, moves, w')
    requires w.row.Some? && w.row.value.status.Succeeded?
    ensures w.artifact.Some? && w'.artifact == w.artifact && SameButCycle(w.row, w'.row)
  {
    ReachableInv(start, w);
    RunsInv(w, moves, w');
  }

  // ---- A validated turn can be lost -------------------------------------------------------

  /** A validated answer is stored exactly when the row is still running as it settles. */
  lemma ValidTurnStoredIffRunning(start: World, w: World, i: nat)
    requires ReachableFrom(start, w) && Can(w, Settle(i)) && w.workers[i].pc.reply.Valid?
    ensures Moved(w, Settle(i)).workers[i].pc == Done(w.workers[i].pc.reply.value, false) <==> IsRunning(w.row)
    ensures IsRunning(w.row) ==> Moved(w, Settle(i)).artifact == Some(w.workers[i].pc.reply.value)
    ensures !IsRunning(w.row) ==> Moved(w, Settle(i)).artifact == w.artifact
  {
    ReachableInv(start, w);
  }

  /** At most one call for this run id is under way. */
  predicate Alone(w: World) {
    forall i, j | 0 <= i < |w.workers| && 0 <= j < |w.workers| && i != j ::
      !(Live(w.workers[i].pc) && Live(w.workers[j].pc))
  }

  predicate AttemptRuns(w: World) {
    forall i | 0 <= i < |w.workers| && Holds(w.workers[i].pc) > 0 :: IsRunning(w.row)
  }

  /** Calls made one after another. */
  ghost predicate RunsAlone(w: World, moves: seq<Move>, w': World)
    decreases |moves|
  {
    Alone(w) &&
    if moves == [] then w' == w
    else Can(w, moves[0]) && RunsAlone(Moved(w, moves[0]), moves[1..], w')
  }

  lemma OnlyLive(w: World, i: nat, j: nat)
    requires Alone(w) && i < |w.workers| && j < |w.workers| && i != j && Live(w.workers[i].pc)
    ensures !Live(w.workers[j].pc) && Holds(w.workers[j].pc) == 0
  {
  }

  lemma AloneMoveRuns(w: World, m: Move)
    requires Inv(w) && Alone(w) && AttemptRuns(w) && Can(w, m)
    ensures AttemptRuns(Moved(w, m))
  {
    var w' := Moved(w, m);
    if !m.Call? {
      assert Live(w.workers[m.i].pc);
      forall j | 0 <= j < |w'.workers| && j != m.i
        ensures Holds(w'.workers[j].pc) == 0
      {
        OnlyLive(w, m.i, j);
      }
      assert PcOk(w, w.workers[m.i].pc);
    }
  }

  lemma {:induction false} AloneRunsRunning(w: World, moves: seq<Move>, w': World)
    requires Inv(w) && AttemptRuns(w) && RunsAlone(w, moves, w')
    ensures Inv(w') && AttemptRuns(w')
    decreases |moves|
  {
    if moves != [] {
      MoveInv(w, moves[0]);
      AloneMoveRuns(w, moves[0]);
      AloneRunsRunning(Moved(w, moves[0]), moves[1..], w');
    }
  }

  /** When calls for one run id never overlap, every validated answer is stored and returned, whatever
  crashed before. */
  lemma AloneNeverLoses(start: World, moves: seq<Move>, w: World, i: nat)
    requires Initial(start) && RunsAlone(start, moves, w)
    requires Can(w, Settle(i)) && w.workers[i].pc.reply.Valid?
    ensures Moved(w, Settle(i)).workers[i].pc == Done(w.workers[i].pc.reply.value, false)
    ensures Moved(w, Settle(i)).artifact == Some(w.workers[i].pc.reply.value)
  {
    AloneRunsRunning(start, moves, w);
    assert PcOk(w, w.workers[i].pc);
    assert w.workers[i].pc.attempt in w.turns;
    assert Holds(w.workers[i].pc) > 0;
  }

  const JOB := Job(1, 2, 3, 4)

  /** The first worker answers badly; the second has restarted the row by the time it says so. */
  const OVERLAP := [
    Call(JOB), Call(JOB), Look(0, true), Look(1, true), Start(0), Begin(0), Answer(0, Invalid),
    Start(1), Begin(1), Answer(1, Valid(7)), Settle(0)]

  lemma RunsSnoc(w: World, moves: seq<Move>, w': World, m: Move)
    requires Runs(w, moves, w') && Can(w', m)
    ensures Runs(w, moves + [m], Moved(w', m))
    decreases |moves|
  {
    if moves == [] {
      assert [m][1..] == [];
    } else {
      RunsSnoc(Moved(w, moves[0]), moves[1..], w', m);
      assert (moves + [m])[1..] == moves[1..] + [m];
    }
  }

  function OverlapWorld(): World {
    World(Some(Inserted(JOB).(status := Failed, attempts := 2)), None,
          [Worker(JOB, Ready), Worker(JOB, Turned(2, Valid(7)))], [1, 2])
  }

  lemma OverlapRuns()
    ensures Runs(World(None, None, [], []), OVERLAP, OverlapWorld())
  {
    var w0 := World(None, None, [], []);
    assert Runs(w0, [], w0);
    var w := w0;
    var k := 0;
    while k < |OVERLAP|
      invariant 0 <= k <= |OVERLAP| && Runs(w0, OVERLAP[..k], w)
      invariant w == OverlapAt(k)
    {
      RunsSnoc(w0, OVERLAP[..k], w, OVERLAP[k]);
      assert OVERLAP[..k] + [OVERLAP[k]] == OVERLAP[..k + 1];
      w := Moved(w, OVERLAP[k]);
      k := k + 1;
    }
    assert OVERLAP[..k] == OVERLAP;
  }

  function OverlapAt(k: nat): World {
    var one, two := Some(Inserted(JOB)), Some(Inserted(JOB).(attempts := 2));
    match k
    case 0 => World(None, None, [], [])
    case 1 => World(None, None, [Worker(JOB, Asked)], [])
    case 2 => World(None, None, [Worker(JOB, Asked), Worker(JOB, Asked)], [])
    case 3 => World(None, None, [Worker(JOB, Ready), Worker(JOB, Asked)], [])
    case 4 => World(None, None, [Worker(JOB, Ready), Worker(JOB, Ready)], [])
    case 5 => World(one, None, [Worker(JOB, Started(1)), Worker(JOB, Ready)], [])
    case 6 => World(one, None, [Worker(JOB, Turning(1)), Worker(JOB, Ready)], [1])
    case 7 => World(one, None, [Worker(JOB, Turned(1, Invalid)), Worker(JOB, Ready)], [1])
    case 8 => World(two, None, [Worker(JOB, Turned(1, Invalid)), Worker(JOB, Started(2))], [1])
    case 9 => World(two, None, [Worker(JOB, Turned(1, Invalid)), Worker(JOB, Turning(2))], [1, 2])
    case 10 => World(two, None, [Worker(JOB, Turned(1, Invalid)), Worker(JOB, Turned(2, Valid(7)))], [1, 2])
    case _ => OverlapWorld()
  }

  /** No worker holds an attempt that could still be settled on a running row. */
  predicate Spent(w: World) {
    && w.row.Some? && w.row.value.attempts == MAX_ATTEMPTS && w.row.value.status.Failed?
    && w.artifact.None?
  }

  /** A failed row with no attempts left is the end: nothing is ever stored under this run id. */
  lemma {:induction false} SpentForEver(w: World, moves: seq<Move>, w': World)
    requires Inv(w) && Spent(w) && Runs(w, moves, w')
    ensures Spent(w')
    decreases |moves|
  {
    if moves != [] {
      MoveInv(w, moves[0]);
      SpentForEver(Moved(w, moves[0]), moves[1..], w');
    }
  }

  /** So overlapping calls can lose a validated answer for good: the worker that holds it finds the
  row failed by the other one, and the retry budget is gone. */
  lemma OverlapLosesAnswer(moves: seq<Move>, w': World)
    requires Runs(OverlapWorld(), moves, w')
    ensures ReachableFrom(World(None, None, [], []), OverlapWorld())
    ensures OverlapWorld().workers[1].pc == Turned(2, Valid(7)) && w'.artifact.None?
  {
    OverlapRuns();
    ReachableInv(World(None, None, [], []), OverlapWorld());
    SpentForEver(OverlapWorld(), moves, w');
  }

  // ---- A recovered output and its cycle ---------------------------------------------------

  /** A row without a cycle is read first and claimed afterwards, and the reader goes by what it read: its
  recovered output belongs to its own cycle exactly when no other cycle has claimed the row in between. */
  lemma RecoveredForOwnCycleIff(start: World, w: World, i: nat, decodes: bool)
    requires ReachableFrom(start, w) && Can(w, Claim(i, decodes)) && Moved(w, Claim(i, decodes)).workers[i].pc.Done?
    ensures w.row.Some? && Moved(w, Claim(i, decodes)).row.Some?
    ensures Moved(w, Claim(i, decodes)).row.value.cycle == Some(w.workers[i].job.cycle) <==>
            w.row.value.cycle in {None, Some(w.workers[i].job.cycle)}
  {
    ReachableInv(start, w);
    assert PcOk(w, w.workers[i].pc);
  }

  const OTHER_JOB := JOB.(cycle := 9)

  const UNCLAIMED := World(Some(Run(true, None, 2, 3, 4, Succeeded, 1)), Some(7), [], [])

  /** Two cycles recover one unclaimed run: both are given its output. */
  lemma TwoCyclesRecoverOneRun() returns (w: World)
    ensures Initial(UNCLAIMED)
    ensures Runs(UNCLAIMED,
                 [Call(JOB), Call(OTHER_JOB), Look(0, true), Look(1, true), Claim(0, true), Claim(1, true)], w)
    ensures w.workers == [Worker(JOB, Done(7, true)), Worker(OTHER_JOB, Done(7, true))]
    ensures w.row.Some? && w.row.value.cycle == Some(JOB.cycle)
  {
    var moves := [Call(JOB), Call(OTHER_JOB), Look(0, true), Look(1, true), Claim(0, true), Claim(1, true)];
    w := UNCLAIMED;
    var k := 0;
    while k < |moves|
      invariant 0 <= k <= |moves| && Runs(UNCLAIMED, moves[..k], w)
      invariant w == RecoveryAt(k)
    {
      RunsSnoc(UNCLAIMED, moves[..k], w, moves[k]);
      assert moves[..k] + [moves[k]] == moves[..k + 1];
      w := Moved(w, moves[k]);
      k := k + 1;
    }
    assert moves[..k] == moves;
  }

  function RecoveryAt(k: nat): World {
    var run := UNCLAIMED.row.value;
    var seen := Seen(run, Some(7));
    match k
    case 0 => UNCLAIMED
    case 1 => UNCLAIMED.(workers := [Worker(JOB, Asked)])
    case 2 => UNCLAIMED.(workers := [Worker(JOB, Asked), Worker(OTHER_JOB, Asked)])
    case 3 => UNCLAIMED.(workers := [Worker(JOB, seen), Worker(OTHER_JOB, Asked)])
    case 4 => UNCLAIMED.(workers := [Worker(JOB, seen), Worker(OTHER_JOB, seen)])
    case 5 => World(Some(run.(cycle := Some(1))), Some(7), [Worker(JOB, Done(7, true)), Worker(OTHER_JOB, seen)], [])
    case _ => World(Some(run.(cycle := Some(1))), Some(7),
                    [Worker(JOB, Done(7, true)), Worker(OTHER_JOB, Done(7, true))], [])
  }

  // ---- The runner -------------------------------------------------------------------------

  lemma ReachableMove(start: World, w: World, m: Move)
    requires ReachableFrom(start, w) && Can(w, m)
    ensures ReachableFrom(start, Moved(w, m))
  {
    var moves :| Runs(start, moves, w);
    RunsSnoc(start, moves, w, m);
  }

  /** The database and everyone who uses it. */
  class Database {
    var row: Option<Run>
    var artifact: Option<Output>
    var workers: seq<Worker>
    var turns: seq<nat>
    ghost const start: World

    function State(): World
      reads this
    {
      World(row, artifact, workers, turns)
    }

    ghost predicate Valid()
      reads this
    {
      ReachableFrom(start, State())
    }

    constructor (row: Option<Run>, artifact: Option<Output>)
      requires Initial(World(row, artifact, [], []))
      ensures Valid() && State() == World(row, artifact, [], [])
    {
      this.row, this.artifact, this.workers, this.turns := row, artifact, [], [];
      this.start := World(row, artifact, [], []);
      new;
      assert Runs(start, [], State());
    }

    /** Other workers move, as often and however they like. */
    method Others(me: nat)
      requires Valid() && me < |workers|
      modifies this
      ensures Valid() && Later(old(State()), State(), me)
    {
      var n: nat := *;
      ReachableInv(start, State());
      while n > 0
        invariant Valid() && Inv(State())
        invariant Later(old(State()), State(), me)
      {
        var m: Move := *;
        if Can(State(), m) && !By(m, me) {
          OthersMove(State(), m, me);
          ReachableMove(start, State(), m);
          LaterTwice(old(State()), State(), Moved(State(), m), me);
          var w := Moved(State(), m);
          row, artifact, workers, turns := w.row, w.artifact, w.workers, w.turns;
        }
        n := n - 1;
      }
    }

    /** Logs the worker's own move that the fields have just made. */
    ghost method Log(before: World, m: Move)
      requires ReachableFrom(start, before) && Can(before, m) && State() == Moved(before, m)
      ensures Valid()
    {
      ReachableMove(start, before, m);
    }
  }

  predicate By(m: Move, me: nat) {
    !m.Call? && m.i == me
  }

  /** What others' moves leave to worker `me`: its own place, and whatever only grows. */
  predicate Later(w: World, w': World, me: nat) {
    && me < |w.workers| <= |w'.workers| && w'.workers[me] == w.workers[me]
    && Grows(w, w')
    && (w.artifact.Some? ==> w'.artifact == w.artifact)
  }

  lemma OthersMove(w: World, m: Move, me: nat)
    requires Inv(w) && Can(w, m) && !By(m, me) && me < |w.workers|
    ensures Inv(Moved(w, m)) && Later(w, Moved(w, m), me)
  {
    MoveInv(w, m);
  }

  lemma LaterTwice(a: World, b: World, c: World, me: nat)
    requires Later(a, b, me) && Later(b, c, me)
    ensures Later(a, c, me)
  {
  }

  /** One call of `run` for one role: its prompt, its frozen input and its model route are the job. */
  class StructuredRoleRunner {
    const database: Database
    const job: Job
    const me: nat

    constructor (database: Database, job: Job)
      requires database.Valid()
      modifies database
      ensures database.Valid() && database.State() == Moved(old(database.State()), Call(job))
      ensures this.database == database && this.job == job && me == |old(database.workers)| && In(Asked)
    {
      this.database, this.job, this.me := database, job, |database.workers|;
      new;
      ghost var before := database.State();
      database.workers := database.workers + [Worker(job, Asked)];
      database.Log(before, Call(job));
    }

    predicate In(pc: Pc)
      reads this, database
    {
      me < |database.workers| && database.workers[me] == Worker(job, pc)
    }

    method Go(pc: Pc)
      requires me < |database.workers| && database.workers[me].job == job
      modifies database`workers
      ensures database.workers == old(database.workers)[me := Worker(job, pc)]
    {
      database.workers := database.workers[me := Worker(job, pc)];
    }

    /** `_existing`: the stored output of a finished run, nothing, or a refusal. */
    method Existing(decodes: bool) returns (pc: Pc)
      requires database.Valid() && In(Asked)
      modifies database
      ensures database.Valid() && In(pc) && (pc.Ready? || pc.Done? || pc.Raised?)
      ensures Attempts(old(database.State())) <= Attempts(database.State())
      ensures pc.Done? ==> pc.recovered && database.artifact == Some(pc.value)
    {
      ghost var before := database.State();
      ReachableInv(database.start, before);
      if database.row.None? {
        pc := Ready;
        Go(pc);
      } else if database.row.value.cycle.Some? {
        pc := Judge(job, database.row.value, database.artifact, decodes);
        Go(pc);
      } else {
        var run, artifact := database.row.value, database.artifact;
        Go(Seen(run, artifact));
        database.Log(before, Look(me, decodes));
        database.Others(me);
        pc := ClaimCycle(decodes);
        return;
      }
      MoveInv(before, Look(me, decodes));
      database.Log(before, Look(me, decodes));
      ReachableInv(database.start, database.State());
      assert PcOk(database.State(), database.workers[me].pc);
    }

    /** The second statement of `_existing`, for a row that had no cycle when it was read. */
    method ClaimCycle(decodes: bool) returns (pc: Pc)
      requires database.Valid() && me < |database.workers| && database.workers[me].job == job
      requires database.workers[me].pc.Seen?
      modifies database
      ensures database.Valid() && In(pc) && (pc.Ready? || pc.Done? || pc.Raised?)
      ensures database.State() == Moved(old(database.State()), Claim(me, decodes))
      ensures Attempts(old(database.State())) <= Attempts(database.State())
      ensures pc.Done? ==> pc.recovered && database.artifact == Some(pc.value)
    {
      ghost var before := database.State();
      ReachableInv(database.start, before);
      var seen := database.workers[me].pc;
      if database.row.Some? && database.row.value.cycle.None? {
        database.row := Some(database.row.value.(cycle := Some(job.cycle)));
      }
      pc := Judge(job, seen.run.(cycle := Some(job.cycle)), seen.artifact, decodes);
      Go(pc);
      MoveInv(before, Claim(me, decodes));
      database.Log(before, Claim(me, decodes));
      assert PcOk(database.State(), database.workers[me].pc);
    }

    /** `_start`: inserts the row, or restarts it within its attempts. */
    method Start() returns (pc: Pc)
      requires database.Valid() && In(Ready)
      modifies database
      ensures database.Valid() && database.State() == Moved(old(database.State()), Move.Start(me)) && In(pc)
      ensures if pc.Started? then pc.attempt == Attempts(old(database.State())) + 1 == Attempts(database.State())
              else pc.Raised? && old(database.row).Some? && database.row == old(database.row)
                   && StartRefusal(job, old(database.row).value) == Some(pc.failure)
    {
      ghost var before := database.State();
      if database.row.None? {
        database.row := Some(Inserted(job));
        pc := Started(1);
      } else {
        var run := database.row.value;
        var refusal := StartRefusal(job, run);
        if refusal.Some? {
          pc := Raised(refusal.value);
        } else {
          database.row := Some(run.(status := Running, attempts := run.attempts + 1));
          pc := Started(run.attempts + 1);
        }
      }
      Go(pc);
      database.Log(before, Move.Start(me));
    }

    /** `client.run` and the two validations: begun once per attempt, answered by anything. */
    method Turn(attempt: nat) returns (reply: Reply)
      requires database.Valid() && In(Started(attempt))
      modifies database
      ensures database.Valid() && In(Turned(attempt, reply)) && attempt in database.turns
      ensures Attempts(old(database.State())) <= Attempts(database.State())
    {
      ghost var before := database.State();
      ReachableInv(database.start, before);
      MoveInv(before, Begin(me));
      database.turns := database.turns + [attempt];
      Go(Turning(attempt));
      database.Log(before, Begin(me));
      database.Others(me);
      before := database.State();
      ReachableInv(database.start, before);
      reply := *;
      MoveInv(before, Answer(me, reply));
      Go(Turned(attempt, reply));
      database.Log(before, Answer(me, reply));
      ReachableInv(database.start, database.State());
      assert PcOk(database.State(), database.workers[me].pc);
    }

    /** `_complete`: one update guarded by the running state, and the artifact with it. */
    method Complete(attempt: nat, value: Output) returns (pc: Pc)
      requires database.Valid() && In(Turned(attempt, Valid(value)))
      modifies database
      ensures database.Valid() && In(pc) && database.State() == Moved(old(database.State()), Settle(me))
      ensures if IsRunning(old(database.row))
              then pc == Done(value, false) && database.artifact == Some(value)
                   && database.row == Some(old(database.row).value.(status := Succeeded))
              else pc == Lost(attempt) && database.artifact == old(database.artifact)
                   && database.row == old(database.row)
    {
      ghost var before := database.State();
      ReachableInv(database.start, before);
      if IsRunning(database.row) {
        database.row := Some(database.row.value.(status := Succeeded));
        if database.artifact.None? {
          database.artifact := Some(value);
        }
        pc := Done(value, false);
      } else {
        pc := Lost(attempt);
      }
      Go(pc);
      database.Log(before, Settle(me));
    }

    /** `_fail`: only a running row becomes failed. */
    method Fail(ghost m: Move, pc: Pc)
      requires database.Valid() && me < |database.workers| && database.workers[me].job == job
      requires (m == Settle(me) && exists k: nat, r: Reply :: In(Turned(k, r)) && !r.Valid? && pc == AfterFailure(k, r))
               || (m == GiveUp(me) && database.workers[me].pc.Lost? && pc == Raised(LostRunning))
      modifies database
      ensures database.Valid() && In(pc) && database.State() == Moved(old(database.State()), m)
      ensures database.row == FailedRow(old(database.row)) && database.artifact == old(database.artifact)
    {
      ghost var before := database.State();
      if database.row.Some? && database.row.value.status.Running? {
        database.row := Some(database.row.value.(status := Failed));
      }
      Go(pc);
      database.Log(before, m);
    }

    /** One pass of the retry loop; the attempt is 0 when no turn was begun. */
    method Attempt() returns (pc: Pc, attempt: nat)
      requires database.Valid() && In(Ready)
      modifies database
      ensures database.Valid() && In(pc) && (pc.Ready? || pc.Done? || pc.Raised?)
      ensures attempt == 0 ==> pc.Raised?
      ensures attempt > 0 ==> Attempts(old(database.State())) < attempt <= Attempts(database.State())
      ensures attempt <= MAX_ATTEMPTS && (pc.Ready? ==> attempt < MAX_ATTEMPTS)
      ensures pc.Done? ==> !pc.recovered && database.artifact == Some(pc.value) &&
                           database.row.Some? && database.row.value.status.Succeeded?
    {
      database.Others(me);
      pc := Start();
      if pc.Raised? {
        return pc, 0;
      }
      attempt := pc.attempt;
      ReachableInv(database.start, database.State());
      database.Others(me);
      var reply := Turn(attempt);
      database.Others(me);
      pc := Settled(attempt, reply);
    }

    method Settled(attempt: nat, reply: Reply) returns (pc: Pc)
      requires database.Valid() && In(Turned(attempt, reply))
      modifies database
      ensures database.Valid() && In(pc)
      ensures Attempts(old(database.State())) <= Attempts(database.State())
      ensures if reply.Valid? then pc.Done? || pc == Raised(LostRunning) else pc == AfterFailure(attempt, reply)
      ensures pc.Done? ==> pc == Done(reply.value, false) && database.artifact == Some(pc.value) &&
                           database.row.Some? && database.row.value.status.Succeeded?
    {
      if !reply.Valid? {
        pc := AfterFailure(attempt, reply);
        Fail(Settle(me), pc);
        return;
      }
      pc := Complete(attempt, reply.value);
      if pc.Lost? {
        database.Others(me);
        pc := Raised(LostRunning);
        Fail(GiveUp(me), pc);
      }
    }

    /** `run`: a value that is now the stored artifact, or an exception; at most two model turns. */
    method Run(decodes: bool) returns (pc: Pc, used: nat)
      requires database.Valid() && In(Asked)
      modifies database
      ensures database.Valid() && In(pc) && (pc.Done? || pc.Raised?)
      ensures pc.Done? ==> database.artifact == Some(pc.value)
      ensures pc.Done? ==> database.row.Some? && database.row.value.status.Succeeded?
      ensures used <= 2 && (pc.Done? ==> (pc.recovered <==> used == 0))
    {
      used := 0;
      pc := Existing(decodes);
      if !pc.Ready? {
        ReachableInv(database.start, database.State());
        return;
      }
      ghost var last := 0;
      while true
        invariant database.Valid() && In(Ready)
        invariant used <= last <= Attempts(database.State())
        invariant last < MAX_ATTEMPTS
        decreases MAX_ATTEMPTS - last
      {
        var attempt;
        pc, attempt := Attempt();
        if attempt > 0 {
          used := used + 1;
        }
        if !pc.Ready? {
          return;
        }
        last := attempt;
      }
    }
  }
}
