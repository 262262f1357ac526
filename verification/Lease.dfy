/** `SingleOwnerLease`: one lease file, a lock that guards its inspection and replacement, and processes
that may die at any point and whose PIDs are used again.

A step is one operation on the file, one probe of a process, or taking or dropping the lock, which a
dead process drops by dying.  A process identity is a start stamp read either from the process table
file or, when that fails, from `ps`; two processes that ever had the same PID have different stamps.
*/
module Leases {
  import opened Contracts

  datatype Identity = FromProc(stamp: nat) | FromPs(stamp: nat)

  /** How an identity is read: the preferred way, the fallback, or not at all. */
  datatype Probe = ByProc | ByPs | Unavailable

  /** What a lease records; an older lease may lack the identity or hold a PID that is not a number. */
  datatype Lease = Lease(token: nat, pid: Option<nat>, identity: Option<Identity>)

  datatype File = Record(lease: Lease) | Broken

  datatype Process = Process(pid: nat, stamp: nat, alive: bool)

  datatype Pc =
    | Free
    | Waiting(lease: Lease)
    | Guarding(lease: Lease)
    | Probing(lease: Lease, existing: Lease)
    | Clearing(lease: Lease)
    | Cleared(lease: Lease)
    | Published(lease: Lease)
    | Held(lease: Lease)
    | Checking(lease: Lease)
    | Unlinked(lease: Lease)

  /** One `SingleOwnerLease` object and the process it lives in. */
  datatype Instance = Instance(process: nat, pc: Pc)

  datatype World = World(
    processes: seq<Process>, instances: seq<Instance>, file: Option<File>, guard: Option<nat>, tokens: nat)

  datatype Move =
    | Spawn(pid: nat, stamp: nat)
    | Exit(process: nat)
    | Open(process: nat)
    | Begin(i: nat, probe: Probe)
    | Lock(i: nat)
    | Inspect(i: nat)
    | Identify(i: nat, probe: Probe)
    | Unlink(i: nat)
    | Publish(i: nat)
    | Unlock(i: nat)
    | LockToRelease(i: nat)
    | RemoveOwn(i: nat)
    | Finish(i: nat)

  // ---- Processes --------------------------------------------------------------------------

  predicate Alive(processes: seq<Process>, pid: Option<nat>) {
    pid.Some? && pid.value > 0 && exists p | 0 <= p < |processes| :: processes[p].alive && processes[p].pid == pid.value
  }

  function Reading(p: Process, probe: Probe): Option<Identity> {
    match probe
    case ByProc => Some(FromProc(p.stamp))
    case ByPs => Some(FromPs(p.stamp))
    case Unavailable => None
  }

  /** The live process under a PID, if any. */
  function Living(processes: seq<Process>, pid: Option<nat>): (r: Option<Process>)
    ensures r.Some? ==> r.value in processes && r.value.alive && pid == Some(r.value.pid)
    ensures r.None? ==> forall p | 0 <= p < |processes| && processes[p].alive :: Some(processes[p].pid) != pid
  {
    if processes == [] then None
    else
      var last := processes[|processes| - 1];
      if last.alive && Some(last.pid) == pid then Some(last) else Living(processes[..|processes| - 1], pid)
  }

  function ReadPid(processes: seq<Process>, pid: Option<nat>, probe: Probe): Option<Identity> {
    var p := Living(processes, pid);
    if p.None? then None else Reading(p.value, probe)
  }

  /** No PID has two live processes, and no PID has ever had one stamp twice. */
  predicate ProcessesOk(processes: seq<Process>) {
    && (forall p | 0 <= p < |processes| :: processes[p].pid > 0)
    && forall p, q | 0 <= p < q < |processes| && processes[p].pid == processes[q].pid ::
         processes[p].stamp != processes[q].stamp && !(processes[p].alive && processes[q].alive)
  }

  // ---- Steps ------------------------------------------------------------------------------

  predicate Lives(w: World, i: nat) {
    i < |w.instances| && w.instances[i].process < |w.processes| && w.processes[w.instances[i].process].alive
  }

  /** A lock held by a dead process is free. */
  predicate GuardFree(w: World) {
    w.guard.None? || !Lives(w, w.guard.value)
  }

  predicate Can(w: World, m: Move) {
    match m
    case Spawn(pid, stamp) => ProcessesOk(w.processes + [Process(pid, stamp, true)])
    case Exit(p) => p < |w.processes|
    case Open(p) => p < |w.processes| && w.processes[p].alive
    case Begin(i, _) => Lives(w, i) && w.instances[i].pc.Free?
    case Lock(i) => Lives(w, i) && w.instances[i].pc.Waiting? && GuardFree(w)
    case Inspect(i) => Lives(w, i) && w.instances[i].pc.Guarding?
    case Identify(i, _) => Lives(w, i) && w.instances[i].pc.Probing?
    case Unlink(i) => Lives(w, i) && w.instances[i].pc.Clearing?
    case Publish(i) => Lives(w, i) && w.instances[i].pc.Cleared?
    case Unlock(i) => Lives(w, i) && w.instances[i].pc.Published?
    case LockToRelease(i) =>
      && Lives(w, i) && w.instances[i].pc.Held? && GuardFree(w)
    case RemoveOwn(i) => Lives(w, i) && w.instances[i].pc.Checking?
    case Finish(i) => Lives(w, i) && w.instances[i].pc.Unlinked?
  }

  function At(w: World, i: nat, pc: Pc): World
    requires i < |w.instances|
  {
    w.(instances := w.instances[i := w.instances[i].(pc := pc)])
  }

  /** An exception inside the guarded block: the lock is dropped. */
  function Refused(w: World, i: nat, pc: Pc): World
    requires i < |w.instances|
  {
    At(w, i, pc).(guard := None)
  }

  function Minted(w: World, i: nat, identity: Identity): Lease
    requires Lives(w, i)
  {
    Lease(w.tokens, Some(w.processes[w.instances[i].process].pid), Some(identity))
  }

  /** What `_remove_dead_owner` makes of the file, up to the identity check. */
  function Inspected(w: World, lease: Lease): Option<Pc> {
    if w.file.None? then Some(Cleared(lease))
    else if w.file.value.Broken? then None
    else if !Alive(w.processes, w.file.value.lease.pid) then Some(Clearing(lease))
    else if w.file.value.lease.identity.None? then None
    else Some(Probing(lease, w.file.value.lease))
  }

  function Moved(w: World, m: Move): World
    requires Can(w, m)
  {
    match m
    case Spawn(pid, stamp) => w.(processes := w.processes + [Process(pid, stamp, true)])
    case Exit(p) => w.(processes := w.processes[p := w.processes[p].(alive := false)])
    case Open(p) => w.(instances := w.instances + [Instance(p, Free)])
    case Begin(i, probe) =>
      var own := Reading(w.processes[w.instances[i].process], probe);
      if own.None? then w
      else At(w, i, Waiting(Minted(w, i, own.value))).(tokens := w.tokens + 1)
    case Lock(i) => At(w, i, Guarding(w.instances[i].pc.lease)).(guard := Some(i))
    case Inspect(i) =>
      var next := Inspected(w, w.instances[i].pc.lease);
      if next.None? then Refused(w, i, Free) else At(w, i, next.value)
    case Identify(i, probe) =>
      var lease, existing := w.instances[i].pc.lease, w.instances[i].pc.existing;
      var current := ReadPid(w.processes, existing.pid, probe);
      if current.None? || current == existing.identity then Refused(w, i, Free) else At(w, i, Clearing(lease))
    case Unlink(i) => At(w, i, Cleared(w.instances[i].pc.lease)).(file := None)
    case Publish(i) =>
      var lease := w.instances[i].pc.lease;
      if w.file.Some? then Refused(w, i, Free) else At(w, i, Published(lease)).(file := Some(Record(lease)))
    case Unlock(i) => At(w, i, Held(w.instances[i].pc.lease)).(guard := None)
    case LockToRelease(i) =>
      var lease := w.instances[i].pc.lease;
      if w.file != Some(Record(lease)) then w else At(w, i, Checking(lease)).(guard := Some(i))
    case RemoveOwn(i) =>
      var lease := w.instances[i].pc.lease;
      if w.file != Some(Record(lease)) then Refused(w, i, Held(lease)) else At(w, i, Unlinked(lease)).(file := None)
    // Dropping the guard and forgetting the token are two statements of the program and one step here.
    case Finish(i) => At(w, i, Free).(guard := None)
  }

  // ---- The invariant ----------------------------------------------------------------------

  /** It has published its lease and not removed it. */
  predicate Owns(pc: Pc) {
    pc.Published? || pc.Held? || pc.Checking?
  }

  predicate Guarded(pc: Pc) {
    !pc.Free? && !pc.Waiting? && !pc.Held?
  }

  predicate LiveOwner(w: World, i: nat) {
    Lives(w, i) && Owns(w.instances[i].pc)
  }

  predicate NoLiveOwner(w: World) {
    forall i | 0 <= i < |w.instances| :: !LiveOwner(w, i)
  }

  /** The lease names the process it was made in. */
  predicate Names(lease: Lease, p: Process) {
    lease.pid == Some(p.pid) && lease.identity.Some? && lease.identity.value.stamp == p.stamp
  }

  predicate InstanceOk(w: World, i: nat)
    requires i < |w.instances| && w.instances[i].process < |w.processes|
  {
    var pc := w.instances[i].pc;
    && (!pc.Free? ==> pc.lease.token < w.tokens && Names(pc.lease, w.processes[w.instances[i].process]))
    && (Lives(w, i) ==>
          && (Guarded(pc) ==> w.guard == Some(i))
          && (Owns(pc) ==> w.file == Some(Record(pc.lease)))
          && (pc.Cleared? ==> w.file.None?)
          && (pc.Probing? ==> w.file == Some(Record(pc.existing)))
          && (pc.Clearing? ==> NoLiveOwner(w)))
  }

  predicate InstancesOk(w: World) {
    forall i | 0 <= i < |w.instances| :: w.instances[i].process < |w.processes| && InstanceOk(w, i)
  }

  predicate TokensApart(w: World) {
    forall i, j | 0 <= i < |w.instances| && 0 <= j < |w.instances| && i != j
      && !w.instances[i].pc.Free? && !w.instances[j].pc.Free? ::
      w.instances[i].pc.lease.token != w.instances[j].pc.lease.token
  }

  predicate Inv(w: World) {
    ProcessesOk(w.processes) && InstancesOk(w) && TokensApart(w)
  }

  /** As long as the owner on file is alive, whoever asks for its identity reads the recorded one or none. */
  predicate Steady(w: World, m: Move) {
    m.Identify? && Can(w, m) ==>
      forall j | 0 <= j < |w.instances| && LiveOwner(w, j) ::
        Reading(w.processes[w.instances[j].process], m.probe) in {None, w.instances[m.i].pc.existing.identity}
  }

  // ---- Each step --------------------------------------------------------------------------

  lemma TheLivingOne(processes: seq<Process>, p: nat)
    requires ProcessesOk(processes) && p < |processes| && processes[p].alive
    ensures Living(processes, Some(processes[p].pid)) == Some(processes[p])
    ensures Alive(processes, Some(processes[p].pid))
  {
    var found := Living(processes, Some(processes[p].pid));
    var q :| 0 <= q < |processes| && processes[q] == found.value;
  }

  /** A lease whose owner lives is never judged dead. */
  lemma OwnerSurvives(w: World, j: nat, lease: Lease)
    requires Inv(w) && LiveOwner(w, j) && w.file.Some?
    ensures w.file == Some(Record(w.instances[j].pc.lease)) && Alive(w.processes, w.file.value.lease.pid)
    ensures Inspected(w, lease) == Some(Probing(lease, w.file.value.lease))
    ensures Living(w.processes, w.file.value.lease.pid) == Some(w.processes[w.instances[j].process])
  {
    assert InstanceOk(w, j);
    TheLivingOne(w.processes, w.instances[j].process);
  }

  lemma ClearingIsSafe(w: World, m: Move)
    requires Inv(w) && Can(w, m) && Steady(w, m) && (m.Inspect? || m.Identify?)
    ensures Moved(w, m).instances[m.i].pc.Clearing? ==> NoLiveOwner(w)
  {
    assert InstanceOk(w, m.i);
    if Moved(w, m).instances[m.i].pc.Clearing? {
      forall j | 0 <= j < |w.instances|
        ensures !LiveOwner(w, j)
      {
        if LiveOwner(w, j) {
          assert InstanceOk(w, j);
          OwnerSurvives(w, j, w.instances[m.i].pc.lease);
        }
      }
    }
  }

  /** Moves of one instance, as opposed to moves of processes. */
  predicate ByInstance(m: Move) {
    !m.Spawn? && !m.Exit? && !m.Open?
  }

  /** A new owner appears only by publishing. */
  lemma OwnersOnlyByPublishing(w: World, m: Move)
    requires Inv(w) && Can(w, m) && NoLiveOwner(w) && !m.Publish?
    ensures NoLiveOwner(Moved(w, m))
  {
    var w' := Moved(w, m);
    forall j | 0 <= j < |w'.instances|
      ensures !LiveOwner(w', j)
    {
      if j < |w.instances| {
        assert !LiveOwner(w, j) && InstanceOk(w, j);
      }
    }
  }

  lemma MoverOk(w: World, m: Move)
    requires Inv(w) && Can(w, m) && Steady(w, m) && ByInstance(m)
    ensures InstanceOk(Moved(w, m), m.i)
  {
    var w' := Moved(w, m);
    assert InstanceOk(w, m.i);
    if w'.instances[m.i].pc.Clearing? {
      ClearingIsSafe(w, m);
      OwnersOnlyByPublishing(w, m);
    }
  }

  lemma OtherOk(w: World, m: Move, j: nat)
    requires Inv(w) && Can(w, m) && Steady(w, m) && ByInstance(m) && j < |w.instances| && j != m.i
    ensures InstanceOk(Moved(w, m), j)
  {
    var w' := Moved(w, m);
    var pc := w.instances[j].pc;
    assert InstanceOk(w, j) && InstanceOk(w, m.i);
    if Lives(w, j) {
      if Owns(pc) {
        OwnerKept(w, m, j);
      }
      if pc.Clearing? {
        OwnersOnlyByPublishing(w, m);
      }
    }
  }

  /** Nobody else removes or replaces a live owner's lease. */
  lemma OwnerKept(w: World, m: Move, j: nat)
    requires Inv(w) && Can(w, m) && ByInstance(m) && j != m.i && LiveOwner(w, j)
    ensures Moved(w, m).file == w.file
  {
    assert InstanceOk(w, j) && InstanceOk(w, m.i);
  }

  lemma ProcessMoveOk(w: World, m: Move)
    requires Inv(w) && Can(w, m) && !ByInstance(m)
    ensures Inv(Moved(w, m))
  {
    var w' := Moved(w, m);
    forall j | 0 <= j < |w'.instances|
      ensures w'.instances[j].process < |w'.processes| && InstanceOk(w', j)
    {
      if j < |w.instances| {
        assert InstanceOk(w, j);
        if w.instances[j].pc.Clearing? && Lives(w, j) {
          OwnersOnlyByPublishing(w, m);
        }
      }
    }
  }

  lemma MoveTokens(w: World, m: Move)
    requires Inv(w) && Can(w, m)
    ensures TokensApart(Moved(w, m))
  {
    var w' := Moved(w, m);
    forall i, j | 0 <= i < |w'.instances| && 0 <= j < |w'.instances| && i != j
      && !w'.instances[i].pc.Free? && !w'.instances[j].pc.Free?
      ensures w'.instances[i].pc.lease.token != w'.instances[j].pc.lease.token
    {
      assert InstanceOk(w, i) && InstanceOk(w, j);
    }
  }

  lemma MoveInv(w: World, m: Move)
    requires Inv(w) && Can(w, m) && Steady(w, m)
    ensures Inv(Moved(w, m))
  {
    if ByInstance(m) {
      var w' := Moved(w, m);
      MoveTokens(w, m);
      forall j | 0 <= j < |w'.instances|
        ensures w'.instances[j].process < |w'.processes| && InstanceOk(w', j)
      {
        if j == m.i {
          MoverOk(w, m);
        } else {
          OtherOk(w, m, j);
        }
      }
    } else {
      ProcessMoveOk(w, m);
    }
  }

  /** No process has opened the lease yet; a file may be left from before. */
  predicate Initial(w: World) {
    ProcessesOk(w.processes) && w.instances == [] && w.guard.None?
  }

  ghost predicate Runs(w: World, moves: seq<Move>, w': World)
    decreases |moves|
  {
    if moves == [] then w' == w
    else Can(w, moves[0]) && Runs(Moved(w, moves[0]), moves[1..], w')
  }

  ghost predicate SteadyRuns(w: World, moves: seq<Move>, w': World)
    decreases |moves|
  {
    if moves == [] then w' == w
    else Can(w, moves[0]) && Steady(w, moves[0]) && SteadyRuns(Moved(w, moves[0]), moves[1..], w')
  }

  lemma {:induction false} SteadyRunsInv(w: World, moves: seq<Move>, w': World)
    requires Inv(w) && SteadyRuns(w, moves, w')
    ensures Inv(w')
    decreases |moves|
  {
    if moves != [] {
      MoveInv(w, moves[0]);
      SteadyRunsInv(Moved(w, moves[0]), moves[1..], w');
    }
  }

  // ---- What it means ----------------------------------------------------------------------

  /** Whatever the schedule of acquires, releases, deaths and PID reuse, at most one object in a live
  process owns the lease, and the file is then exactly its payload. */
  lemma MutualExclusion(start: World, moves: seq<Move>, w: World, i: nat, j: nat)
    requires Initial(start) && SteadyRuns(start, moves, w)
    requires LiveOwner(w, i)
    ensures w.file == Some(Record(w.instances[i].pc.lease))
    ensures LiveOwner(w, j) ==> j == i
  {
    SteadyRunsInv(start, moves, w);
    assert InstanceOk(w, i);
    if LiveOwner(w, j) {
      assert InstanceOk(w, j);
    }
  }

  /** The file on disk does not belong to the process that now lives under its PID. */
  predicate Abandoned(w: World, probe: Probe) {
    && w.file.Some? && w.file.value.Record?
    && var lease := w.file.value.lease;
       || !Alive(w.processes, lease.pid)
       || (&& lease.identity.Some? && ReadPid(w.processes, lease.pid, probe).Some?
           && ReadPid(w.processes, lease.pid, probe) != lease.identity)
  }

  function Takeover(w: World, i: nat, probe: Probe): seq<Move> {
    [Lock(i), Inspect(i)] + AfterInspection(w, i, probe)
  }

  function AfterInspection(w: World, i: nat, probe: Probe): seq<Move> {
    if w.file.None? then [Publish(i), Unlock(i)]
    else if !w.file.value.Record? then []
    else if !Alive(w.processes, w.file.value.lease.pid) then [Unlink(i), Publish(i), Unlock(i)]
    else if w.file.value.lease.identity.None? then []
    else if Abandoned(w, probe) then [Identify(i, probe), Unlink(i), Publish(i), Unlock(i)]
    else [Identify(i, probe)]
  }

  /** The world after an undisturbed acquisition. */
  function Taken(w: World, i: nat): World
    requires i < |w.instances| && w.instances[i].pc.Waiting?
  {
    var lease := w.instances[i].pc.lease;
    At(w, i, Held(lease)).(file := Some(Record(lease)), guard := None)
  }

  lemma RunsOne(w: World, m: Move, moves: seq<Move>, w': World)
    requires Can(w, m) && Runs(Moved(w, m), moves, w')
    ensures Runs(w, [m] + moves, w')
  {
    assert ([m] + moves)[1..] == moves;
  }

  lemma FrontRuns(w: World, i: nat, rest: seq<Move>, end: World)
    requires Lives(w, i) && w.instances[i].pc.Waiting? && GuardFree(w)
    requires Runs(Moved(Moved(w, Lock(i)), Inspect(i)), rest, end)
    ensures Runs(w, [Lock(i), Inspect(i)] + rest, end)
  {
    RunsOne(Moved(w, Lock(i)), Inspect(i), rest, end);
    RunsOne(w, Lock(i), [Inspect(i)] + rest, end);
    assert [Lock(i)] + ([Inspect(i)] + rest) == [Lock(i), Inspect(i)] + rest;
  }

  /** What the first two moves of an undisturbed acquisition lead to. */
  lemma FrontState(w: World, i: nat)
    requires Lives(w, i) && w.instances[i].pc.Waiting? && GuardFree(w)
    ensures var lease := w.instances[i].pc.lease; var w2 := Moved(Moved(w, Lock(i)), Inspect(i));
      w2 == match Inspected(w, lease)
            case None => Refused(w, i, Free)
            case Some(pc) => At(w, i, pc).(guard := Some(i))
  {
    var lease := w.instances[i].pc.lease;
    var w1 := Moved(w, Lock(i));
    assert Inspected(w1, lease) == Inspected(w, lease);
    assert w.instances[i := w1.instances[i]][i := w.instances[i]] == w.instances;
  }

  lemma IdentifyState(w: World, i: nat, probe: Probe)
    requires Lives(w, i) && w.instances[i].pc.Waiting? && GuardFree(w) && w.file.Some? && w.file.value.Record?
    requires Inspected(w, w.instances[i].pc.lease) == Some(Probing(w.instances[i].pc.lease, w.file.value.lease))
    ensures var w2 := At(w, i, Probing(w.instances[i].pc.lease, w.file.value.lease)).(guard := Some(i));
      Lives(w2, i) &&
      if Abandoned(w, probe) then
        && Moved(w2, Identify(i, probe)).instances[i].pc.Clearing?
        && Unlinked2(Moved(w2, Identify(i, probe)), i) == Taken(w, i)
      else Moved(w2, Identify(i, probe)) == Refused(w, i, Free)
  {
  }

  /** The world after the first two moves, when they do not refuse. */
  function Opened(w: World, i: nat, pc: Pc): World
    requires i < |w.instances|
  {
    At(w, i, pc).(guard := Some(i))
  }

  lemma RestClears(w: World, i: nat)
    requires Lives(w, i) && w.instances[i].pc.Waiting?
    ensures w.file.None? ==>
              Runs(Opened(w, i, Cleared(w.instances[i].pc.lease)), [Publish(i), Unlock(i)], Taken(w, i))
    ensures Runs(Opened(w, i, Clearing(w.instances[i].pc.lease)), [Unlink(i), Publish(i), Unlock(i)], Taken(w, i))
  {
    var lease := w.instances[i].pc.lease;
    if w.file.None? {
      PublishRuns(Opened(w, i, Cleared(lease)), i);
      assert Published2(Opened(w, i, Cleared(lease)), i) == Taken(w, i);
    }
    UnlinkRuns(Opened(w, i, Clearing(lease)), i);
    assert Unlinked2(Opened(w, i, Clearing(lease)), i) == Taken(w, i);
  }

  lemma RestProbes(w: World, i: nat, probe: Probe)
    requires Lives(w, i) && w.instances[i].pc.Waiting? && GuardFree(w) && w.file.Some? && w.file.value.Record?
    requires Inspected(w, w.instances[i].pc.lease) == Some(Probing(w.instances[i].pc.lease, w.file.value.lease))
    ensures Runs(Opened(w, i, Probing(w.instances[i].pc.lease, w.file.value.lease)), AfterInspection(w, i, probe),
                 if Abandoned(w, probe) then Taken(w, i) else Refused(w, i, Free))
  {
    IdentifyState(w, i, probe);
    IdentifyRuns(Opened(w, i, Probing(w.instances[i].pc.lease, w.file.value.lease)), i, probe);
  }

  lemma RestRuns(w: World, i: nat, probe: Probe)
    requires Lives(w, i) && w.instances[i].pc.Waiting? && GuardFree(w)
    ensures var next := Inspected(w, w.instances[i].pc.lease);
      Runs(if next.None? then Refused(w, i, Free) else Opened(w, i, next.value), AfterInspection(w, i, probe),
           if w.file.None? || Abandoned(w, probe) then Taken(w, i) else Refused(w, i, Free))
  {
    var next := Inspected(w, w.instances[i].pc.lease);
    if next.None? {
      assert Runs(Refused(w, i, Free), [], Refused(w, i, Free));
    } else if next.value.Probing? {
      RestProbes(w, i, probe);
    } else {
      RestClears(w, i);
    }
  }

  /** Once the lock is free, an undisturbed acquisition succeeds exactly when there is no lease file or
  an abandoned one - a dead owner never blocks, nor does a PID that another process has now - and
  otherwise it changes nothing. */
  lemma AcquiresIffAbandoned(w: World, i: nat, probe: Probe)
    requires Lives(w, i) && w.instances[i].pc.Waiting? && GuardFree(w)
    ensures Runs(w, Takeover(w, i, probe),
                 if w.file.None? || Abandoned(w, probe) then Taken(w, i) else Refused(w, i, Free))
  {
    var end := if w.file.None? || Abandoned(w, probe) then Taken(w, i) else Refused(w, i, Free);
    FrontState(w, i);
    RestRuns(w, i, probe);
    FrontRuns(w, i, AfterInspection(w, i, probe), end);
  }

  function Published2(w: World, i: nat): World
    requires i < |w.instances| && !w.instances[i].pc.Free?
  {
    At(w, i, Held(w.instances[i].pc.lease)).(file := Some(Record(w.instances[i].pc.lease)), guard := None)
  }

  function Unlinked2(w: World, i: nat): World
    requires i < |w.instances| && !w.instances[i].pc.Free?
  {
    Published2(w.(file := None), i)
  }

  lemma PublishRuns(w: World, i: nat)
    requires Lives(w, i) && w.instances[i].pc.Cleared? && w.file.None?
    ensures Runs(w, [Publish(i), Unlock(i)], Published2(w, i))
  {
    var w1 := Moved(w, Publish(i));
    assert Moved(w1, Unlock(i)) == Published2(w, i);
    assert Runs(Published2(w, i), [], Published2(w, i));
    RunsOne(w1, Unlock(i), [], Published2(w, i));
    assert [Unlock(i)] + [] == [Unlock(i)];
    RunsOne(w, Publish(i), [Unlock(i)], Published2(w, i));
    assert [Publish(i)] + [Unlock(i)] == [Publish(i), Unlock(i)];
  }

  lemma UnlinkRuns(w: World, i: nat)
    requires Lives(w, i) && w.instances[i].pc.Clearing?
    ensures Runs(w, [Unlink(i), Publish(i), Unlock(i)], Unlinked2(w, i))
  {
    var w1 := Moved(w, Unlink(i));
    PublishRuns(w1, i);
    RunsOne(w, Unlink(i), [Publish(i), Unlock(i)], Published2(w1, i));
    assert [Unlink(i)] + [Publish(i), Unlock(i)] == [Unlink(i), Publish(i), Unlock(i)];
    assert Published2(w1, i) == Unlinked2(w, i);
  }

  lemma IdentifyRuns(w: World, i: nat, probe: Probe)
    requires Lives(w, i) && w.instances[i].pc.Probing?
    ensures var w1 := Moved(w, Identify(i, probe));
      if w1.instances[i].pc.Clearing?
      then Runs(w, [Identify(i, probe), Unlink(i), Publish(i), Unlock(i)], Unlinked2(w1, i))
      else Runs(w, [Identify(i, probe)], w1)
  {
    var w1 := Moved(w, Identify(i, probe));
    if w1.instances[i].pc.Clearing? {
      UnlinkRuns(w1, i);
      RunsOne(w, Identify(i, probe), [Unlink(i), Publish(i), Unlock(i)], Unlinked2(w1, i));
      assert [Identify(i, probe)] + [Unlink(i), Publish(i), Unlock(i)]
             == [Identify(i, probe), Unlink(i), Publish(i), Unlock(i)];
    } else {
      assert Runs(w1, [], w1);
      RunsOne(w, Identify(i, probe), [], w1);
      assert [Identify(i, probe)] + [] == [Identify(i, probe)];
    }
  }

  /** While the owner lives, a contender takes its lease - and there are two owners - exactly when the
  owner's identity is read, but not as it was recorded: for instance through the fallback. */
  lemma TwoOwnersIffUnstable(w: World, i: nat, j: nat, probe: Probe)
    requires Inv(w) && LiveOwner(w, j) && Lives(w, i) && w.instances[i].pc.Waiting? && GuardFree(w)
    ensures var owner := Reading(w.processes[w.instances[j].process], probe);
      Abandoned(w, probe) <==> owner.Some? && owner != w.instances[j].pc.lease.identity
    ensures Abandoned(w, probe) ==>
              && Runs(w, Takeover(w, i, probe), Taken(w, i))
              && LiveOwner(Taken(w, i), i) && LiveOwner(Taken(w, i), j)
    ensures !Abandoned(w, probe) ==> Runs(w, Takeover(w, i, probe), Refused(w, i, Free))
  {
    assert InstanceOk(w, j);
    OwnerSurvives(w, j, w.instances[i].pc.lease);
    AcquiresIffAbandoned(w, i, probe);
  }

  lemma {:induction false} RunsConcat(w: World, first: seq<Move>, mid: World, second: seq<Move>, w': World)
    requires Runs(w, first, mid) && Runs(mid, second, w')
    ensures Runs(w, first + second, w')
    decreases |first|
  {
    if first == [] {
      assert first + second == second;
    } else {
      RunsConcat(Moved(w, first[0]), first[1..], mid, second, w');
      assert (first + second)[1..] == first[1..] + second;
    }
  }

  const TWO_PROCESSES := [Process(10, 1, true), Process(20, 2, true)]

  /** Both have read their own identity and wait for the lock. */
  const BOTH_WAIT := World(
    TWO_PROCESSES,
    [Instance(0, Waiting(Lease(0, Some(10), Some(FromProc(1))))),
     Instance(1, Waiting(Lease(1, Some(20), Some(FromProc(2)))))], None, None, 2)

  lemma BothWaitReached()
    ensures Runs(World(TWO_PROCESSES, [], None, None, 0), [Open(0), Open(1), Begin(0, ByProc), Begin(1, ByProc)],
                 BOTH_WAIT)
  {
    var w0 := World(TWO_PROCESSES, [], None, None, 0);
    var w1 := Moved(w0, Open(0));
    var w2 := Moved(w1, Open(1));
    var w3 := Moved(w2, Begin(0, ByProc));
    assert Moved(w3, Begin(1, ByProc)) == BOTH_WAIT;
    assert Runs(BOTH_WAIT, [], BOTH_WAIT);
    RunsOne(w3, Begin(1, ByProc), [], BOTH_WAIT);
    RunsOne(w2, Begin(0, ByProc), [Begin(1, ByProc)], BOTH_WAIT);
    RunsOne(w1, Open(1), [Begin(0, ByProc), Begin(1, ByProc)], BOTH_WAIT);
    RunsOne(w0, Open(0), [Open(1), Begin(0, ByProc), Begin(1, ByProc)], BOTH_WAIT);
    assert [Open(0)] + [Open(1), Begin(0, ByProc), Begin(1, ByProc)]
           == [Open(0), Open(1), Begin(0, ByProc), Begin(1, ByProc)];
    assert [Open(1)] + [Begin(0, ByProc), Begin(1, ByProc)] == [Open(1), Begin(0, ByProc), Begin(1, ByProc)];
    assert [Begin(0, ByProc)] + [Begin(1, ByProc)] == [Begin(0, ByProc), Begin(1, ByProc)];
    assert [Begin(1, ByProc)] + [] == [Begin(1, ByProc)];
  }

  /** The first of them has the lease. */
  const ONE_OWNER := World(
    TWO_PROCESSES,
    [Instance(0, Held(Lease(0, Some(10), Some(FromProc(1))))),
     Instance(1, Waiting(Lease(1, Some(20), Some(FromProc(2)))))],
    Some(Record(Lease(0, Some(10), Some(FromProc(1))))), None, 2)

  lemma FirstTakes()
    ensures Runs(BOTH_WAIT, Takeover(BOTH_WAIT, 0, ByProc), ONE_OWNER)
  {
    AcquiresIffAbandoned(BOTH_WAIT, 0, ByProc);
    assert Taken(BOTH_WAIT, 0) == ONE_OWNER;
  }

  lemma SecondTakes()
    ensures Runs(ONE_OWNER, Takeover(ONE_OWNER, 1, ByPs), Taken(ONE_OWNER, 1))
  {
    TheLivingOne(TWO_PROCESSES, 0);
    assert TWO_PROCESSES[0] == Process(10, 1, true);
    AcquiresIffAbandoned(ONE_OWNER, 1, ByPs);
  }

  /** Mutual exclusion fails without stable identities: the second process cannot read the process
  table file and falls back to `ps`, whose answer never equals the recorded one. */
  lemma FallbackMakesTwoOwners() returns (moves: seq<Move>, w: World)
    ensures Initial(World(TWO_PROCESSES, [], None, None, 0))
    ensures Runs(World(TWO_PROCESSES, [], None, None, 0), moves, w)
    ensures LiveOwner(w, 0) && LiveOwner(w, 1)
  {
    var start := World(TWO_PROCESSES, [], None, None, 0);
    var opening := [Open(0), Open(1), Begin(0, ByProc), Begin(1, ByProc)];
    var first, second := Takeover(BOTH_WAIT, 0, ByProc), Takeover(ONE_OWNER, 1, ByPs);
    w := Taken(ONE_OWNER, 1);
    BothWaitReached();
    FirstTakes();
    SecondTakes();
    RunsConcat(start, opening, BOTH_WAIT, first, ONE_OWNER);
    RunsConcat(start, opening + first, ONE_OWNER, second, w);
    moves := opening + first + second;
  }

  // ---- The lease object -------------------------------------------------------------------

  lemma SteadySnoc(w: World, moves: seq<Move>, w': World, m: Move)
    requires SteadyRuns(w, moves, w') && Can(w', m) && Steady(w', m)
    ensures SteadyRuns(w, moves + [m], Moved(w', m))
    decreases |moves|
  {
    if moves == [] {
      assert [m][1..] == [];
    } else {
      SteadySnoc(Moved(w, moves[0]), moves[1..], w', m);
      assert (moves + [m])[1..] == moves[1..] + [m];
    }
  }

  ghost predicate ReachableFrom(start: World, w: World) {
    Initial(start) && exists moves: seq<Move> :: SteadyRuns(start, moves, w)
  }

  lemma ReachableInv(start: World, w: World)
    requires ReachableFrom(start, w)
    ensures Inv(w)
  {
    var moves :| SteadyRuns(start, moves, w);
    SteadyRunsInv(start, moves, w);
  }

  lemma ReachableMove(start: World, w: World, m: Move)
    requires ReachableFrom(start, w) && Can(w, m) && Steady(w, m)
    ensures ReachableFrom(start, Moved(w, m))
  {
    var moves :| SteadyRuns(start, moves, w);
    SteadySnoc(start, moves, w, m);
  }

  /** A move that is neither made by object `me` nor the death of its process. */
  predicate ByOthers(w: World, m: Move, me: nat)
    requires me < |w.instances|
  {
    if m.Exit? then m.process != w.instances[me].process else if ByInstance(m) then m.i != me else true
  }

  /** What others' moves leave to a live object: its place, and the file while it owns or guards it. */
  predicate Later(w: World, w': World, me: nat) {
    && me < |w.instances| <= |w'.instances| && w'.instances[me] == w.instances[me]
    && |w.processes| <= |w'.processes| && Lives(w, me) && Lives(w', me)
    && w'.processes[w'.instances[me].process] == w.processes[w.instances[me].process]
    && (Owns(w.instances[me].pc) || Guarded(w.instances[me].pc) ==> w'.file == w.file)
  }

  lemma OthersMove(w: World, m: Move, me: nat)
    requires Inv(w) && Can(w, m) && Steady(w, m) && Lives(w, me) && ByOthers(w, m, me)
    ensures Inv(Moved(w, m)) && Later(w, Moved(w, m), me)
  {
    MoveInv(w, m);
    assert InstanceOk(w, me);
    if ByInstance(m) {
      assert InstanceOk(w, m.i);
      if LiveOwner(w, me) {
        OwnerKept(w, m, me);
      }
    }
  }

  /** The file system, the lock and the process table. */
  class Machine {
    var processes: seq<Process>
    var instances: seq<Instance>
    var file: Option<File>
    var guard: Option<nat>
    var tokens: nat
    ghost const start: World

    function State(): World
      reads this
    {
      World(processes, instances, file, guard, tokens)
    }

    ghost predicate Valid()
      reads this
    {
      ReachableFrom(start, State())
    }

    constructor (processes: seq<Process>, file: Option<File>)
      requires ProcessesOk(processes)
      ensures Valid() && State() == World(processes, [], file, None, 0)
    {
      this.processes, this.instances, this.file, this.guard, this.tokens := processes, [], file, None, 0;
      this.start := World(processes, [], file, None, 0);
      new;
      assert SteadyRuns(start, [], State());
    }

    /** Other objects move and other processes come and go, as often and however they like. */
    method Others(me: nat)
      requires Valid() && Lives(State(), me)
      modifies this
      ensures Valid() && Later(old(State()), State(), me)
    {
      var n: nat := *;
      ReachableInv(start, State());
      while n > 0
        invariant Valid() && Inv(State())
        invariant Later(old(State()), State(), me)
      {
        var m: Move := *;
        if Can(State(), m) && Steady(State(), m) && ByOthers(State(), m, me) {
          OthersMove(State(), m, me);
          ReachableMove(start, State(), m);
          var w := Moved(State(), m);
          processes, instances, file, guard, tokens := w.processes, w.instances, w.file, w.guard, w.tokens;
        }
        n := n - 1;
      }
    }

    /** `_process_identity`, with the stability its own description promises. */
    method ProcessIdentity(me: nat) returns (probe: Probe)
      requires me < |instances|
      ensures Steady(State(), Identify(me, probe))
    {
      probe := *;
      if !Steady(State(), Identify(me, probe)) {
        probe := Unavailable;
      }
    }

    /** The lock is granted only when it is free. */
    method WaitForGuard(me: nat) returns (granted: bool)
      requires Valid() && Lives(State(), me)
      modifies this
      ensures Valid() && Later(old(State()), State(), me) && (granted ==> GuardFree(State()))
    {
      Others(me);
      granted := GuardFree(State());
    }

    ghost method Log(before: World, m: Move)
      requires ReachableFrom(start, before) && Can(before, m) && Steady(before, m) && State() == Moved(before, m)
      ensures Valid() && Inv(State())
    {
      ReachableMove(start, before, m);
      ReachableInv(start, State());
    }
  }

  /** `Blocked` stands for a call that is still waiting for the lock when the story ends. */
  datatype Outcome = Done | Blocked | Unidentified | AlreadyOwned

  class SingleOwnerLease {
    const machine: Machine
    const me: nat
    var payload: Option<Lease>

    /** The object's place in the world is what its field says. */
    ghost predicate Valid()
      reads this, machine
    {
      && machine.Valid() && Lives(machine.State(), me)
      && machine.instances[me].pc == if payload.None? then Free else Held(payload.value)
    }

    predicate Waits()
      reads this, machine
    {
      Lives(machine.State(), me) && machine.instances[me].pc.Waiting?
    }

    predicate In(pc: Pc)
      reads this, machine
    {
      Lives(machine.State(), me) && machine.instances[me].pc == pc
    }

    constructor (machine: Machine, process: nat)
      requires machine.Valid() && process < |machine.processes| && machine.processes[process].alive
      modifies machine
      ensures Valid() && this.machine == machine && payload.None?
    {
      this.machine, this.me, this.payload := machine, |machine.instances|, None;
      new;
      ghost var before := machine.State();
      machine.instances := machine.instances + [Instance(process, Free)];
      machine.Log(before, Open(process));
    }

    method Go(pc: Pc)
      requires me < |machine.instances|
      modifies machine`instances
      ensures machine.instances == old(machine.instances)[me := old(machine.instances)[me].(pc := pc)]
    {
      machine.instances := machine.instances[me := machine.instances[me].(pc := pc)];
    }

    /** Inside the lock: `_remove_dead_owner`. */
    method RemoveDeadOwner(lease: Lease) returns (clear: bool)
      requires machine.Valid() && In(Guarding(lease))
      modifies machine
      ensures machine.Valid() && In(if clear then Cleared(lease) else Free)
      ensures clear ==> machine.file.None?
    {
      ghost var before := machine.State();
      var next := Inspected(machine.State(), lease);
      if next.None? {
        Go(Free);
        machine.guard := None;
        machine.Log(before, Inspect(me));
        return false;
      }
      Go(next.value);
      machine.Log(before, Inspect(me));
      machine.Others(me);
      if next.value.Probing? {
        clear := VerifyIdentity(lease, next.value.existing);
        if !clear {
          return;
        }
        machine.Others(me);
      } else if next.value.Cleared? {
        ReachableInv(machine.start, machine.State());
        assert InstanceOk(machine.State(), me);
        return true;
      }
      before := machine.State();
      machine.file := None;
      Go(Cleared(lease));
      machine.Log(before, Unlink(me));
      clear := true;
    }

    method VerifyIdentity(lease: Lease, existing: Lease) returns (gone: bool)
      requires machine.Valid() && In(Probing(lease, existing))
      modifies machine
      ensures machine.Valid() && In(if gone then Clearing(lease) else Free)
      ensures gone ==> NoLiveOwner(machine.State())
    {
      ghost var before := machine.State();
      var probe := machine.ProcessIdentity(me);
      var current := ReadPid(machine.processes, existing.pid, probe);
      if current.None? || current == existing.identity {
        Go(Free);
        machine.guard := None;
        gone := false;
      } else {
        Go(Clearing(lease));
        gone := true;
      }
      machine.Log(before, Identify(me, probe));
      assert InstanceOk(machine.State(), me);
    }

    /** Inside the lock: `_publish`, then the lock is dropped and the object is the owner.  The link can
    never find a file in its way. */
    method PublishLease(lease: Lease)
      requires machine.Valid() && In(Cleared(lease))
      modifies machine
      ensures machine.Valid() && In(Held(lease)) && machine.file == Some(Record(lease))
    {
      ghost var before := machine.State();
      ReachableInv(machine.start, before);
      assert InstanceOk(before, me);
      machine.file := Some(Record(lease));
      Go(Published(lease));
      machine.Log(before, Publish(me));
      machine.Others(me);
      before := machine.State();
      Go(Held(lease));
      machine.guard := None;
      machine.Log(before, Unlock(me));
      assert InstanceOk(machine.State(), me);
    }

    /** Either the object owns the lease alone, or nothing about it has changed. */
    method Acquire() returns (r: Outcome)
      requires Valid()
      modifies this, machine
      ensures if r.Blocked? then machine.Valid() && Waits() && payload.None? else Valid()
      ensures r.Done? == payload.Some?
      ensures old(payload).Some? ==> payload == old(payload) && machine.State() == old(machine.State())
      ensures payload.Some? && old(payload).None? ==> machine.file == Some(Record(payload.value))
      ensures payload.Some? ==> OnlyOwner(machine.State(), me)
    {
      if payload.Some? {
        ReachableInv(machine.start, machine.State());
        OwnsAlone(machine.State(), me);
        return Done;
      }
      ghost var before := machine.State();
      var probe := machine.ProcessIdentity(me);
      var own := Reading(machine.processes[machine.instances[me].process], probe);
      if own.None? {
        return Unidentified;
      }
      var lease := Minted(machine.State(), me, own.value);
      Go(Waiting(lease));
      machine.tokens := machine.tokens + 1;
      machine.Log(before, Begin(me, probe));
      r := AcquireGuarded(lease);
    }

    method AcquireGuarded(lease: Lease) returns (r: Outcome)
      requires machine.Valid() && In(Waiting(lease)) && payload.None?
      modifies this, machine
      ensures if r.Blocked? then machine.Valid() && Waits() && payload.None? else Valid()
      ensures r.Done? == payload.Some?
      ensures payload.Some? ==> machine.file == Some(Record(payload.value)) && OnlyOwner(machine.State(), me)
    {
      var granted := machine.WaitForGuard(me);
      ghost var before := machine.State();
      if !granted {
        return Blocked;
      }
      Go(Guarding(lease));
      machine.guard := Some(me);
      machine.Log(before, Lock(me));
      machine.Others(me);
      var clear := RemoveDeadOwner(lease);
      if !clear {
        return AlreadyOwned;
      }
      machine.Others(me);
      PublishLease(lease);
      payload := Some(lease);
      ReachableInv(machine.start, machine.State());
      OwnsAlone(machine.State(), me);
      r := Done;
    }

    /** An owner always passes: nothing that others do can touch its lease. */
    method AssertOwned() returns (owned: bool)
      requires Valid()
      ensures owned == payload.Some?
    {
      if payload.None? {
        return false;
      }
      ReachableInv(machine.start, machine.State());
      OwnsAlone(machine.State(), me);
      owned := machine.file == Some(Record(payload.value));
    }

    /** The lease is given up, or the call is still waiting for the lock as the owner. */
    method Release() returns (r: Outcome)
      requires Valid()
      modifies this, machine
      ensures Valid() && (r.Done? <==> payload.None?) && (r.Done? || r.Blocked?)
      ensures old(payload).None? ==> machine.State() == old(machine.State())
      ensures r.Blocked? ==> payload == old(payload)
    {
      var owned := AssertOwned();
      if !owned {
        return Done;
      }
      var lease := payload.value;
      var granted := machine.WaitForGuard(me);
      if !granted {
        return Blocked;
      }
      EnterGuard(lease);
      machine.Others(me);
      RemoveLease(lease);
      payload := None;
      r := Done;
    }

    method EnterGuard(lease: Lease)
      requires machine.Valid() && In(Held(lease)) && GuardFree(machine.State())
      modifies machine
      ensures machine.Valid() && In(Checking(lease))
    {
      ghost var before := machine.State();
      ReachableInv(machine.start, before);
      OwnsAlone(before, me);
      Go(Checking(lease));
      machine.guard := Some(me);
      machine.Log(before, LockToRelease(me));
    }

    /** The second check, inside the lock, holds too; then the file goes and the lock is dropped. */
    method RemoveLease(lease: Lease)
      requires machine.Valid() && In(Checking(lease))
      modifies machine
      ensures machine.Valid() && In(Free)
    {
      ghost var before := machine.State();
      ReachableInv(machine.start, before);
      OwnsAlone(before, me);
      assert machine.file == Some(Record(lease));
      machine.file := None;
      Go(Unlinked(lease));
      machine.Log(before, RemoveOwn(me));
      machine.Others(me);
      before := machine.State();
      Go(Free);
      machine.guard := None;
      machine.Log(before, Finish(me));
    }
  }

  predicate OnlyOwner(w: World, me: nat) {
    forall j | 0 <= j < |w.instances| && LiveOwner(w, j) :: j == me
  }

  lemma OwnsAlone(w: World, me: nat)
    requires Inv(w) && LiveOwner(w, me)
    ensures OnlyOwner(w, me) && w.file == Some(Record(w.instances[me].pc.lease))
  {
    assert InstanceOk(w, me);
    forall j | 0 <= j < |w.instances| && LiveOwner(w, j)
      ensures j == me
    {
      assert InstanceOk(w, j);
    }
  }
}
