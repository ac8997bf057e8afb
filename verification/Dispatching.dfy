/**
 * The dispatching methods of the interop, on the shared state: which tasks they publish, and what they return.
 * One handler call is one client; its program is all that it may dispatch.
 */
module Dispatching {
  import opened Wrappers
  import opened Tasks
  import opened Protocol
  import opened ProtocolInvariant
  import opened ProtocolPreserved
  import opened Runs
  import opened Ordering
  import opened Interop
  import opened Delivery
  import opened Programs

  /** The clock readings and uuids that one dispatch draws, one pair for each of its tasks. */
  type Draws = seq<(nat, string)>

  /** The jobs that scheduleTask makes of a dispatch whose tasks write these archives. */
  function ProgramOf(tasks: seq<RunTask>, step: Step, draws: Draws, archives: seq<string>): (prog: seq<Job>)
    requires |draws| == |tasks| == |archives|
    ensures |prog| == |tasks|
    ensures forall k :: 0 <= k < |tasks| ==> prog[k] == Compiled(tasks[k], step, draws[k].0, draws[k].1, archives[k])
  {
    seq(|tasks|, k requires 0 <= k < |tasks| => Compiled(tasks[k], step, draws[k].0, draws[k].1, archives[k]))
  }

  function FolderProgram(dst: string, draws: Draws): (prog: seq<Job>)
    requires |draws| == 3
    ensures |prog| == 3
  {
    ProgramOf(FolderTasks(dst), StreamIn, draws, ["", "", ""])
  }

  function ExtractProgram(file: string, dest: string, user: string, draws: Draws): (prog: seq<Job>)
    requires |draws| == 3
    ensures |prog| == 3
  {
    ProgramOf(ExtractTasks(file, dest, user), StreamIn, draws, ["", "", ""])
  }

  /** Only the second of the two tasks writes an archive. */
  function StreamOutProgram(path: string, user: string, fileId: string, draws: Draws): (prog: seq<Job>)
    requires |draws| == 2
    ensures |prog| == 2
  {
    ProgramOf(StreamOutTasks(path, user, fileId), StreamOut, draws, ["", fileId])
  }

  function RunProgram(task: RunTask, draws: Draws): (prog: seq<Job>)
    requires |draws| == 1
    ensures |prog| == 1
  {
    ProgramOf([task], Run, draws, [""])
  }

  /** How the surroundings behave during one dispatch. */
  datatype Surroundings = Surroundings(answers: nat -> Answers, others: nat -> nat -> seq<Action>)

  /** The client is idle and these jobs are the next of its program. */
  predicate Faces(s: State, c: nat, jobs: seq<Job>) {
    && IsIdle(s, c)
    && s.clients[c].next + |jobs| <= |s.clients[c].prog|
    && s.clients[c].prog[s.clients[c].next..][..|jobs|] == jobs
  }

  /** A handler call begins: the uuids it is going to use are fresh, and nothing of it is published. */
  method Begin(i: ContainerInterop, prog: seq<Job>)
    requires Inv(i.s) && SpawnEnabled(i.s, i.client, prog)
    modifies i
    ensures Inv(i.s) && Later(old(i.s), i.s)
    ensures i.s == Next(old(i.s), Spawn(i.client, prog)) && Faces(i.s, i.client, prog)
    ensures i.client in i.s.clients && i.s.clients[i.client] == Client(prog, 0, Idle, false)
  {
    hide Inv, Later, SpawnEnabled;
    InvKept(i.s, Spawn(i.client, prog));
    LaterInStep(i.s, Spawn(i.client, prog));
    i.s := Next(i.s, Spawn(i.client, prog));
    assert prog[0..][..|prog|] == prog;
  }

  /** The next jobs of the client, up to the first that cannot be scheduled. */
  method Launch(i: ContainerInterop, jobs: seq<Job>, around: Surroundings) returns (ok: bool)
    requires Inv(i.s) && Faces(i.s, i.client, jobs)
    modifies i
    ensures Inv(i.s) && Later(old(i.s), i.s)
    ensures MovedOn(old(i.s), i.s, i.client, Succeeding(around.answers, jobs, 0), ok)
    ensures ok <==> Succeeding(around.answers, jobs, 0) == |jobs|
  {
    hide Inv, Later, Succeeds;
    ok := i.ScheduleNext(|jobs|, around.answers, around.others);
  }

  lemma {:induction false} ProgramSteps(tasks: seq<RunTask>, step: Step, draws: Draws, archives: seq<string>)
    requires |draws| == |tasks| == |archives|
    ensures forall k :: 0 <= k < |tasks| ==> ProgramOf(tasks, step, draws, archives)[k].step == step
  {
  }

  /** Of the next jobs of a client, which all go to one queue, the first n have been added there. */
  lemma {:induction false} NextJobsAdded(s: State, s': State, c: nat, jobs: seq<Job>, target: Step, n: nat, ok: bool)
    requires Inv(s) && Inv(s') && Faces(s, c, jobs) && MovedOn(s, s', c, n, ok) && n <= |jobs|
    requires forall k :: 0 <= k < |jobs| ==> jobs[k].step == target
    ensures AddedTo(s, s', c, target, n)
  {
    hide Inv, AddedTo;
    var prog, first := s.clients[c].prog, s.clients[c].next;
    forall k | first <= k < first + n ensures prog[k].step == target {
      assert prog[k] == prog[first..][..|jobs|][k - first] == jobs[k - first];
    }
    NextTasksAdded(s, s', c, target, n);
  }

  /** DispatchFolderTask: nothing is published if the copy fails; otherwise mkdir, chmod and rsync, or the first of them. */
  method DispatchFolderTask(i: ContainerInterop, dst: string, copied: bool, draws: Draws, around: Surroundings)
    returns (id: Option<string>)
    requires Inv(i.s) && |draws| == 3 && Faces(i.s, i.client, FolderProgram(dst, draws))
    modifies i
    ensures Inv(i.s) && Later(old(i.s), i.s)
    ensures !copied ==> i.s == old(i.s)
    ensures var prog := FolderProgram(dst, draws);
            var n := if copied then Succeeding(around.answers, prog, 0) else 0;
            && MovedOn(old(i.s), i.s, i.client, n, id.Some?)
            && AddedTo(old(i.s), i.s, i.client, Step.StreamIn, n)
            && id == if n == 3 then Some(prog[2].Id()) else None
  {
    hide Inv, Later, ProgramOf, Succeeds, Job.Id, Faces, AddedTo, FolderTasks;
    ghost var s0 := i.s;
    LaterReflexive(i.s);
    ProgramSteps(FolderTasks(dst), Step.StreamIn, draws, ["", "", ""]);
    if !copied {
      FacingClient(i.s, i.client, FolderProgram(dst, draws));
      NextJobsAdded(s0, i.s, i.client, FolderProgram(dst, draws), Step.StreamIn, 0, false);
      return None;
    }
    var ok := Launch(i, FolderProgram(dst, draws), around);
    NextJobsAdded(s0, i.s, i.client, FolderProgram(dst, draws), Step.StreamIn,
                  Succeeding(around.answers, FolderProgram(dst, draws), 0), ok);
    return if ok then Some(FolderProgram(dst, draws)[2].Id()) else None;
  }

  lemma {:induction false} FacingClient(s: State, c: nat, jobs: seq<Job>)
    requires Faces(s, c, jobs)
    ensures MovedOn(s, s, c, 0, false)
  {
  }

  /** DispatchExtractFileTask: mkdir, chmod and tar, or the first of them. */
  method DispatchExtractFileTask(i: ContainerInterop, file: string, dest: string, user: string, draws: Draws,
                                 around: Surroundings)
    returns (id: Option<string>)
    requires Inv(i.s) && |draws| == 3 && Faces(i.s, i.client, ExtractProgram(file, dest, user, draws))
    modifies i
    ensures Inv(i.s) && Later(old(i.s), i.s)
    ensures var prog := ExtractProgram(file, dest, user, draws);
            var n := Succeeding(around.answers, prog, 0);
            && MovedOn(old(i.s), i.s, i.client, n, id.Some?)
            && AddedTo(old(i.s), i.s, i.client, Step.StreamIn, n)
            && id == if n == 3 then Some(prog[2].Id()) else None
  {
    hide Inv, Later, ProgramOf, Succeeds, Job.Id, Faces, AddedTo, ExtractTasks;
    ghost var s0 := i.s;
    ProgramSteps(ExtractTasks(file, dest, user), Step.StreamIn, draws, ["", "", ""]);
    var ok := Launch(i, ExtractProgram(file, dest, user, draws), around);
    NextJobsAdded(s0, i.s, i.client, ExtractProgram(file, dest, user, draws), Step.StreamIn,
                  Succeeding(around.answers, ExtractProgram(file, dest, user, draws), 0), ok);
    return if ok then Some(ExtractProgram(file, dest, user, draws)[2].Id()) else None;
  }

  /** DispatchStreamOutTask: mkdir and tar, or the first of them; with the task's id comes the name of the archive. */
  method DispatchStreamOutTask(i: ContainerInterop, path: string, user: string, fileId: string, draws: Draws,
                               around: Surroundings)
    returns (ids: Option<(string, string)>)
    requires Inv(i.s) && |draws| == 2 && Faces(i.s, i.client, StreamOutProgram(path, user, fileId, draws))
    modifies i
    ensures Inv(i.s) && Later(old(i.s), i.s)
    ensures var prog := StreamOutProgram(path, user, fileId, draws);
            var n := Succeeding(around.answers, prog, 0);
            && MovedOn(old(i.s), i.s, i.client, n, ids.Some?)
            && AddedTo(old(i.s), i.s, i.client, Step.StreamOut, n)
            && ids == if n == 2 then Some((prog[1].Id(), fileId)) else None
  {
    hide Inv, Later, ProgramOf, Succeeds, Job.Id, Faces, AddedTo, StreamOutTasks;
    ghost var s0 := i.s;
    ProgramSteps(StreamOutTasks(path, user, fileId), Step.StreamOut, draws, ["", fileId]);
    var ok := Launch(i, StreamOutProgram(path, user, fileId, draws), around);
    NextJobsAdded(s0, i.s, i.client, StreamOutProgram(path, user, fileId, draws), Step.StreamOut,
                  Succeeding(around.answers, StreamOutProgram(path, user, fileId, draws), 0), ok);
    return if ok then Some((StreamOutProgram(path, user, fileId, draws)[1].Id(), fileId)) else None;
  }

  /** DispatchRunTask: the one task, and its id if it was published. */
  method DispatchRunTask(i: ContainerInterop, task: RunTask, draws: Draws, around: Surroundings)
    returns (id: Option<string>)
    requires Inv(i.s) && |draws| == 1 && Faces(i.s, i.client, RunProgram(task, draws))
    modifies i
    ensures Inv(i.s) && Later(old(i.s), i.s)
    ensures var prog := RunProgram(task, draws);
            var n := Succeeding(around.answers, prog, 0);
            && MovedOn(old(i.s), i.s, i.client, n, id.Some?)
            && AddedTo(old(i.s), i.s, i.client, Step.Run, n)
            && id == if n == 1 then Some(prog[0].Id()) else None
  {
    hide Inv, Later, ProgramOf, Succeeds, Job.Id, Faces, AddedTo;
    ghost var s0 := i.s;
    ProgramSteps([task], Step.Run, draws, [""]);
    var ok := Launch(i, RunProgram(task, draws), around);
    NextJobsAdded(s0, i.s, i.client, RunProgram(task, draws), Step.Run,
                  Succeeding(around.answers, RunProgram(task, draws), 0), ok);
    return if ok then Some(RunProgram(task, draws)[0].Id()) else None;
  }
}
