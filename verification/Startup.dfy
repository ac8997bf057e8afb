/**
 * The Create handler with Prepare: how the share is prepared, when the container starts and on what, and which
 * tasks the bind mounts put into the stream-in queue.
 */
module Startup {
  import opened Wrappers
  import opened Tasks
  import opened Naming
  import opened Paths
  import opened MountTargets
  import opened Protocol
  import opened ProtocolInvariant
  import opened Runs
  import opened Ordering
  import opened Interop
  import opened Dispatching

  datatype BindMount = BindMount(src: string, dst: string)

  /** What the operations before the bind mounts answer; the entry script may be written in part. */
  datatype HostAnswers = HostAnswers(mount: bool, folder: nat -> bool, create: bool, written: nat, start: bool)

  /** What happens to one bind mount: how its copy goes, whether it ends without an error, and then the dispatch. */
  datatype MountAnswers = MountAnswers(copy: Copy, synced: bool, around: Surroundings)

  /** What the container finds when it is started: the folders and the entry script on the share, and the log so far. */
  datatype Snapshot = Snapshot(folders: set<seq<string>>, script: Option<string>, log: seq<Entry>)

  datatype Operation =
    | Mount
    | MakeFolder(path: seq<string>)
    | CreateScript
    | WriteScript
    | StartContainer
    | Dispatch(mount: nat)
    | Unmount

  datatype Reply = Created | OpenFailed | PrepareFailed | CreateFailed | DispatchFailed

  const REQUIRED_FOLDERS: set<seq<string>> :=
    {TaskFolder(Step.StreamIn), TaskFolder(Run), TaskFolder(Step.StreamOut), ["out", "tasks"]}

  // ----- The bind mounts -----

  /** Each mount draws three clock readings and three uuids. */
  predicate DrawsFit(mounts: seq<BindMount>, draws: seq<Draws>) {
    |draws| == |mounts| && forall k :: 0 <= k < |draws| ==> |draws[k]| == 3
  }

  /** All that one Create may dispatch: three tasks for each mount, in list order. */
  function MountProgram(mounts: seq<BindMount>, draws: seq<Draws>): (prog: seq<Job>)
    requires DrawsFit(mounts, draws)
    ensures |prog| == 3 * |mounts|
    ensures forall j :: 0 <= j < |prog| ==> prog[j] == FolderProgram(mounts[j / 3].dst, draws[j / 3])[j % 3]
  {
    seq(3 * |mounts|, j requires 0 <= j < 3 * |mounts| => FolderProgram(mounts[j / 3].dst, draws[j / 3])[j % 3])
  }

  /** How many of the three tasks of a mount are published. */
  function Scheduled(mount: BindMount, draws: Draws, answers: MountAnswers): (n: nat)
    requires |draws| == 3
    ensures n <= 3
  {
    if answers.copy.made && answers.synced then Succeeding(answers.around.answers, FolderProgram(mount.dst, draws), 0) else 0
  }

  /** The first mount that is not dispatched completely. */
  function FirstStopped(mounts: seq<BindMount>, draws: seq<Draws>, answers: nat -> MountAnswers, from: nat): (m: nat)
    requires DrawsFit(mounts, draws)
    requires from <= |mounts|
    ensures from <= m <= |mounts|
    decreases |mounts| - from
  {
    if from == |mounts| || Scheduled(mounts[from], draws[from], answers(from)) < 3 then from
    else FirstStopped(mounts, draws, answers, from + 1)
  }

  lemma {:induction false} FirstStoppedIs(mounts: seq<BindMount>, draws: seq<Draws>, answers: nat -> MountAnswers,
                                          from: nat, k: nat)
    requires DrawsFit(mounts, draws) && from <= k <= |mounts|
    requires forall j :: from <= j < k ==> Scheduled(mounts[j], draws[j], answers(j)) == 3
    ensures (k == |mounts| || Scheduled(mounts[k], draws[k], answers(k)) < 3) <==>
      FirstStopped(mounts, draws, answers, from) == k
    decreases k - from
  {
    hide Scheduled;
    if from < k {
      FirstStoppedIs(mounts, draws, answers, from + 1, k);
    }
  }

  /** All tasks of the mounts before the first that stops, and of that one those before its first failure. */
  function TasksPublished(mounts: seq<BindMount>, draws: seq<Draws>, answers: nat -> MountAnswers): nat
    requires DrawsFit(mounts, draws)
  {
    var m := FirstStopped(mounts, draws, answers, 0);
    3 * m + if m < |mounts| then Scheduled(mounts[m], draws[m], answers(m)) else 0
  }

  /** The folders that the first n mounts make. */
  function FoldersCopied(temp: string, mounts: seq<BindMount>, answers: nat -> MountAnswers, n: nat): set<seq<string>>
    requires n <= |mounts|
  {
    if n == 0 then {}
    else FoldersCopied(temp, mounts, answers, n - 1) + FoldersMade(temp, mounts[n - 1].dst, answers(n - 1).copy)
  }

  lemma {:induction false} StopsBy(mounts: seq<BindMount>, draws: seq<Draws>, answers: nat -> MountAnswers, from: nat,
                                    k: nat)
    requires DrawsFit(mounts, draws) && from <= k < |mounts| && Scheduled(mounts[k], draws[k], answers(k)) < 3
    ensures FirstStopped(mounts, draws, answers, from) <= k
    decreases k - from
  {
    hide Scheduled;
    if from < k {
      StopsBy(mounts, draws, answers, from + 1, k);
    }
  }

  /** A mount whose copy fails is the last that is tried, and publishes nothing. */
  lemma {:induction false} FailedCopyStops(mounts: seq<BindMount>, draws: seq<Draws>, answers: nat -> MountAnswers, k: nat)
    requires DrawsFit(mounts, draws) && k < |mounts| && !(answers(k).copy.made && answers(k).synced)
    ensures FirstStopped(mounts, draws, answers, 0) <= k && TasksPublished(mounts, draws, answers) <= 3 * k
  {
    hide Scheduled, FirstStopped;
    NothingScheduled(mounts[k], draws[k], answers(k));
    StopsBy(mounts, draws, answers, 0, k);
  }

  lemma {:induction false} NothingScheduled(mount: BindMount, draws: Draws, answers: MountAnswers)
    requires |draws| == 3 && !(answers.copy.made && answers.synced)
    ensures Scheduled(mount, draws, answers) == 0
  {
  }

  lemma {:induction false} MountSlice(mounts: seq<BindMount>, draws: seq<Draws>, k: nat)
    requires DrawsFit(mounts, draws)
    requires k < |mounts|
    ensures 3 * k + 3 <= |MountProgram(mounts, draws)|
    ensures MountProgram(mounts, draws)[3 * k..][..3] == FolderProgram(mounts[k].dst, draws[k])
  {
    hide FolderProgram;
    var prog := MountProgram(mounts, draws);
    assert (3 * k) / 3 == k && (3 * k + 1) / 3 == k && (3 * k + 2) / 3 == k;
    assert (3 * k) % 3 == 0 && (3 * k + 1) % 3 == 1 && (3 * k + 2) % 3 == 2;
    assert prog[3 * k..][..3] == [prog[3 * k], prog[3 * k + 1], prog[3 * k + 2]];
  }

  lemma {:induction false} MountJobsStreamIn(mounts: seq<BindMount>, draws: seq<Draws>)
    requires DrawsFit(mounts, draws)
    ensures forall j :: 0 <= j < 3 * |mounts| ==> MountProgram(mounts, draws)[j].step == StreamIn
  {
  }

  // ----- The handler -----

  /** The share is mounted, all folders and the entry script could be made. */
  predicate Prepared(a: HostAnswers) {
    a.mount && a.folder(0) && a.folder(1) && a.folder(2) && a.folder(3) && a.create
  }

  function HostActions(actions: seq<Action>): (r: seq<Action>)
    ensures forall a :: a in r ==> HostSide(a)
  {
    if actions == [] then []
    else HostActions(actions[..|actions| - 1])
         + if HostSide(actions[|actions| - 1]) then [actions[|actions| - 1]] else []
  }

  /** Other hosts may have acted meanwhile, but not the container, nor this client. */
  ghost predicate Meanwhile(s: State, s': State, c: nat) {
    && Inv(s') && Later(s, s') && ContainerStill(s, s')
    && c in s.clients && c in s'.clients && s'.clients[c] == s.clients[c]
  }

  lemma {:induction false} MeanwhileTransitive(s: State, s': State, s'': State, c: nat)
    requires Meanwhile(s, s', c) && Meanwhile(s', s'', c)
    ensures Meanwhile(s, s'', c)
  {
    hide Inv, Later;
    LaterTransitive(s, s', s'');
  }

  lemma {:induction false} MeanwhileNothing(s: State, c: nat)
    requires Inv(s) && c in s.clients
    ensures Meanwhile(s, s, c)
  {
    hide Inv, Later;
    LaterReflexive(s);
  }

  /** One container's share, as its host prepares it, and what has been done to it. */
  class Site {
    const answers: HostAnswers
    /** The text of the entry script. */
    const content: string
    const interop: ContainerInterop
    /** The name of the folder in which the host has mounted the share. */
    const temp: string
    /** What others do before operation number k. */
    const company: nat -> seq<Action>
    var folders: set<seq<string>>
    var script: Option<string>
    var started: Option<Snapshot>
    var done: seq<Operation>

    constructor (a: HostAnswers, text: string, i: ContainerInterop, name: string, others: nat -> seq<Action>)
      ensures answers == a && content == text && interop == i && temp == name && company == others
      ensures folders == {} && script == None && started == None && done == []
    {
      answers, content, interop, temp, company := a, text, i, name, others;
      folders, script, started, done := {}, None, None, [];
    }

    /** Before there is a container only hosts can act. */
    method Others()
      requires Inv(interop.s) && interop.client in interop.s.clients
      modifies interop
      ensures Meanwhile(old(interop.s), interop.s, interop.client)
      ensures Inv(interop.s) && interop.client in interop.s.clients
    {
      hide Inv, Later;
      interop.Others(HostActions(company(|done|)));
    }

    /** os.MkdirAll for the folder number k. */
    method MakeFolder(path: seq<string>, k: nat) returns (ok: bool)
      modifies this
      ensures ok == answers.folder(k) && folders == (if ok then old(folders) + {path} else old(folders))
      ensures script == old(script) && started == old(started) && done == old(done) + [Operation.MakeFolder(path)]
    {
      done := done + [Operation.MakeFolder(path)];
      ok := answers.folder(k);
      if ok {
        folders := folders + {path};
      }
    }

    /** The entry script is created and then written without a look at how much of it went through. */
    method MakeScript() returns (ok: bool)
      modifies this
      ensures ok == answers.create && folders == old(folders) && started == old(started)
      ensures ok ==> script == Some(Through(answers.written, content))
      ensures OnlyPreparing(old(done), done)
    {
      done := done + [CreateScript];
      ok := answers.create;
      if ok {
        script := Some("");
        done := done + [WriteScript];
        script := Some(Through(answers.written, content));
      }
    }

    /** The loop of Prepare: a folder for each queue, until one cannot be made. */
    method MakeQueueFolders() returns (ok: bool)
      requires Inv(interop.s) && interop.client in interop.s.clients
      modifies this, interop
      ensures Meanwhile(old(interop.s), interop.s, interop.client)
      ensures Inv(interop.s) && interop.client in interop.s.clients
      ensures started == old(started) && OnlyPreparing(old(done), done)
      ensures ok <==> answers.folder(0) && answers.folder(1) && answers.folder(2)
      ensures ok ==> folders == old(folders) + FirstFolders(3)
    {
      hide Meanwhile, FirstFolders, QueueFolder;
      ghost var s0 := interop.s;
      MeanwhileNothing(s0, interop.client);
      NoFolders();
      for j := 0 to 3
        invariant Inv(interop.s) && interop.client in interop.s.clients && Meanwhile(s0, interop.s, interop.client)
        invariant started == old(started) && OnlyPreparing(old(done), done)
        invariant folders == old(folders) + FirstFolders(j)
        invariant forall k :: 0 <= k < j ==> answers.folder(k)
      {
        ghost var s1 := interop.s;
        Others();
        MeanwhileTransitive(s0, s1, interop.s, interop.client);
        OneMoreFolder(j);
        ok := MakeFolder(QueueFolder(j), j);
        if !ok {
          return;
        }
      }
      ok := true;
    }

    /** Prepare: the queue folders, the output folder, the entry script; an error in one of them ends it. */
    method Prepare() returns (ok: bool)
      requires Inv(interop.s) && interop.client in interop.s.clients
      modifies this, interop
      ensures Meanwhile(old(interop.s), interop.s, interop.client)
      ensures Inv(interop.s) && interop.client in interop.s.clients
      ensures started == old(started) && OnlyPreparing(old(done), done)
      ensures ok <==> answers.folder(0) && answers.folder(1) && answers.folder(2) && answers.folder(3) && answers.create
      ensures ok ==> folders == old(folders) + REQUIRED_FOLDERS && script == Some(Through(answers.written, content))
    {
      hide Meanwhile, Through, FirstFolders;
      ghost var s0 := interop.s;
      ok := MakeQueueFolders();
      if !ok {
        return;
      }
      AllFolders();
      ok := MakeFolder(["out", "tasks"], 3);
      if !ok {
        return;
      }
      ghost var s1 := interop.s;
      Others();
      MeanwhileTransitive(s0, s1, interop.s, interop.client);
      ok := MakeScript();
    }

    /** One bind mount: the copy leaves folders even if it then fails; the tasks follow a copy that went through. */
    method DispatchMount(mount: BindMount, draws: Draws, a: MountAnswers, k: nat) returns (ok: bool)
      requires Inv(interop.s) && |draws| == 3 && Faces(interop.s, interop.client, FolderProgram(mount.dst, draws))
      modifies this, interop
      ensures Inv(interop.s) && Later(old(interop.s), interop.s)
      ensures MovedOn(old(interop.s), interop.s, interop.client, Scheduled(mount, draws, a), ok)
      ensures ok <==> Scheduled(mount, draws, a) == 3
      ensures !a.copy.made || !a.synced ==> interop.s == old(interop.s) && !ok
      ensures folders == old(folders) + FoldersMade(temp, mount.dst, a.copy)
      ensures started == old(started) && script == old(script) && done == old(done) + [Dispatch(k)]
    {
      hide Inv, Later, FolderProgram, FoldersMade, Faces;
      done := done + [Dispatch(k)];
      folders := folders + FoldersMade(temp, mount.dst, a.copy);
      var id := DispatchFolderTask(interop, mount.dst, a.copy.made && a.synced, draws, a.around);
      ok := id.Some?;
    }

    /** The bind mounts in list order, until one of them fails. */
    method DispatchMounts(mounts: seq<BindMount>, draws: seq<Draws>, mountAnswers: nat -> MountAnswers) returns (ok: bool)
      requires Inv(interop.s) && DrawsFit(mounts, draws) && interop.client in interop.s.clients
      requires interop.s.clients[interop.client] == Client(MountProgram(mounts, draws), 0, Idle, false)
      modifies this, interop
      ensures Inv(interop.s) && Later(old(interop.s), interop.s) && interop.client in interop.s.clients
      ensures interop.s.clients[interop.client].prog == MountProgram(mounts, draws)
      ensures interop.s.clients[interop.client].next == TasksPublished(mounts, draws, mountAnswers)
      ensures ok <==> FirstStopped(mounts, draws, mountAnswers, 0) == |mounts|
      ensures folders == old(folders) + FoldersCopied(temp, mounts, mountAnswers, Tried(mounts, draws, mountAnswers))
      ensures started == old(started) && script == old(script) && OnlyDispatching(old(done), done)
    {
      hide Inv, Later, Scheduled, MountProgram, FolderProgram, FoldersMade, TasksPublished, FoldersCopied, FirstStopped;
      ghost var s0 := interop.s;
      LaterReflexive(s0);
      NoneCopied(temp, mounts, mountAnswers);
      for k := 0 to |mounts|
        invariant Inv(interop.s) && Later(s0, interop.s) && interop.client in interop.s.clients
        invariant interop.s.clients[interop.client] == Client(MountProgram(mounts, draws), 3 * k, Idle, false)
        invariant forall j :: 0 <= j < k ==> Scheduled(mounts[j], draws[j], mountAnswers(j)) == 3
        invariant folders == old(folders) + FoldersCopied(temp, mounts, mountAnswers, k)
        invariant started == old(started) && script == old(script)
        invariant OnlyDispatching(old(done), done) && |done| == |old(done)| + k
      {
        ghost var s1 := interop.s;
        MountSlice(mounts, draws, k);
        OneMoreCopied(temp, mounts, mountAnswers, k);
        var dispatched := DispatchMount(mounts[k], draws[k], mountAnswers(k), k);
        LaterTransitive(s0, s1, interop.s);
        if !dispatched {
          StopsThere(mounts, draws, mountAnswers, k);
          return false;
        }
      }
      StopsThere(mounts, draws, mountAnswers, |mounts|);
      return true;
    }

    /** Mounting the share and preparing it. */
    method MountAndPrepare() returns (reply: Option<Reply>)
      requires Inv(interop.s) && interop.client in interop.s.clients && done == []
      modifies this, interop
      ensures Meanwhile(old(interop.s), interop.s, interop.client)
      ensures Inv(interop.s) && interop.client in interop.s.clients && started == old(started)
      ensures reply == if !answers.mount then Some(OpenFailed) else if !Prepared(answers) then Some(PrepareFailed) else None
      ensures OnlyPreparing([Mount], done)
      ensures reply.None? ==>
        folders == old(folders) + REQUIRED_FOLDERS && script == Some(Through(answers.written, content))
    {
      hide Meanwhile, Through;
      ghost var s0 := interop.s;
      Others();
      ghost var s1 := interop.s;
      done := done + [Mount];
      if !answers.mount {
        return Some(OpenFailed);
      }
      var ok := Prepare();
      MeanwhileTransitive(s0, s1, interop.s, interop.client);
      return if ok then None else Some(PrepareFailed);
    }

    /** The container finds what is there when it is started. */
    method StartContainer() returns (ok: bool)
      modifies this
      ensures ok == answers.start && folders == old(folders) && script == old(script)
      ensures started == if ok then Some(Snapshot(folders, script, interop.s.log)) else old(started)
      ensures done == old(done) + [Operation.StartContainer]
    {
      done := done + [Operation.StartContainer];
      ok := answers.start;
      if ok {
        started := Some(Snapshot(folders, script, interop.s.log));
      }
    }

    /**
     * Create. The container starts if and only if the share was mounted and prepared, and then on all four
     * folders, on whatever part of the entry script was written, and before the container has done anything.
     * Of the bind mounts exactly the first ones have all three tasks in the stream-in queue, the one that stops
     * has those before its first failure, and no other has any; there they stand in list order, mkdir, chmod
     * and rsync of each mount before those of the next, whatever others publish in between. The share is
     * unmounted exactly once, at the very end, if it was mounted.
     */
    method Create(mounts: seq<BindMount>, draws: seq<Draws>, mountAnswers: nat -> MountAnswers) returns (reply: Reply)
      requires Inv(interop.s) && DrawsFit(mounts, draws) && done == [] && started.None?
      requires SpawnEnabled(interop.s, interop.client, MountProgram(mounts, draws))
      modifies this, interop
      ensures Inv(interop.s) && Later(old(interop.s), interop.s)
      ensures reply == if !answers.mount then OpenFailed
                       else if !Prepared(answers) then PrepareFailed
                       else if !answers.start then CreateFailed
                       else if FirstStopped(mounts, draws, mountAnswers, 0) == |mounts| then Created
                       else DispatchFailed
      ensures started.Some? <==> Prepared(answers) && answers.start
      ensures started.Some? ==>
        started.value
        == Snapshot(old(folders) + REQUIRED_FOLDERS, Some(Through(answers.written, content)), old(interop.s).log)
      ensures started.Some? && started.value.script == Some(content) <==>
        Prepared(answers) && answers.start && answers.written >= |content|
      ensures forall k :: 0 <= k < |mounts| && !(mountAnswers(k).copy.made && mountAnswers(k).synced) ==>
        reply != Created && TasksPublished(mounts, draws, mountAnswers) <= 3 * k
      ensures started.Some? ==>
        folders == started.value.folders + FoldersCopied(temp, mounts, mountAnswers, Tried(mounts, draws, mountAnswers))
      ensures interop.client in interop.s.clients && interop.s.clients[interop.client].prog == MountProgram(mounts, draws)
      ensures OfClient(interop.s.queues.streamIn.published, interop.client)
              == FirstTasks(interop.client, if started.Some? then TasksPublished(mounts, draws, mountAnswers) else 0)
      ensures InOrder(done, answers.mount, started.Some?)
    {
      hide Inv, Later, SpawnEnabled, MountProgram, Meanwhile, Through, TasksPublished, FoldersCopied, Tried, FirstStopped;
      hide OfClient, InOrder, OnlyPreparing, OnlyDispatching;
      ThroughExact(answers.written, content);
      forall k | 0 <= k < |mounts| && !(mountAnswers(k).copy.made && mountAnswers(k).synced)
        ensures FirstStopped(mounts, draws, mountAnswers, 0) <= k && TasksPublished(mounts, draws, mountAnswers) <= 3 * k
      {
        FailedCopyStops(mounts, draws, mountAnswers, k);
      }
      ghost var s0 := interop.s;
      Begin(interop, MountProgram(mounts, draws));
      ghost var s1 := interop.s;
      BeginIsStill(s0, interop.client, MountProgram(mounts, draws));
      var failed := MountAndPrepare();
      ghost var s2 := interop.s;
      MeanwhileGives(s1, s2, interop.client);
      LaterTransitive(s0, s1, s2);
      OwnQueue(s2, interop.client, mounts, draws);
      if failed.Some? {
        reply := failed.value;
        OrderWithoutStart(done, answers.mount);
        if answers.mount {
          done := done + [Unmount];
        }
        return;
      }
      ghost var before := done;
      var ok := StartContainer();
      if !ok {
        OrderWithFailedStart(before);
        done := done + [Unmount];
        return CreateFailed;
      }
      ok := DispatchMounts(mounts, draws, mountAnswers);
      OrderWithStart(before, done);
      LaterTransitive(s0, s2, interop.s);
      OwnQueue(interop.s, interop.client, mounts, draws);
      done := done + [Unmount];
      reply := if ok then Created else DispatchFailed;
    }
  }

  /**
   * The share is mounted first; mounted, it is unmounted exactly once and last; the container is started at
   * most once, after everything that prepares the share and before every bind mount.
   */
  predicate InOrder(done: seq<Operation>, mounted: bool, started: bool) {
    && |done| >= 1 && done[0] == Mount
    && (forall k :: 0 <= k < |done| ==> (done[k] == Unmount <==> mounted && k == |done| - 1))
    && (forall j, k :: 0 <= j < k < |done| && done[k] == StartContainer ==>
          done[j].Mount? || done[j].MakeFolder? || done[j].CreateScript? || done[j].WriteScript?)
    && (forall j, k :: 0 <= j < k < |done| && done[j].Dispatch? ==> done[k].Dispatch? || done[k].Unmount?)
    && (forall k :: 0 <= k < |done| && done[k].Dispatch? ==> started)
  }

  lemma {:induction false} OrderWithoutStart(done: seq<Operation>, mounted: bool)
    requires OnlyPreparing([Mount], done)
    ensures InOrder(if mounted then done + [Unmount] else done, mounted, false)
  {
  }

  lemma {:induction false} OrderWithFailedStart(before: seq<Operation>)
    requires OnlyPreparing([Mount], before)
    ensures InOrder(before + [StartContainer] + [Unmount], true, false)
  {
  }

  lemma {:induction false} OrderWithStart(before: seq<Operation>, done: seq<Operation>)
    requires OnlyPreparing([Mount], before) && OnlyDispatching(before + [StartContainer], done)
    ensures InOrder(done + [Unmount], true, true)
  {
  }

  lemma {:induction false} BeginIsStill(s: State, c: nat, prog: seq<Job>)
    requires SpawnEnabled(s, c, prog)
    ensures Next(s, Spawn(c, prog)).log == s.log
  {
  }

  lemma {:induction false} MeanwhileGives(s: State, s': State, c: nat)
    requires Meanwhile(s, s', c)
    ensures Inv(s') && Later(s, s') && s'.log == s.log && c in s.clients && c in s'.clients && s'.clients[c] == s.clients[c]
  {
  }

  /** In the stream-in queue this client has exactly what it has published, in program order. */
  lemma {:induction false} OwnQueue(s: State, c: nat, mounts: seq<BindMount>, draws: seq<Draws>)
    requires Inv(s) && c in s.clients && DrawsFit(mounts, draws) && s.clients[c].prog == MountProgram(mounts, draws)
    ensures OfClient(s.queues.streamIn.published, c) == FirstTasks(c, s.clients[c].next)
  {
    hide Inv, MountProgram;
    MountJobsStreamIn(mounts, draws);
    OwnTasksInQueue(s, Step.StreamIn, c);
  }

  /** The mounts that were tried: those dispatched completely, and the one that stopped. */
  function Tried(mounts: seq<BindMount>, draws: seq<Draws>, answers: nat -> MountAnswers): (n: nat)
    requires DrawsFit(mounts, draws)
    ensures n <= |mounts|
  {
    var m := FirstStopped(mounts, draws, answers, 0);
    if m < |mounts| then m + 1 else m
  }

  /** Mounts were dispatched in list order. */
  predicate OnlyDispatching(before: seq<Operation>, after: seq<Operation>) {
    before <= after && forall k :: |before| <= k < |after| ==> after[k] == Dispatch(k - |before|)
  }

  lemma {:induction false} NoneCopied(temp: string, mounts: seq<BindMount>, answers: nat -> MountAnswers)
    ensures FoldersCopied(temp, mounts, answers, 0) == {}
  {
  }

  lemma {:induction false} OneMoreCopied(temp: string, mounts: seq<BindMount>, answers: nat -> MountAnswers, k: nat)
    requires k < |mounts|
    ensures FoldersCopied(temp, mounts, answers, k + 1)
            == FoldersCopied(temp, mounts, answers, k) + FoldersMade(temp, mounts[k].dst, answers(k).copy)
  {
  }

  lemma {:induction false} StopsThere(mounts: seq<BindMount>, draws: seq<Draws>, answers: nat -> MountAnswers, m: nat)
    requires DrawsFit(mounts, draws) && m <= |mounts|
    requires forall j :: 0 <= j < m ==> Scheduled(mounts[j], draws[j], answers(j)) == 3
    requires m < |mounts| ==> Scheduled(mounts[m], draws[m], answers(m)) < 3
    ensures FirstStopped(mounts, draws, answers, 0) == m
    ensures Tried(mounts, draws, answers) == if m < |mounts| then m + 1 else m
    ensures TasksPublished(mounts, draws, answers)
            == 3 * m + if m < |mounts| then Scheduled(mounts[m], draws[m], answers(m)) else 0
  {
    hide Scheduled;
    FirstStoppedIs(mounts, draws, answers, 0, m);
  }

  /** What a write that stops after some characters leaves of a text. */
  function Through(written: nat, text: string): string {
    if written < |text| then text[..written] else text
  }

  lemma {:induction false} ThroughExact(written: nat, text: string)
    ensures Through(written, text) == text <==> written >= |text|
  {
  }

  /** The operations that were added only prepare the share. */
  predicate OnlyPreparing(before: seq<Operation>, after: seq<Operation>) {
    && before <= after
    && forall k :: |before| <= k < |after| ==> after[k].MakeFolder? || after[k].CreateScript? || after[k].WriteScript?
  }

  /** The queue folders in the order in which Prepare makes them. */
  function QueueFolder(k: nat): seq<string>
    requires k < 3
  {
    TaskFolder([Step.StreamIn, Run, Step.StreamOut][k])
  }

  function FirstFolders(n: nat): set<seq<string>>
    requires n <= 3
  {
    if n == 0 then {} else FirstFolders(n - 1) + {QueueFolder(n - 1)}
  }

  lemma {:induction false} NoFolders()
    ensures FirstFolders(0) == {}
  {
  }

  lemma {:induction false} OneMoreFolder(n: nat)
    requires n < 3
    ensures FirstFolders(n + 1) == FirstFolders(n) + {QueueFolder(n)}
  {
  }

  lemma {:induction false} AllFolders()
    ensures FirstFolders(3) + {["out", "tasks"]} == REQUIRED_FOLDERS
  {
    OneMoreFolder(0);
    OneMoreFolder(1);
    OneMoreFolder(2);
  }

  /**
   * The folders that have to be there are exactly those of the queues and of the reports: every file of the
   * protocol has its folder, but for the archive, whose folder the stream-out makes itself.
   */
  lemma {:induction false} RequiredFolders(step: Step, kind: Kind)
    ensures REQUIRED_FOLDERS == {["one_off_tasks", "stream_in"], ["one_off_tasks", "run"],
                                 ["one_off_tasks", "stream_out"], ["out", "tasks"]}
    ensures FolderOf(step, kind) in REQUIRED_FOLDERS <==> kind != ArchiveFile
  {
    assert ["out", "streamout"][1] != ["out", "tasks"][1] by { assert |"streamout"| != |"tasks"|; }
    assert |"out"| != |"one_off_tasks"|;
    assert ["out", "streamout"][0] == "out" && TaskFolder(step)[0] == "one_off_tasks";
  }

  // ----- What the contract leaves room for -----

  /**
   * A container can come up on a broken entry script: with no bind mounts and only the write of the script
   * cut short, anywhere, Create replies Created.
   */
  method BrokenScriptUnnoticed(content: string, written: nat, clock: nat, temp: string, company: nat -> seq<Action>)
    returns (reply: Reply, site: Site)
    requires written < |content|
    ensures reply == Created && fresh(site) && site.content == content
    ensures site.started.Some? && site.started.value.script == Some(content[..written])
  {
    hide OfClient, FirstTasks;
    var answers := HostAnswers(true, _ => true, true, written, true);
    var interop := new ContainerInterop(0, Initial(clock));
    site := new Site(answers, content, interop, temp, company);
    InitialInv(clock);
    var around := Surroundings(_ => Answers(true, 0, true, 0, true, true), _ => _ => []);
    var quiet := (k: nat) => MountAnswers(Copy(true, 0, {}), true, around);
    reply := site.Create([], [], quiet);
  }

  /** One of the first n bind mounts is copied in a way that makes the folder `in`. */
  predicate SomeMakesIn(temp: string, mounts: seq<BindMount>, answers: nat -> MountAnswers, n: nat)
    requires n <= |mounts|
  {
    exists k :: 0 <= k < n && var entry := EntryOf(temp, FromIn(mounts[k].dst));
                              entry.Some? && MakesIn(entry.value, answers(k).copy)
  }

  /**
   * Preparing the share makes no folder `in`, which extract files are put into: it is there after the first n
   * bind mounts if and only if one of their copies makes it.
   */
  lemma {:induction false} InFolderComesFromCopies(temp: string, mounts: seq<BindMount>, answers: nat -> MountAnswers,
                                                   n: nat)
    requires IsTempName(temp) && n <= |mounts|
    ensures ["in"] !in REQUIRED_FOLDERS
    ensures ["in"] in FoldersCopied(temp, mounts, answers, n) <==> SomeMakesIn(temp, mounts, answers, n)
  {
    hide FoldersMade, EntryOf, FromIn, MakesIn, IsTempName;
    assert |["in"]| != |["out", "tasks"]|;
    if n > 0 {
      InFolderComesFromCopies(temp, mounts, answers, n - 1);
      InFolderMade(temp, mounts[n - 1].dst, answers(n - 1).copy);
    }
  }
}
