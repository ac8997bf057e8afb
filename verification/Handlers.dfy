/** The two streaming handlers on the running protocol: what they dispatch, wait for and read there. */
module Handlers {
  import opened Wrappers
  import opened Tasks
  import opened Decimal
  import opened Naming
  import opened ShellLexer
  import opened Paths
  import opened SharePaths
  import opened Protocol
  import opened ProtocolInvariant
  import opened Runs
  import opened Ordering
  import opened Polling
  import opened WaitLoops
  import opened Overtaking
  import opened Interop
  import opened Dispatching
  import opened Delivery
  import opened Programs
  import opened Startup
  import In = StreamIn
  import Out = StreamOut

  // ----- StreamIn -----

  /** The handler comes to the dispatch. */
  predicate Extracts(host: In.Host, parts: seq<In.Part>, end: In.End) {
    && end == In.Eof && In.Undisturbed(host, parts) && In.Introduced(parts)
    && host.prepared.Some? && host.prepared.value != ""
  }

  /** os.Create can only work in a folder that is there. */
  predicate CanCreate(root: string, folders: set<seq<string>>, path: string) {
    var entry := EntryBelow(root, path);
    entry.Some? && entry.value != [] && (|entry.value| == 1 || entry.value[..|entry.value| - 1] in folders)
  }

  /** PrepareExtractFile: the name of the file, if it could be created. */
  function PrepareExtractFile(temp: string, folders: set<seq<string>>, works: bool, id: string): Option<string> {
    var root := MountedPath(temp);
    if works && CanCreate(root, folders, ExtractFile(root, ExtractName(id))) then Some(ExtractName(id)) else None
  }

  lemma {:induction false} ExtractNameIsEntry(id: string)
    requires IsUuid(id)
    ensures IsEntryName(ExtractName(id)) && AllPlain(ExtractName(id))
  {
    assert forall i :: 0 <= i < |id| ==> IsUuidChar(id[i]);
  }

  /** The extract file can be created if and only if there is a folder `in`. */
  lemma {:induction false} PrepareNeedsInFolder(temp: string, folders: set<seq<string>>, works: bool, id: string)
    requires IsTempName(temp) && IsUuid(id)
    ensures PrepareExtractFile(temp, folders, works, id)
            == if works && ["in"] in folders then Some(ExtractName(id)) else None
  {
    hide EntryBelow, ExtractFile, IsTempName, IsUuid, IsEntryName, AllPlain, ExtractName;
    ExtractNameIsEntry(id);
    ExtractFilesAgree(temp, ExtractName(id));
    assert ["in", ExtractName(id)][..1] == ["in"];
  }

  /** What it dispatches then: the file it was given, to the last path, for the last user. */
  function Extraction(id: string, parts: seq<In.Part>, draws: Draws): (prog: seq<Job>)
    requires |draws| == 3
    ensures |prog| == 3
  {
    ExtractProgram(ExtractName(id), In.LastPath(parts), In.LastUser(parts), draws)
  }

  lemma {:induction false} ExtractionIsStreamIn(id: string, parts: seq<In.Part>, draws: Draws)
    requires |draws| == 3
    ensures forall k :: 0 <= k < 3 ==> Extraction(id, parts, draws)[k].step == Step.StreamIn
  {
  }

  /** Whether the handler dispatches does not depend on how the dispatch turns out. */
  lemma {:induction false} ExtractsAnyway(host: In.Host, ok: bool, parts: seq<In.Part>, end: In.End)
    ensures Extracts(host.(dispatchOk := ok), parts, end) <==> Extracts(host, parts, end)
  {
    hide In.Introduced, In.Contents;
    assert forall k :: 0 <= k < |parts| ==>
      (In.ContentOk(host.(dispatchOk := ok), parts, k) <==> In.ContentOk(host, parts, k));
  }

  lemma {:induction false} ReplyOfExtraction(host: In.Host, parts: seq<In.Part>, end: In.End)
    requires Extracts(host, parts, end)
    ensures host.prepared.Some?
    ensures In.Handled(host, parts, end).0 == if host.dispatchOk then In.Replied else In.DispatchFailed
  {
    hide In.Handled, In.Undisturbed, In.Introduced;
    In.DispatchExact(host, parts, end);
  }

  /** A handler that does not come to the dispatch. */
  lemma {:induction false} WithoutExtraction(host: In.Host, ok: bool, parts: seq<In.Part>, end: In.End)
    requires !Extracts(host, parts, end)
    ensures In.Handled(host.(dispatchOk := ok), parts, end) == In.Handled(host, parts, end)
    ensures In.Handled(host, parts, end).0 != In.DispatchFailed
  {
    hide In.Undisturbed, In.Introduced, In.After;
    In.LoopBeforeDispatch(host, ok, parts);
    In.DispatchFailedExact(host, parts, end);
    In.AfterExact(host, parts);
  }

  /** What a share lends to a handler: where it is mounted, its folders, and whether its operations work. */
  datatype Share = Share(mountOk: bool, temp: string, folders: set<seq<string>>, createOk: bool, writeOk: nat -> bool)

  /** StreamIn's host on this share, with the uuid drawn for the extract file. */
  function HostOn(share: Share, id: string, dispatchOk: bool): In.Host {
    In.Host(share.mountOk, PrepareExtractFile(share.temp, share.folders, share.createOk, id), share.writeOk, dispatchOk)
  }

  /**
   * StreamIn with the dispatch really made: if the handler comes to it, of mkdir, chmod and tar exactly those
   * before the first failure end up in the stream-in queue, in that order, whatever others publish meanwhile,
   * and the client is answered "ok" exactly if all three do; if it does not, nothing at all is published.
   */
  method StreamInOnShare(i: ContainerInterop, share: Share, id: string, parts: seq<In.Part>, end: In.End, draws: Draws,
                         around: Surroundings)
    returns (reply: In.Reply, trace: seq<In.Event>)
    requires Inv(i.s) && |draws| == 3 && SpawnEnabled(i.s, i.client, Extraction(id, parts, draws))
    modifies i
    ensures Inv(i.s) && Later(old(i.s), i.s)
    ensures var n := Succeeding(around.answers, Extraction(id, parts, draws), 0);
            var host := HostOn(share, id, n == 3);
            && (reply, trace) == In.Handled(host, parts, end)
            && (Extracts(host, parts, end) ==>
                  && i.client in i.s.clients && i.s.clients[i.client].prog == Extraction(id, parts, draws)
                  && OfClient(i.s.queues.streamIn.published, i.client) == FirstTasks(i.client, n)
                  && reply == if n == 3 then In.Replied else In.DispatchFailed)
            && (!Extracts(host, parts, end) ==> i.s == old(i.s) && reply != In.DispatchFailed)
  {
    hide Inv, Later, SpawnEnabled, Extracts, In.Handled, Succeeds, ExtractProgram, OfClient, FirstTasks, Faces;
    hide CanCreate, ExtractName;
    ghost var s0 := i.s;
    LaterReflexive(s0);
    var host := HostOn(share, id, false);
    ExtractsAnyway(host, true, parts, end);
    if Extracts(host, parts, end) {
      ReplyOfExtraction(host, parts, end);
      Begin(i, Extraction(id, parts, draws));
      ghost var s1 := i.s;
      var taskId := DispatchExtractFileTask(i, host.prepared.value, In.LastPath(parts), In.LastUser(parts), draws, around);
      LaterTransitive(s0, s1, i.s);
      ExtractionIsStreamIn(id, parts, draws);
      OwnTasksInQueue(i.s, Step.StreamIn, i.client);
      host := host.(dispatchOk := taskId.Some?);
      ReplyOfExtraction(host, parts, end);
    } else {
      WithoutExtraction(host, true, parts, end);
    }
    reply, trace := In.StreamIn(host, parts, end);
  }

  /**
   * Without an extract file the handler fails exactly if content is sent; otherwise it does nothing and
   * answers "ok" at the end of the messages.
   */
  lemma {:induction false} WithoutExtractFile(host: In.Host, parts: seq<In.Part>, end: In.End)
    requires host.mountOk && host.prepared.None?
    ensures In.Handled(host, parts, end).0
            == if In.Contents(parts) != [] then In.NoFilePrepared
               else if end == In.RecvError then In.RecvFailed else In.Replied
  {
    hide In.Introduced, In.Handled, In.Contents;
    if In.Contents(parts) == [] {
      NoContentParts(parts);
      In.RecvFailedExact(host, parts, end);
      In.RepliedExact(host, parts, end);
    } else {
      var k := FirstContent(parts);
      assert forall j :: 0 <= j < k ==> parts[..k][j] == parts[j];
      assert In.Undisturbed(host, parts[..k]);
      assert !In.ContentOk(host, parts[..k + 1], k);
      In.FailureExact(host, parts, end, k);
    }
  }

  lemma {:induction false} NoContentParts(parts: seq<In.Part>)
    ensures In.Contents(parts) == [] <==> forall k :: 0 <= k < |parts| ==> !parts[k].ContentPart?
  {
    if parts != [] {
      var p := parts[..|parts| - 1];
      NoContentParts(p);
      assert forall k :: 0 <= k < |p| ==> p[k] == parts[k];
    }
  }

  lemma {:induction false} FirstContent(parts: seq<In.Part>) returns (k: nat)
    requires In.Contents(parts) != []
    ensures k < |parts| && parts[k].ContentPart? && forall j :: 0 <= j < k ==> !parts[j].ContentPart?
  {
    hide In.Contents;
    NoContentParts(parts);
    k := 0;
    while !parts[k].ContentPart?
      invariant k < |parts| && forall j :: 0 <= j < k ==> !parts[j].ContentPart?
      decreases |parts| - k
    {
      k := k + 1;
    }
  }

  /**
   * Create, and then a StreamIn on the share as it has been left: the extract file can be created if and only
   * if a bind mount that was tried has made the folder `in`. Without one, a client that sends content is told
   * that there is no file, and one that sends none that all is well.
   */
  method StreamInAfterCreate(site: Site, mounts: seq<BindMount>, draws: seq<Draws>, mountAnswers: nat -> MountAnswers,
                             works: bool, writeOk: nat -> bool, dispatchOk: bool, id: string, parts: seq<In.Part>,
                             end: In.End)
    returns (created: Startup.Reply, prepared: Option<string>, reply: In.Reply, trace: seq<In.Event>)
    requires Inv(site.interop.s) && DrawsFit(mounts, draws) && site.done == [] && site.started.None?
    requires SpawnEnabled(site.interop.s, site.interop.client, MountProgram(mounts, draws))
    requires site.folders == {} && IsTempName(site.temp) && IsUuid(id)
    modifies site, site.interop
    ensures created == Created ==> site.started.Some?
    ensures prepared == PrepareExtractFile(site.temp, site.folders, works, id)
    ensures site.started.Some? ==>
      (prepared.Some? <==> works && SomeMakesIn(site.temp, mounts, mountAnswers, Tried(mounts, draws, mountAnswers)))
    ensures (reply, trace) == In.Handled(In.Host(true, prepared, writeOk, dispatchOk), parts, end)
    ensures prepared.None? ==>
      reply == if In.Contents(parts) != [] then In.NoFilePrepared
               else if end == In.RecvError then In.RecvFailed else In.Replied
  {
    hide Inv, Later, SpawnEnabled, MountProgram, FirstStopped, TasksPublished, FoldersCopied, SomeMakesIn, Tried, Through;
    hide OfClient, FirstTasks, InOrder, In.Handled, In.Contents, PrepareExtractFile, IsTempName, IsUuid, Prepared;
    created := site.Create(mounts, draws, mountAnswers);
    prepared := PrepareExtractFile(site.temp, site.folders, works, id);
    PrepareNeedsInFolder(site.temp, site.folders, works, id);
    InFolderComesFromCopies(site.temp, mounts, mountAnswers, Tried(mounts, draws, mountAnswers));
    var host := In.Host(true, prepared, writeOk, dispatchOk);
    if prepared.None? {
      WithoutExtractFile(host, parts, end);
    }
    reply, trace := In.StreamIn(host, parts, end);
  }

  // ----- Run and Signal -----

  /** The process that a client asks for. */
  datatype ProcessSpec = ProcessSpec(path: string, args: seq<string>, env: seq<string>, user: string)

  datatype RunReply = Accepted(id: string) | Refused

  lemma {:induction false} RunStep(task: RunTask, draws: Draws)
    requires |draws| == 1
    ensures RunProgram(task, draws)[0].step == Step.Run
  {
  }

  /** A handler whose one dispatch is DispatchRunTask: afterwards its client has that task in the run queue or nothing. */
  method DispatchAlone(i: ContainerInterop, task: RunTask, draws: Draws, around: Surroundings) returns (id: Option<string>)
    requires Inv(i.s) && |draws| == 1 && SpawnEnabled(i.s, i.client, RunProgram(task, draws))
    modifies i
    ensures Inv(i.s) && Later(old(i.s), i.s)
    ensures i.client in i.s.clients && i.s.clients[i.client].prog == RunProgram(task, draws)
    ensures OfClient(i.s.queues.run.published, i.client) == if id.Some? then [Tid(i.client, 0)] else []
    ensures id.Some? ==> id == Some(task.tag + "_" + draws[0].1)
    ensures id.Some? <==> Succeeds(around.answers(0), RunProgram(task, draws)[0])
  {
    hide Inv, Later, SpawnEnabled, Succeeds, Faces, AddedTo, OfClient, Compiled;
    ghost var s0 := i.s;
    Begin(i, RunProgram(task, draws));
    ghost var s1 := i.s;
    id := DispatchRunTask(i, task, draws, around);
    LaterTransitive(s0, s1, i.s);
    RunStep(task, draws);
    OwnTasksInQueue(i.s, Step.Run, i.client);
    CompiledFields(task, Step.Run, draws[0].0, draws[0].1, "");
    assert FirstTasks(i.client, 1) == [Tid(i.client, 0)] && FirstTasks(i.client, 0) == [];
  }

  /** The Run handler. */
  method RunOnShare(i: ContainerInterop, mountOk: bool, spec: ProcessSpec, draws: Draws, around: Surroundings)
    returns (reply: RunReply)
    requires Inv(i.s) && |draws| == 1
    requires SpawnEnabled(i.s, i.client, RunProgram(RunTask(spec.user, spec.env, spec.path, spec.args, "run"), draws))
    modifies i
    ensures Inv(i.s) && Later(old(i.s), i.s)
    ensures !mountOk ==> reply == Refused && i.s == old(i.s)
    ensures mountOk ==>
      var task := RunTask(spec.user, spec.env, spec.path, spec.args, "run");
      && i.client in i.s.clients && i.s.clients[i.client].prog == RunProgram(task, draws)
      && OfClient(i.s.queues.run.published, i.client) == (if reply.Accepted? then [Tid(i.client, 0)] else [])
      && (reply.Accepted? ==> reply.id == "run_" + draws[0].1)
      && (reply.Accepted? <==> Succeeds(around.answers(0), RunProgram(task, draws)[0]))
  {
    hide Inv, Later, SpawnEnabled, Succeeds, OfClient, RunProgram;
    LaterReflexive(i.s);
    if !mountOk {
      return Refused;
    }
    var id := DispatchAlone(i, RunTask(spec.user, spec.env, spec.path, spec.args, "run"), draws, around);
    assert "run" + "_" + draws[0].1 == "run_" + draws[0].1;
    return if id.Some? then Accepted(id.value) else Refused;
  }

  /**
   * The Signal handler, given what stat and read say of the pid file; its reply is an error on every way out. A kill
   * task is dispatched only if the file holds a number.
   */
  method SignalOnShare(i: ContainerInterop, mountOk: bool, found: bool, read: Option<string>, signal: int, draws: Draws,
                       around: Surroundings)
    returns (dispatched: bool)
    requires Inv(i.s) && |draws| == 1
    requires GetProcessId(found, read).Some? ==>
      SpawnEnabled(i.s, i.client, RunProgram(KillTask(signal, GetProcessId(found, read).value), draws))
    modifies i
    ensures Inv(i.s) && Later(old(i.s), i.s)
    ensures !mountOk || !found || read.None? || ReadNumber(read.value).None? ==> !dispatched && i.s == old(i.s)
    ensures mountOk && found && read.Some? && ReadNumber(read.value).Some? ==>
      var task := KillTask(signal, ReadNumber(read.value).value);
      && i.client in i.s.clients && i.s.clients[i.client].prog == RunProgram(task, draws)
      && OfClient(i.s.queues.run.published, i.client) == (if dispatched then [Tid(i.client, 0)] else [])
      && (dispatched <==> Succeeds(around.answers(0), RunProgram(task, draws)[0]))
  {
    hide Inv, Later, SpawnEnabled, Succeeds, OfClient, RunProgram, ReadNumber, KillTask;
    LaterReflexive(i.s);
    if !mountOk {
      return false;
    }
    var pid := GetProcessId(found, read);
    if pid.None? {
      return false;
    }
    var id := DispatchAlone(i, KillTask(signal, pid.value), draws, around);
    return id.Some?;
  }

  // ----- StreamOut -----

  /** The polls of a wait, up to the one that decides it, and the reads that follow it, on one execution. */
  datatype Timeline = Timeline(polls: seq<Poll>, statAt: seq<nat>, pollAt: seq<nat>, access: seq<Access>, readAt: seq<nat>)

  /** All of it happens on the execution in the order of the handler; the file was opened, so the archive is there. */
  ghost predicate Happens(e: Execution, t: Tid, poll: nat -> Poll, rounds: seq<Out.Round>, l: Timeline) {
    var k := FirstDecisive(poll, 0);
    && |l.polls| == (if k < 31 then k + 1 else 31)
    && (forall j :: 0 <= j < |l.polls| ==> l.polls[j] == poll(j))
    && PollsOf(e, t, l.polls, l.statAt, l.pollAt, l.access)
    && Out.ReadsArchive(e, t, rounds, l.readAt, l.pollAt[|l.polls| - 1])
    && (forall j :: 0 <= j < |rounds| ==> Name(ArchiveFile, t) in e.states[l.readAt[j]].share)
  }

  /** These jobs are the whole program of client c. */
  predicate DispatchedBy(s: State, c: nat, prog: seq<Job>) {
    c in s.clients && s.clients[c].prog == prog
  }

  lemma {:induction false} StreamOutSteps(path: string, user: string, fileId: string, draws: Draws)
    requires |draws| == 2
    ensures forall k :: 0 <= k < 2 ==> StreamOutProgram(path, user, fileId, draws)[k].step == Step.StreamOut
  {
  }

  /** The command of the task has returned. */
  predicate CommandReturned(s: State, t: Tid) {
    && t in s.procs
    && var phase := s.procs[t].phase;
    phase.Returned? || phase.ExitOpen? || phase.Complete?
  }

  /** A wait that saw the exit: tar and before it mkdir are through, and what a complete copy sends is the archive. */
  lemma {:induction false} AfterExit(e: Execution, c: nat, prog: seq<Job>, poll: nat -> Poll, rounds: seq<Out.Round>,
                                     l: Timeline, m: nat)
    requires IsExecution(e) && Happens(e, Tid(c, 1), poll, rounds, l) && FirstDecisive(poll, 0) < 31 && !Out.WaitFails(poll)
    requires |prog| == 2 && prog[0].step == Step.StreamOut && prog[1].step == Step.StreamOut
    requires var w := l.pollAt[|l.polls| - 1]; w <= m < |e.states| && DispatchedBy(e.states[w], c, prog)
    ensures CommandReturned(e.states[m], Tid(c, 1))
    ensures var s, mkdir := e.states[l.pollAt[|l.polls| - 1]], Tid(c, 0);
            Retired(s, mkdir) && Finished(s.procs[mkdir]) && Reported(s, mkdir)
    ensures Out.Copied(rounds, 0).1 == Out.ReachedEof ==>
      Out.Flatten(Out.Copied(rounds, 0).0) == ArchiveContent(e.states[m], Tid(c, 1))
  {
    hide IsExecution, Out.Copied, Out.Flatten, Out.ReadsArchive;
    var k := |l.polls| - 1;
    ExitMeansArchiveFinal(e, l.statAt[k], l.pollAt[k], m, Tid(c, 1), l.access[k]);
    Out.ArchiveDelivered(e, Tid(c, 1), l.statAt[k], l.pollAt[k], l.access[k], rounds, l.readAt, m);
  }

  /**
   * StreamOut on an execution, whose states its polls and then its reads see. If it replies without an error
   * and the copy loop has come to the end of the file, what was sent is the archive for good if and only if tar
   * had returned by the last read. If the wait saw the exit, tar had, mkdir had before it was started, and what
   * was sent is the archive of every later state; an expired wait promises nothing of this.
   */
  method StreamOutOnShare(ghost e: Execution, ghost l: Timeline, c: nat, path: string, user: string, fileId: string,
                          draws: Draws, mountOk: bool, poll: nat -> Poll, opens: bool, rounds: seq<Out.Round>)
    returns (reply: Out.Reply, chunks: seq<string>, trace: seq<Out.Event>)
    requires IsExecution(e) && |draws| == 2 && Happens(e, Tid(c, 1), poll, rounds, l)
    requires DispatchedBy(e.states[l.pollAt[|l.polls| - 1]], c, StreamOutProgram(path, user, fileId, draws))
    ensures (chunks, reply) ==
      if Out.WaitFails(poll) || !opens then ([], Out.Failed)
      else
        var (copied, outcome) := Out.Copied(rounds, 0);
        (copied, if outcome == Out.StillCopying then Out.Unfinished
                 else if outcome == Out.ReachedEof || outcome == Out.SendEofSeen then Out.Ended else Out.Failed)
    ensures reply == Out.Ended && Out.Copied(rounds, 0).1 == Out.ReachedEof ==>
      && |chunks| < |rounds| && l.readAt[|chunks|] < |e.states|
      && var m, t := l.readAt[|chunks|], Tid(c, 1);
      && ((forall e' :: Out.GoesOn(e, m, e') ==> ArchiveContent(Last(e'), t) == Out.Flatten(chunks))
          <==> CommandReturned(e.states[m], t))
      && (FirstDecisive(poll, 0) < 31 ==> CommandReturned(e.states[m], t))
    ensures !Out.WaitFails(poll) && FirstDecisive(poll, 0) < 31 ==>
      var w, mkdir := l.pollAt[|l.polls| - 1], Tid(c, 0);
      && Retired(e.states[w], mkdir) && Finished(e.states[w].procs[mkdir]) && Reported(e.states[w], mkdir)
      && (reply == Out.Ended && Out.Copied(rounds, 0).1 == Out.ReachedEof ==>
            forall m :: w <= m < |e.states| ==> Out.Flatten(chunks) == ArchiveContent(e.states[m], Tid(c, 1)))
  {
    hide IsExecution, Out.Copied, Out.Flatten, Happens, DispatchedBy, Out.WaitFails, Out.GoesOn, CommandReturned;
    hide StreamOutProgram;
    var prog := StreamOutProgram(path, user, fileId, draws);
    StreamOutSteps(path, user, fileId, draws);
    reply, chunks, trace := Out.Handle(mountOk, Some((prog[1].Id(), fileId)), _ => poll, _ => opens, rounds);
    LastPollThere(e, Tid(c, 1), poll, rounds, l);
    ghost var w := l.pollAt[|l.polls| - 1];
    ghost var complete := reply == Out.Ended && Out.Copied(rounds, 0).1 == Out.ReachedEof;
    if complete {
      ForGood(e, Tid(c, 1), poll, rounds, l);
    }
    if !Out.WaitFails(poll) && FirstDecisive(poll, 0) < 31 {
      AfterExit(e, c, prog, poll, rounds, l, w);
      forall m | w <= m < |e.states|
        ensures CommandReturned(e.states[m], Tid(c, 1))
        ensures complete ==> Out.Flatten(chunks) == ArchiveContent(e.states[m], Tid(c, 1))
      {
        AfterExit(e, c, prog, poll, rounds, l, m);
      }
    }
  }

  lemma {:induction false} LastPollThere(e: Execution, t: Tid, poll: nat -> Poll, rounds: seq<Out.Round>, l: Timeline)
    requires Happens(e, t, poll, rounds, l)
    ensures 0 < |l.polls| == |l.pollAt| && l.pollAt[|l.polls| - 1] < |e.states|
    ensures |l.readAt| == |rounds|
    ensures forall k :: 0 <= k < |rounds| ==> l.pollAt[|l.polls| - 1] <= l.readAt[k] < |e.states|
  {
  }

  lemma {:induction false} ForGood(e: Execution, t: Tid, poll: nat -> Poll, rounds: seq<Out.Round>, l: Timeline)
    requires IsExecution(e) && Happens(e, t, poll, rounds, l) && Out.Copied(rounds, 0).1 == Out.ReachedEof
    ensures |Out.Copied(rounds, 0).0| < |rounds| == |l.readAt|
    ensures var chunks := Out.Copied(rounds, 0).0;
            var m := l.readAt[|chunks|];
            && m < |e.states|
            && ((forall e' :: Out.GoesOn(e, m, e') ==> ArchiveContent(Last(e'), t) == Out.Flatten(chunks))
                <==> CommandReturned(e.states[m], t))
  {
    hide IsExecution, Out.Copied, Out.Flatten, Out.GoesOn;
    Out.RoundsUsed(rounds, 0);
    Out.DeliveredForGood(e, t, rounds, l.readAt);
  }
}
