/**
 * An expired wait lets StreamOut reply without an error although tar is still writing: the whole execution,
 * from the empty share on, and the handler's reply on it.
 */
module Truncation {
  import opened Wrappers
  import opened Tasks
  import opened Naming
  import opened Protocol
  import opened ProtocolInvariant
  import opened ProtocolPreserved
  import opened Overtaking
  import opened Polling
  import opened WaitLoops
  import opened StreamOut
  import opened Delivery
  import opened Programs
  import opened Dispatching

  const LOOP_HEAD := Daemon(Guard(Step.StreamIn), None, true)

  // ----- The daemon on one stream-out task -----

  /** Nothing waits in the first two queues, and t is the oldest that waits in the third. */
  predicate OnlyStreamOut(s: State, t: Tid) {
    && QueueHead(s.queues.streamIn) == None && QueueHead(s.queues.run) == None
    && QueueHead(s.queues.streamOut) == Some(t)
  }

  lemma PickEnabled(s: State)
    requires Inv(s) && s.daemon.pc.Guard?
    ensures DaemonEnabled(s, QueueHead(s.queues.Get(s.daemon.pc.step)))
  {
    hide IsHead, QueueHead;
    assert QueueOk(s, s.daemon.pc.step) && TimesOk(s, s.daemon.pc.step);
    PickIsQueueHead(s, s.daemon.pc.step, QueueHead(s.queues.Get(s.daemon.pc.step)));
  }

  lemma InvNow(e: Execution)
    requires IsExecution(e)
    ensures e.states != [] && Inv(Last(e))
  {
    ReachableInv(e, |e.states| - 1);
  }

  /** The daemon's own variables and what it has listed aside, nothing has changed. */
  predicate OnlyListed(s: State, s': State) {
    && s'.share == s.share && s'.clients == s.clients && s'.procs == s.procs && s'.log == s.log
    && forall step :: s'.queues.Get(step).published == s.queues.Get(step).published
                      && s'.queues.Get(step).retired == s.queues.Get(step).retired
  }

  lemma List(e: Execution) returns (e': Execution)
    requires IsExecution(e) && Last(e).daemon.pc.Guard? && !Skips(Last(e).daemon)
    ensures IsExecution(e') && OnlyListed(Last(e), Last(e'))
    ensures var (s, d) := (Last(e), Last(e).daemon);
            var pick := QueueHead(s.queues.Get(d.pc.step));
            Last(e').daemon == if pick.None? then Advance(d.(current := None, haveDone := true))
                               else Daemon(Exec(d.pc.step), pick, false)
  {
    InvNow(e);
    PickEnabled(Last(e));
    e' := StepDaemon(e, QueueHead(Last(e).queues.Get(Last(e).daemon.pc.step)));
  }

  /** From the loop head with only stream-out tasks waiting, the daemon comes to start the oldest. */
  lemma ReachTask(e: Execution, t: Tid) returns (e': Execution)
    requires IsExecution(e) && Last(e).daemon == LOOP_HEAD && OnlyStreamOut(Last(e), t)
    ensures IsExecution(e') && OnlyListed(Last(e), Last(e'))
    ensures Last(e').daemon == Daemon(Exec(Step.StreamOut), Some(t), false)
  {
    hide IsExecution;
    e' := List(e);
    e' := List(e');
    e' := List(e');
  }

  lemma StartTask(e: Execution, t: Tid) returns (e': Execution)
    requires IsExecution(e) && Last(e).daemon == LOOP_HEAD && OnlyStreamOut(Last(e), t)
    ensures IsExecution(e')
    ensures Last(e').clients == Last(e).clients && Last(e').procs == Last(e).procs[t := Proc(Launched, false)]
    ensures Last(e').daemon == Daemon(Wait(Step.StreamOut), Some(t), false) && t !in Last(e).procs
    ensures Name(ArchiveFile, t) !in Last(e').share
    ensures forall step :: Last(e').queues.Get(step).published == Last(e).queues.Get(step).published
                           && Last(e').queues.Get(step).retired == Last(e).queues.Get(step).retired
  {
    hide IsExecution;
    var e1 := ReachTask(e, t);
    InvNow(e1);
    Held(Last(e1));
    e' := StepDaemon(e1, None);
  }

  /** The script in hand is on the share, and before its start it has no archive. */
  lemma Held(s: State)
    requires Inv(s) && !s.daemon.pc.Guard?
    ensures s.daemon.current.Some? && ScriptName(s.daemon.current.value) in s.share
    ensures s.daemon.pc.Exec? ==>
      s.daemon.current.value !in s.procs && Name(ArchiveFile, s.daemon.current.value) !in s.share
  {
    var t := s.daemon.current.value;
    var q := s.queues.Get(s.daemon.pc.step);
    assert QueueOk(s, s.daemon.pc.step) && q.published[q.retired] == t && Published(s, t);
    assert Agrees(s, ScriptName(t));
  }

  lemma StepProc(e: Execution, t: Tid, event: ProcEvent) returns (e': Execution)
    requires IsExecution(e) && ProcEnabled(Last(e), t, event)
    ensures IsExecution(e') && Last(e') == ProcNext(Last(e), t, event)
  {
    ExtendedIsExecution(e, ProcStep(t, event));
    e' := Extended(e, ProcStep(t, event));
  }

  /** A script that was just started runs to its last line; nothing else moves. */
  lemma FinishScript(e: Execution, t: Tid) returns (e': Execution)
    requires IsExecution(e) && t in Last(e).procs && Last(e).procs[t] == Proc(Launched, false)
    ensures IsExecution(e') && Last(e').procs == Last(e).procs[t := Proc(Complete(1, 0), false)]
    ensures Last(e').clients == Last(e).clients && Last(e').queues == Last(e).queues && Last(e').daemon == Last(e).daemon
  {
    hide IsExecution;
    e' := StepProc(e, t, MakePid(1));
    e' := StepProc(e', t, WritePid);
    e' := StepProc(e', t, Return(0));
    e' := StepProc(e', t, MakeExit);
    e' := StepProc(e', t, WriteExit);
  }

  /** The daemon serves one stream-out task from the loop head back to the loop head. */
  lemma ServeTask(e: Execution, t: Tid) returns (e': Execution)
    requires IsExecution(e) && Last(e).daemon == LOOP_HEAD && OnlyStreamOut(Last(e), t)
    ensures IsExecution(e') && Last(e').daemon == LOOP_HEAD && Last(e').clients == Last(e).clients
    ensures forall step :: Last(e').queues.Get(step).published == Last(e).queues.Get(step).published
                           && Last(e').queues.Get(step).retired
                              == Last(e).queues.Get(step).retired + if step == Step.StreamOut then 1 else 0
  {
    hide IsExecution;
    var e1 := StartTask(e, t);
    var e2 := FinishScript(e1, t);
    var e3 := StepDaemon(e2, None);
    InvNow(e3);
    Held(Last(e3));
    e' := StepDaemon(e3, None);
  }

  // ----- The dispatch -----

  /** Client 0 alone schedules its next stream-out task. */
  lemma ScheduleOne(e: Execution) returns (e': Execution)
    requires IsExecution(e) && 0 in Last(e).clients && ReadyToSchedule(Last(e).clients[0])
    requires Last(e).clients[0].prog[Last(e).clients[0].next].step == Step.StreamOut
    ensures IsExecution(e') && 0 in Last(e').clients
    ensures var cl := Last(e).clients[0]; Last(e').clients[0] == cl.(next := cl.next + 1)
    ensures Last(e').daemon == Last(e).daemon
    ensures var q := Last(e).queues.streamOut;
            Last(e').queues == Last(e).queues.(
              streamOut := q.(published := q.published + [Tid(0, Last(e).clients[0].next)]))
  {
    hide IsExecution;
    var e1 := ReadyToPublish(e, 0);
    e' := Publish(e1, 0);
  }

  /** Both tasks of the dispatch are in place and the daemon is at the head of its loop. */
  lemma BothScheduled(prog: seq<Job>) returns (e: Execution)
    requires |prog| == 2 && SpawnEnabled(Initial(0), 0, prog)
    requires forall k :: 0 <= k < 2 ==> prog[k].step == Step.StreamOut && prog[k].env != "" && prog[k].script != ""
    ensures IsExecution(e) && Last(e).daemon == LOOP_HEAD
    ensures 0 in Last(e).clients && Last(e).clients[0] == Client(prog, 2, Idle, false)
    ensures Last(e).queues == Queues(EMPTY_QUEUE, EMPTY_QUEUE, Queue([Tid(0, 0), Tid(0, 1)], 0, 0))
  {
    e := Execution([Initial(0)], []);
    ExtendedIsExecution(e, Spawn(0, prog));
    e := Extended(e, Spawn(0, prog));
    e := ScheduleOne(e);
    e := ScheduleOne(e);
    assert [] + [Tid(0, 0)] + [Tid(0, 1)] == [Tid(0, 0), Tid(0, 1)];
  }

  lemma SecondIsNext(s: State, first: Tid, second: Tid)
    requires s.queues.Get(Step.StreamIn).published == [] && s.queues.Get(Run).published == []
    requires s.queues.Get(Step.StreamOut).published == [first, second] && s.queues.Get(Step.StreamOut).retired == 1
    ensures OnlyStreamOut(s, second)
  {
  }

  /**
   * An execution that ends with two outputs of tar: the mkdir task has run, tar was started, and it has put
   * down a first part and then the rest.
   */
  lemma TarWritesTwice(prog: seq<Job>, part: string, rest: string) returns (e: Execution)
    requires |prog| == 2 && SpawnEnabled(Initial(0), 0, prog)
    requires forall k :: 0 <= k < 2 ==> prog[k].step == Step.StreamOut && prog[k].env != "" && prog[k].script != ""
    requires prog[1].archive != "" && rest != ""
    ensures IsExecution(e) && |e.states| >= 2
    ensures var before := e.states[|e.states| - 2];
            && Known(before, Tid(0, 1)) && JobOf(before, Tid(0, 1)) == prog[1]
            && Tid(0, 1) in before.procs && before.procs[Tid(0, 1)] == Proc(Launched, false)
            && Name(ArchiveFile, Tid(0, 1)) in before.share && ArchiveContent(before, Tid(0, 1)) == part
            && ArchiveContent(Last(e), Tid(0, 1)) == part + rest
  {
    hide IsExecution, SpawnEnabled;
    var t := Tid(0, 1);
    e := BothScheduled(prog);
    e := ServeTask(e, Tid(0, 0));
    InvNow(e);
    SecondIsNext(Last(e), Tid(0, 0), t);
    e := StartTask(e, t);
    InvNow(e);
    var e1 := StepProc(e, t, Emit(part));
    assert "" + part == part;
    InvNow(e1);
    e := MoreEmitted(e1, t, rest);
  }

  // ----- The reply -----

  /** The jobs of a stream-out dispatch satisfy what the execution above needs. */
  lemma StreamOutJobs(path: string, user: string, fileId: string, draws: Draws)
    requires |draws| == 2 && fileId != "" && draws[0].1 != draws[1].1
    requires |draws[0].1| == |draws[1].1| == UUID_LENGTH
    ensures var prog := StreamOutProgram(path, user, fileId, draws);
            && SpawnEnabled(Initial(0), 0, prog) && prog[1].archive == fileId
            && forall k :: 0 <= k < 2 ==> prog[k].step == Step.StreamOut && prog[k].env != "" && prog[k].script != ""
  {
    hide Compiled, StreamOutTasks;
    var tasks := StreamOutTasks(path, user, fileId);
    CompiledFields(tasks[0], Step.StreamOut, draws[0].0, draws[0].1, "");
    CompiledFields(tasks[1], Step.StreamOut, draws[1].0, draws[1].1, fileId);
  }

  lemma NotExitedYet(e: Execution, a: nat, t: Tid)
    requires IsExecution(e) && a < |e.states| && t in e.states[a].procs && e.states[a].procs[t].phase.Launched?
    ensures PollTask(e.states[a], e.states[a], t, Access(true, true)) == Poll(NOT_EXITED, false)
  {
    PollIsSound(e, a, a, t, Access(true, true));
    ReachableInv(e, a);
    ExitFileSays(e.states[a], t);
  }

  /**
   * For every path, user and ids there is an execution from the empty share, with a state in which tar has
   * written a first part, such that: all 31 polls that WaitForTaskExit makes there find no exit, so it
   * expires; the handler, making those polls and reading the archive there, replies without an error; and
   * what it has sent is only that part, while the execution goes on to a longer archive.
   */
  method TruncatedReply(path: string, user: string, fileId: string, draws: Draws, part: string, rest: string)
    returns (waited: Waited, reply: Reply, chunks: seq<string>, trace: seq<Event>, ghost e: Execution, ghost a: nat)
    requires |draws| == 2 && fileId != "" && draws[0].1 != draws[1].1 && rest != ""
    requires |draws[0].1| == |draws[1].1| == UUID_LENGTH
    ensures IsExecution(e) && a + 2 == |e.states|
    ensures Known(e.states[a], Tid(0, 1))
            && JobOf(e.states[a], Tid(0, 1)) == StreamOutProgram(path, user, fileId, draws)[1]
    ensures PollTask(e.states[a], e.states[a], Tid(0, 1), Access(true, true)) == Poll(NOT_EXITED, false)
    ensures waited == Expired && reply == Ended
    ensures trace == [Mounted(true), FileOpened(fileId, true), FileClosed, Unmounted]
    ensures Name(ArchiveFile, Tid(0, 1)) in e.states[a].share
    ensures Flatten(chunks) == ArchiveContent(e.states[a], Tid(0, 1)) == part
    ensures ArchiveContent(Last(e), Tid(0, 1)) == part + rest != Flatten(chunks)
  {
    hide IsExecution, Copied, Flatten, StreamOutProgram, SpawnEnabled;
    var prog := StreamOutProgram(path, user, fileId, draws);
    StreamOutJobs(path, user, fileId, draws);
    e := TarWritesTwice(prog, part, rest);
    a := |e.states| - 2;
    NotExitedYet(e, a, Tid(0, 1));
    var polls := (k: nat) => Poll(NOT_EXITED, false);
    var counted, slept;
    waited, counted, slept := WaitForTaskExit(polls);
    var rounds := seq(|part| + 1, _ => Round(part, 1, false, SendOk));
    OneByOneSendsAll(part);
    reply, chunks, trace := Handle(true, Some((prog[1].Id(), fileId)), _ => polls, _ => true, rounds);
    assert |part + rest| > |part|;
  }
}
