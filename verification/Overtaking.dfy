/** The barrier is relative to the listing: a stream-in task can be overtaken by a run task published after it. */
module Overtaking {
  import opened Wrappers
  import opened Tasks
  import opened Naming
  import opened Protocol
  import opened ProtocolInvariant
  import opened ProtocolPreserved

  function Last(e: Execution): State
    requires e.states != []
  {
    e.states[|e.states| - 1]
  }

  function Extended(e: Execution, a: Action): Execution
    requires e.states != [] && Enabled(Last(e), a)
  {
    Execution(e.states + [Next(Last(e), a)], e.actions + [a])
  }

  lemma ExtendedIsExecution(e: Execution, a: Action)
    requires IsExecution(e) && Enabled(Last(e), a)
    ensures IsExecution(Extended(e, a)) && Last(Extended(e, a)) == Next(Last(e), a)
  {
    var e' := Extended(e, a);
    forall i | 0 <= i < |e'.actions|
      ensures Enabled(e'.states[i], e'.actions[i]) && e'.states[i + 1] == Next(e'.states[i], e'.actions[i])
    {
      if i < |e.actions| {
        assert e'.states[i] == e.states[i] && e'.states[i + 1] == e.states[i + 1];
      }
    }
  }

  /** Nothing but the share and one client differs. */
  predicate OnlyClientMoved(s: State, s': State, c: nat, cl: Client) {
    s' == s.(share := s'.share, clients := s.clients[c := cl])
  }

  predicate ReadyToSchedule(cl: Client) {
    !cl.failed && cl.pc == Idle && cl.next < |cl.prog| && cl.prog[cl.next].env != [] && cl.prog[cl.next].script != []
  }

  /** A client alone can always bring its next task to the point where only the rename is missing. */
  lemma ReadyToPublish(e: Execution, c: nat) returns (e': Execution)
    requires IsExecution(e) && c in Last(e).clients
    requires ReadyToSchedule(Last(e).clients[c])
    ensures IsExecution(e')
    ensures OnlyClientMoved(Last(e), Last(e'), c, Last(e).clients[c].(pc := TempClosed))
  {
    hide Enabled, Next, Initial;
    var job := Last(e).clients[c].prog[Last(e).clients[c].next];
    e' := StepClient(e, c, 0);
    e' := StepClient(e', c, |job.env|);
    e' := StepClient(e', c, |job.env|);
    e' := StepClient(e', c, 0);
    e' := StepClient(e', c, |job.script|);
    e' := StepClient(e', c, |job.script|);
  }

  lemma StepClient(e: Execution, c: nat, upTo: nat) returns (e': Execution)
    requires IsExecution(e) && ClientEnabled(Last(e), c, upTo) && !Last(e).clients[c].pc.TempClosed?
    ensures IsExecution(e') && Last(e') == ClientNext(Last(e), c, upTo)
    ensures OnlyClientMoved(Last(e), Last(e'), c, Last(e').clients[c])
    ensures Last(e').clients[c] == Last(e).clients[c].(pc := Last(e').clients[c].pc)
  {
    ExtendedIsExecution(e, ClientStep(c, upTo));
    e' := Extended(e, ClientStep(c, upTo));
  }

  lemma StepDaemon(e: Execution, pick: Option<Tid>) returns (e': Execution)
    requires IsExecution(e) && DaemonEnabled(Last(e), pick)
    ensures IsExecution(e') && Last(e') == DaemonNext(Last(e), pick)
    ensures e' == Extended(e, DaemonStep(pick))
  {
    ExtendedIsExecution(e, DaemonStep(pick));
    e' := Extended(e, DaemonStep(pick));
  }

  lemma Publish(e: Execution, c: nat) returns (e': Execution)
    requires IsExecution(e) && c in Last(e).clients
    requires var cl := Last(e).clients[c]; !cl.failed && cl.pc == TempClosed && cl.next < |cl.prog|
    ensures IsExecution(e') && PublishStep(Last(e), Last(e'), CurrentTask(Last(e), c))
    ensures ClientEnabled(Last(e), c, 0) && e' == Extended(e, ClientStep(c, 0))
    ensures Last(e').clients == Last(e).clients[c := Last(e').clients[c]]
  {
    ReachableInv(e, |e.states| - 1);
    assert Agrees(Last(e), Name(TempFile, CurrentTask(Last(e), c)));
    PublishDelta(Last(e), c, 0);
    ExtendedIsExecution(e, ClientStep(c, 0));
    e' := Extended(e, ClientStep(c, 0));
  }

  lemma TwoClients(first: Job, second: Job) returns (e: Execution)
    requires |first.uuid| == |second.uuid| == UUID_LENGTH && Apart(first, second)
    ensures IsExecution(e)
    ensures Last(e) == Initial(0).(
      clients := map[0 := Client([first], 0, Idle, false), 1 := Client([second], 0, Idle, false)])
  {
    e := Execution([Initial(0)], []);
    assert Unused(Last(e), first);
    ExtendedIsExecution(e, Spawn(0, [first]));
    e := Extended(e, Spawn(0, [first]));
    assert Unused(Last(e), second);
    ExtendedIsExecution(e, Spawn(1, [second]));
    e := Extended(e, Spawn(1, [second]));
  }

  lemma ListNothing(e: Execution) returns (e': Execution)
    requires IsExecution(e) && Last(e).daemon == Initial(0).daemon && Last(e).queues.streamIn == EMPTY_QUEUE
    ensures IsExecution(e')
    ensures Last(e') == Last(e).(daemon := Daemon(Guard(Run), None, true))
  {
    var s := Last(e);
    ReachableInv(e, |e.states| - 1);
    assert QueueOk(s, StreamIn) && TimesOk(s, StreamIn);
    PickIsQueueHead(s, StreamIn, None);
    e' := StepDaemon(e, None);
  }

  /** Two handlers that have each written their script, while the daemon has just found no stream-in task. */
  lemma BetweenListings(inJob: Job, runJob: Job) returns (e: Execution)
    requires inJob.step == StreamIn && runJob.step == Run
    requires |inJob.uuid| == |runJob.uuid| == UUID_LENGTH && Apart(inJob, runJob)
    requires inJob.env != [] && inJob.script != [] && runJob.env != [] && runJob.script != []
    ensures IsExecution(e)
    ensures Last(e).clients == map[0 := Client([inJob], 0, TempClosed, false), 1 := Client([runJob], 0, TempClosed, false)]
    ensures Last(e).daemon == Daemon(Guard(Run), None, true) && Last(e).procs == map[]
    ensures Last(e).queues == Initial(0).queues
  {
    e := TwoClients(inJob, runJob);
    e := ReadyToPublish(e, 0);
    e := ReadyToPublish(e, 1);
    e := ListNothing(e);
  }

  lemma RunTaskIsThere(s: State, t: Tid)
    requires Inv(s) && s.daemon == Daemon(Guard(Run), None, true) && s.queues.run == Queue([t], 0, 0)
    ensures IsHead(s, Run, Some(t)) && ScriptName(t) in s.share
  {
    hide IsHead, Listed, Glob;
    assert QueueOk(s, Run) && TimesOk(s, Run);
    PickIsQueueHead(s, Run, Some(t));
    assert Agrees(s, ScriptName(t)) && Published(s, t) && s.queues.Get(Run).published[0] == t;
  }

  /** From the run block with one task waiting, the daemon lists it and starts it. */
  lemma StartOnlyRunTask(e: Execution, t: Tid) returns (e': Execution)
    requires IsExecution(e) && Last(e).daemon == Daemon(Guard(Run), None, true)
    requires Last(e).queues.run == Queue([t], 0, 0)
    ensures IsExecution(e') && |e'.actions| == |e.actions| + 2
    ensures e.states <= e'.states && e.actions <= e'.actions
    ensures Last(e').clients == Last(e).clients && Last(e').procs == Last(e).procs[t := Proc(Launched, false)]
  {
    hide Enabled, Next, IsHead, Initial;
    var s := Last(e);
    ReachableInv(e, |e.states| - 1);
    RunTaskIsThere(s, t);
    var e1 := StepDaemon(e, Some(t));
    e' := StepDaemon(e1, None);
  }

  /**
   * The stronger barrier is false of the code: there is an execution in which stream-in task A is renamed
   * into place before run task B, and yet B is started while A has not been.
   */
  lemma LaterRunTaskStartsFirst(inJob: Job, runJob: Job) returns (e: Execution, p: nat)
    requires inJob.step == StreamIn && runJob.step == Run
    requires |inJob.uuid| == |runJob.uuid| == UUID_LENGTH && Apart(inJob, runJob)
    requires inJob.env != [] && inJob.script != [] && runJob.env != [] && runJob.script != []
    ensures IsExecution(e) && p + 4 == |e.actions|
    ensures Publishes(e.states[p], e.actions[p]) && CurrentTask(e.states[p], e.actions[p].client) == Tid(0, 0)
    ensures Publishes(e.states[p + 1], e.actions[p + 1])
    ensures CurrentTask(e.states[p + 1], e.actions[p + 1].client) == Tid(1, 0)
    ensures Known(Last(e), Tid(0, 0)) && JobOf(Last(e), Tid(0, 0)) == inJob
    ensures Known(Last(e), Tid(1, 0)) && JobOf(Last(e), Tid(1, 0)) == runJob
    ensures Tid(1, 0) in Last(e).procs && Tid(0, 0) !in Last(e).procs
  {
    e := BetweenListings(inJob, runJob);
    p := |e.actions|;
    var e1 := Publish(e, 0);
    var e2 := Publish(e1, 1);
    assert Last(e2).queues.run.published == [] + [Tid(1, 0)];
    e := StartOnlyRunTask(e2, Tid(1, 0));
    assert e.states[p] == e2.states[p] && e.states[p + 1] == e2.states[p + 1];
    assert e.actions[p] == e2.actions[p] && e.actions[p + 1] == e2.actions[p + 1];
  }
}
