/** With no further publishing, the daemon runs what is pending, one task per iteration, in one fixed order. */
module Drain {
  import opened Wrappers
  import opened Tasks
  import opened Protocol
  import opened ProtocolInvariant
  import opened ProtocolPreserved

  // ----- What is still to be started -----

  function NotStarted(s: State, step: Step): seq<Tid> {
    var pub := s.queues.Get(step).published;
    if StartedCount(s, step) <= |pub| then pub[StartedCount(s, step)..] else []
  }

  function Entries(step: Step, tasks: seq<Tid>): (r: seq<Entry>)
    ensures |r| == |tasks| && forall k :: 0 <= k < |tasks| ==> r[k] == Entry(step, tasks[k])
  {
    seq(|tasks|, k requires 0 <= k < |tasks| => Entry(step, tasks[k]))
  }

  /** Pending stream-in tasks, then pending run tasks, then pending stream-out tasks, each in publication order. */
  function Todo(s: State): seq<Entry> {
    Entries(StreamIn, NotStarted(s, StreamIn)) + Entries(Run, NotStarted(s, Run))
    + Entries(StreamOut, NotStarted(s, StreamOut))
  }

  function Min(a: nat, b: nat): nat {
    if a <= b then a else b
  }

  /** The listings of this iteration are up to date: nothing was published since. */
  ghost predicate UpToDate(s: State) {
    && (s.daemon.pc.step != StreamIn && !Skips(s.daemon)
        ==> s.queues.streamIn.seen == |s.queues.streamIn.published|)
    && (s.daemon.pc.step == StreamOut && !Skips(s.daemon) ==> s.queues.run.seen == |s.queues.run.published|)
  }

  /** This iteration has started its one task. */
  predicate HasServed(s: State) {
    s.daemon.pc.Wait? || s.daemon.pc.Mv? || Skips(s.daemon)
  }

  /** Between state s0 and state s, n iterations were completed and the one under way did its share. */
  ghost predicate Drained(s0: State, s: State, n: nat) {
    && UpToDate(s)
    && s.log + Todo(s) == s0.log + Todo(s0)
    && (HasServed(s) ==> n < |Todo(s0)|)
    && |s.log| == |s0.log| + Min(if HasServed(s) then n + 1 else n, |Todo(s0)|)
  }

  /** The daemon's step ends an iteration. */
  predicate Wraps(s: State, s': State) {
    s.daemon.pc != Guard(StreamIn) && s'.daemon.pc == Guard(StreamIn)
  }

  lemma TodoUnchanged(s: State, s': State)
    requires forall step :: s'.queues.Get(step).published == s.queues.Get(step).published
    requires forall step :: StartedCount(s', step) == StartedCount(s, step)
    ensures Todo(s') == Todo(s)
  {
    assert NotStarted(s', StreamIn) == NotStarted(s, StreamIn) && NotStarted(s', Run) == NotStarted(s, Run);
    assert NotStarted(s', StreamOut) == NotStarted(s, StreamOut);
  }

  lemma DrainedQuietly(s0: State, s: State, s': State, n: nat)
    requires Drained(s0, s, n) && QuietStep(s, s')
    ensures Drained(s0, s', n) && !Wraps(s, s')
  {
    TodoUnchanged(s, s');
  }

  /** When the daemon has picked a task, no queue that comes earlier in the loop has anything to start. */
  lemma EarlierBlocksEmpty(s: State)
    requires s.daemon.pc.Exec? && DaemonOk(s) && UpToDate(s)
    ensures s.daemon.pc.step != StreamIn ==> Entries(StreamIn, NotStarted(s, StreamIn)) == []
    ensures s.daemon.pc.step == StreamOut ==> Entries(Run, NotStarted(s, Run)) == []
  {
  }

  lemma LineShortened(s: State, s': State)
    requires StartStep(s, s') && DaemonOk(s)
    ensures var step := s.daemon.pc.step;
            Entries(step, NotStarted(s, step))
            == [Entry(step, s.daemon.current.value)] + Entries(step, NotStarted(s', step))
    ensures forall other :: other != s.daemon.pc.step ==> NotStarted(s', other) == NotStarted(s, other)
  {
    hide NotStarted, DaemonOk, StartedCount;
    NotStartedShortened(s, s');
    FirstEntry(s.daemon.pc.step, s.daemon.current.value, NotStarted(s', s.daemon.pc.step));
  }

  lemma NotStartedShortened(s: State, s': State)
    requires StartStep(s, s') && DaemonOk(s)
    ensures var step := s.daemon.pc.step;
            NotStarted(s, step) == [s.daemon.current.value] + NotStarted(s', step)
    ensures forall other :: other != s.daemon.pc.step ==> NotStarted(s', other) == NotStarted(s, other)
  {
    var pub := s.queues.Get(s.daemon.pc.step).published;
    var k := StartedCount(s, s.daemon.pc.step);
    assert pub[k..] == [pub[k]] + pub[k + 1..];
  }

  lemma FirstEntry(step: Step, t: Tid, tasks: seq<Tid>)
    ensures Entries(step, [t] + tasks) == [Entry(step, t)] + Entries(step, tasks)
  {
  }

  /** The task being started is the first of what is to be done. */
  lemma StartTakesFirst(s: State, s': State)
    requires StartStep(s, s') && DaemonOk(s) && UpToDate(s)
    ensures Todo(s) == [Entry(s.daemon.pc.step, s.daemon.current.value)] + Todo(s')
  {
    hide NotStarted, DaemonOk, StartedCount, UpToDate, Entries;
    EarlierBlocksEmpty(s);
    LineShortened(s, s');
  }

  lemma DrainedByStart(s0: State, s: State, s': State, n: nat)
    requires Drained(s0, s, n) && StartStep(s, s') && DaemonOk(s)
    ensures Drained(s0, s', n) && !Wraps(s, s')
  {
    hide Todo, DaemonOk;
    StartTakesFirst(s, s');
    assert s'.log + Todo(s') == s.log + Todo(s);
    assert |s.log| + |Todo(s)| == |s.log + Todo(s)| == |s0.log + Todo(s0)|;
  }

  lemma DrainedByRetire(s0: State, s: State, s': State, n: nat)
    requires Drained(s0, s, n) && RetireStep(s, s') && DaemonOk(s)
    ensures Drained(s0, s', if Wraps(s, s') then n + 1 else n)
  {
    hide Todo;
    TodoUnchanged(s, s');
  }

  /** When the last listing comes back empty there is nothing left to do. */
  lemma NothingLeft(s: State, pick: Option<Tid>)
    requires DaemonEnabled(s, pick) && s.daemon.pc == Guard(StreamOut) && !Skips(s.daemon) && pick.None?
    requires pick == QueueHead(s.queues.streamOut) && DaemonOk(s) && UpToDate(s)
    ensures Todo(s) == []
  {
    assert NotStarted(s, StreamIn) == [] && NotStarted(s, Run) == [] && NotStarted(s, StreamOut) == [];
  }

  lemma UpToDateByList(s: State, pick: Option<Tid>)
    requires UpToDate(s) && DaemonEnabled(s, pick) && (s.daemon.pc.Guard? || s.daemon.pc.Wait?)
    ensures UpToDate(DaemonNext(s, pick))
  {
    hide IsHead;
  }

  lemma DrainedByList(s0: State, s: State, pick: Option<Tid>, n: nat)
    requires Drained(s0, s, n) && DaemonOk(s) && DaemonEnabled(s, pick) && (s.daemon.pc.Guard? || s.daemon.pc.Wait?)
    requires s.daemon.pc.Guard? && !Skips(s.daemon) ==> pick == QueueHead(s.queues.Get(s.daemon.pc.step))
    ensures Drained(s0, DaemonNext(s, pick), if Wraps(s, DaemonNext(s, pick)) then n + 1 else n)
  {
    hide IsHead, DaemonOk, UpToDate, Todo, QueueHead;
    var s' := DaemonNext(s, pick);
    ListDelta(s, pick);
    TodoUnchanged(s, s');
    UpToDateByList(s, pick);
    if s.daemon.pc == Guard(StreamOut) && !Skips(s.daemon) && pick.None? {
      NothingLeft(s, pick);
      assert |s.log| + |Todo(s)| == |s.log + Todo(s)| == |s0.log + Todo(s0)|;
    }
  }

  lemma DrainedInStep(s0: State, s: State, a: Action, n: nat)
    requires Inv(s) && Drained(s0, s, n) && Enabled(s, a) && !Publishes(s, a)
    ensures Drained(s0, Next(s, a), if Wraps(s, Next(s, a)) then n + 1 else n)
  {
    hide Drained, Wraps, ClientsOk, UuidsOk, ProcsOk, QueuesOk, DaemonOk, FilesOk, ProcEnabled, DaemonEnabled;
    match a
    case Spawn(c, prog) =>
      SpawnDelta(s, c, Client(prog, 0, Idle, false));
      DrainedQuietly(s0, s, Next(s, a), n);
    case ClientStep(c, upTo) =>
      WriteDelta(s, c, upTo);
      DrainedQuietly(s0, s, Next(s, a), n);
    case ClientFail(c) =>
      SpawnDelta(s, c, s.clients[c].(failed := true));
      DrainedQuietly(s0, s, Next(s, a), n);
    case ProcStep(t, event) =>
      ProcDelta(s, t, event);
      DrainedQuietly(s0, s, Next(s, a), n);
    case DaemonStep(pick) => DrainedByDaemon(s0, s, pick, n);
  }

  lemma DrainedByDaemon(s0: State, s: State, pick: Option<Tid>, n: nat)
    requires QueuesOk(s) && DaemonOk(s) && FilesOk(s) && Drained(s0, s, n) && DaemonEnabled(s, pick)
    ensures Drained(s0, DaemonNext(s, pick), if Wraps(s, DaemonNext(s, pick)) then n + 1 else n)
  {
    if s.daemon.pc.Exec? {
      StartDelta(s, pick);
      DrainedByStart(s0, s, DaemonNext(s, pick), n);
    } else if s.daemon.pc.Mv? {
      RetireDelta(s, pick);
      DrainedByRetire(s0, s, DaemonNext(s, pick), n);
    } else {
      assert QueueOk(s, s.daemon.pc.step) && TimesOk(s, s.daemon.pc.step);
      PickIsQueueHead(s, s.daemon.pc.step, pick);
      DrainedByList(s0, s, pick, n);
    }
  }

  // ----- Over a whole run -----

  predicate Unpublishing(e: Execution, i: nat, j: nat)
    requires i <= j < |e.states| == |e.actions| + 1
  {
    forall k :: i <= k < j ==> !Publishes(e.states[k], e.actions[k])
  }

  /** How many iterations of the loop end between two states. */
  function Iterations(e: Execution, i: nat, j: nat): nat
    requires i <= j < |e.states|
  {
    if i == j then 0
    else Iterations(e, i, j - 1) + if Wraps(e.states[j - 1], e.states[j]) then 1 else 0
  }

  lemma StepAt(e: Execution, k: nat)
    requires IsExecution(e) && k < |e.actions|
    ensures Enabled(e.states[k], e.actions[k]) && e.states[k + 1] == Next(e.states[k], e.actions[k])
  {
  }

  lemma DrainedAtHead(s: State)
    requires s.daemon.pc == Guard(StreamIn)
    ensures Drained(s, s, 0)
  {
  }

  lemma {:induction false} DrainedSince(e: Execution, i: nat, j: nat)
    requires IsExecution(e) && i <= j < |e.states| == |e.actions| + 1 && Unpublishing(e, i, j)
    requires e.states[i].daemon.pc == Guard(StreamIn)
    ensures Drained(e.states[i], e.states[j], Iterations(e, i, j))
    decreases j - i
  {
    hide IsExecution, Enabled, Next, Inv, Publishes, Drained, Wraps;
    if i == j {
      DrainedAtHead(e.states[i]);
    } else {
      DrainedSince(e, i, j - 1);
      StepAt(e, j - 1);
      ReachableInv(e, j - 1);
      DrainedInStep(e.states[i], e.states[j - 1], e.actions[j - 1], Iterations(e, i, j - 1));
    }
  }

  /**
   * Drain, in closed form: from the head of the loop, with no further publishing and however the scripts
   * and the clients interleave, n iterations start exactly the first n pending tasks, stream-in before run
   * before stream-out and each queue in publication order, and leave the rest pending.
   */
  lemma DrainClosedForm(e: Execution, i: nat, j: nat)
    requires IsExecution(e) && i <= j < |e.states| && Unpublishing(e, i, j)
    requires e.states[i].daemon.pc == Guard(StreamIn) && e.states[j].daemon.pc == Guard(StreamIn)
    ensures var m := Min(Iterations(e, i, j), |Todo(e.states[i])|);
            && e.states[j].log == e.states[i].log + Todo(e.states[i])[..m]
            && Todo(e.states[j]) == Todo(e.states[i])[m..]
  {
    hide Todo;
    DrainedSince(e, i, j);
    var s0, s := e.states[i], e.states[j];
    var m := Min(Iterations(e, i, j), |Todo(s0)|);
    var all := s0.log + Todo(s0);
    assert s.log == all[..|s0.log| + m] == s0.log + Todo(s0)[..m];
    assert Todo(s) == all[|s0.log| + m..] == Todo(s0)[m..];
  }
}
