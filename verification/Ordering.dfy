/** Who runs before whom: the barrier between queues, order inside one dispatch, and at most one run each. */
module Ordering {
  import opened Wrappers
  import opened Decimal
  import opened Tasks
  import opened Naming
  import opened Protocol
  import opened ProtocolInvariant
  import opened ProtocolPreserved
  import opened Runs

  // ----- The barrier -----

  /** The daemon lists the folder of this queue. */
  predicate Lists(s: State, a: Action, step: Step) {
    a.DaemonStep? && s.daemon.pc == Guard(step) && !Skips(s.daemon)
  }

  /** Action i is the last listing of the queue before state j. */
  predicate LastListing(e: Execution, i: nat, j: nat, step: Step)
    requires |e.states| == |e.actions| + 1
  {
    && i < j < |e.states|
    && Lists(e.states[i], e.actions[i], step)
    && forall k :: i < k < j ==> !Lists(e.states[k], e.actions[k], step)
  }

  /** The queue's block comes earlier in the loop body. */
  predicate Precedes(first: Step, later: Step) {
    (first == StreamIn && later != StreamIn) || (first == Run && later == StreamOut)
  }

  lemma SeenKept(s: State, a: Action, step: Step)
    requires Enabled(s, a) && !Lists(s, a, step)
    ensures Next(s, a).queues.Get(step).seen == s.queues.Get(step).seen
  {
    hide IsHead, SpawnEnabled, Glob, NameLess;
  }

  lemma ListingSees(s: State, a: Action, step: Step)
    requires Enabled(s, a) && Lists(s, a, step)
    ensures Next(s, a).queues.Get(step).seen == |s.queues.Get(step).published|
  {
    hide IsHead, Glob, NameLess;
  }

  lemma {:induction false} SeenSince(e: Execution, i: nat, j: nat, step: Step)
    requires IsExecution(e) && LastListing(e, i, j, step)
    ensures e.states[j].queues.Get(step).seen == |e.states[i].queues.Get(step).published|
    decreases j
  {
    hide Enabled, Next, Initial;
    if j > i + 1 {
      SeenSince(e, i, j - 1, step);
      SeenKept(e.states[j - 1], e.actions[j - 1], step);
    } else {
      ListingSees(e.states[i], e.actions[i], step);
    }
  }

  /** The script ended on its own and its exit file holds its status, or it died on the way. */
  predicate Reported(s: State, t: Tid) {
    && t in s.procs
    && (s.procs[t].dead
        || (s.procs[t].phase.Complete?
            && Name(ExitFile, t) in s.share
            && s.share[Name(ExitFile, t)].content == EchoLine(s.procs[t].phase.code)))
  }

  lemma FinishedReports(s: State, t: Tid)
    requires FilesOk(s) && ProcsOk(s) && t in s.procs && Finished(s.procs[t])
    ensures Reported(s, t)
  {
    assert Agrees(s, Name(ExitFile, t)) && Published(s, t);
  }

  /** Of a published task the share shows exactly one of the two script names. */
  lemma StageShown(s: State, t: Tid)
    requires FilesOk(s) && Published(s, t)
    ensures ScriptName(t) in s.share <==> !Retired(s, t)
    ensures Name(ExecutedFile, t) in s.share <==> Retired(s, t)
  {
    assert Agrees(s, ScriptName(t)) && Agrees(s, Name(ExecutedFile, t));
  }

  /** A queue that is settled divides its tasks: those seen are retired, the others have not been started. */
  lemma SettledDivides(s: State, step: Step, k: nat)
    requires QueueOk(s, step) && QueueOk(s, s.daemon.pc.step) && DaemonOk(s) && FilesOk(s) && ProcsOk(s)
    requires Settled(s, step) && k < |s.queues.Get(step).published| && s.daemon.pc.step != step
    ensures var t := s.queues.Get(step).published[k];
            if k < s.queues.Get(step).seen
            then Retired(s, t) && Name(ExecutedFile, t) in s.share && ScriptName(t) !in s.share
                 && (Foreground(step) ==> Finished(s.procs[t]) && Reported(s, t))
            else t !in s.procs && ScriptName(t) in s.share
  {
    var t := s.queues.Get(step).published[k];
    RetiredIsPrefix(s, step, k);
    StageShown(s, t);
    if k < s.queues.Get(step).seen && Foreground(step) {
      FinishedReports(s, t);
    }
  }

  /**
   * The barrier. When the daemon starts a script of a later queue, a task of an earlier queue has run
   * (and, in the foreground queues, finished and reported) if and only if it was in place at this
   * iteration's listing of its queue; a task renamed into place after that listing has not been started,
   * even if it was published before the one that starts now.
   */
  lemma Barrier(e: Execution, i: nat, j: nat, first: Step, t: Tid)
    requires IsExecution(e) && j < |e.actions| && LastListing(e, i, j, first)
    requires e.actions[j].DaemonStep? && e.states[j].daemon.pc.Exec?
    requires Precedes(first, e.states[j].daemon.pc.step)
    requires Published(e.states[j], t) && JobOf(e.states[j], t).step == first
    ensures var s := e.states[j];
            if Published(e.states[i], t)
            then Retired(s, t) && Name(ExecutedFile, t) in s.share && ScriptName(t) !in s.share
                 && (Foreground(first) ==> Finished(s.procs[t]) && Reported(s, t))
            else t !in s.procs && ScriptName(t) in s.share
  {
    hide Enabled, Next, FilesOk, ProcsOk, Reported, ProgressOk, TimesOk, LogOk;
    var s, s0 := e.states[j], e.states[i];
    ReachableInv(e, i);
    ReachableInv(e, j);
    Monotone(e, i, j);
    SeenSince(e, i, j, first);
    assert QueueOk(s, first) && QueueOk(s0, first) && QueueOk(s, s.daemon.pc.step);
    var k := IndexOf(s, first, t);
    var pub, pub0 := s.queues.Get(first).published, s0.queues.Get(first).published;
    forall m | 0 <= m < |pub0| ensures pub[m] == pub0[m] && Published(s0, pub[m]) {
    }
    if Published(s0, t) {
      var k0 := IndexOf(s0, first, t);
    }
    SettledDivides(s, first, k);
  }

  // ----- The history variables -----

  /** The scripts that the actions so far have renamed into place in this queue, in that order. */
  function RenamedIntoPlace(e: Execution, i: nat, step: Step): seq<Tid>
    requires i < |e.states| == |e.actions| + 1
  {
    if i == 0 then [] else
    var s, a := e.states[i - 1], e.actions[i - 1];
    RenamedIntoPlace(e, i - 1, step) +
    if Publishes(s, a) && s.clients[a.client].next < |s.clients[a.client].prog|
       && s.clients[a.client].prog[s.clients[a.client].next].step == step
    then [CurrentTask(s, a.client)] else []
  }

  /** The scripts that the daemon's actions so far have started, in that order. */
  function StartedSoFar(e: Execution, i: nat): seq<Entry>
    requires i < |e.states| == |e.actions| + 1
  {
    if i == 0 then [] else
    var s, a := e.states[i - 1], e.actions[i - 1];
    StartedSoFar(e, i - 1) +
    if a.DaemonStep? && s.daemon.pc.Exec? && s.daemon.current.Some?
    then [Entry(s.daemon.pc.step, s.daemon.current.value)] else []
  }

  lemma HistoryByClient(s: State, c: nat, upTo: nat, step: Step)
    requires ClientEnabled(s, c, upTo)
    ensures ClientNext(s, c, upTo).log == s.log
    ensures ClientNext(s, c, upTo).queues.Get(step).published == s.queues.Get(step).published +
      if s.clients[c].pc.TempClosed? && s.clients[c].prog[s.clients[c].next].step == step
      then [CurrentTask(s, c)] else []
  {
  }

  lemma HistoryByDaemon(s: State, pick: Option<Tid>, step: Step)
    requires DaemonEnabled(s, pick)
    ensures DaemonNext(s, pick).queues.Get(step).published == s.queues.Get(step).published
    ensures DaemonNext(s, pick).log == s.log +
      if s.daemon.pc.Exec? then [Entry(s.daemon.pc.step, s.daemon.current.value)] else []
  {
    hide IsHead;
  }

  lemma HistoryKept(s: State, a: Action, step: Step)
    requires Enabled(s, a)
    ensures Next(s, a).queues.Get(step).published == s.queues.Get(step).published +
      if Publishes(s, a) && s.clients[a.client].prog[s.clients[a.client].next].step == step
      then [CurrentTask(s, a.client)] else []
    ensures Next(s, a).log == s.log +
      if a.DaemonStep? && s.daemon.pc.Exec? then [Entry(s.daemon.pc.step, s.daemon.current.value)] else []
  {
    hide IsHead, SpawnEnabled, ClientNext, DaemonNext;
    match a
    case ClientStep(c, upTo) => HistoryByClient(s, c, upTo, step);
    case DaemonStep(pick) => HistoryByDaemon(s, pick, step);
    case _ =>
  }

  /** The history variable is what the actions have renamed into place. */
  lemma {:induction false} PublishedIsRenamed(e: Execution, i: nat, step: Step)
    requires IsExecution(e) && i < |e.states|
    ensures e.states[i].queues.Get(step).published == RenamedIntoPlace(e, i, step)
  {
    hide Enabled, Next, Initial;
    if i > 0 {
      PublishedIsRenamed(e, i - 1, step);
      HistoryKept(e.states[i - 1], e.actions[i - 1], step);
      CurrentWhenStarting(e.states[i - 1], e.actions[i - 1]);
    } else {
      StartsEmpty(e, step);
    }
  }

  /** The log is what the daemon's actions have started. */
  lemma {:induction false} LogIsStarted(e: Execution, i: nat)
    requires IsExecution(e) && i < |e.states|
    ensures e.states[i].log == StartedSoFar(e, i)
  {
    hide Enabled, Next, Initial;
    if i > 0 {
      LogIsStarted(e, i - 1);
      HistoryKept(e.states[i - 1], e.actions[i - 1], StreamIn);
      CurrentWhenStarting(e.states[i - 1], e.actions[i - 1]);
    } else {
      StartsEmpty(e, StreamIn);
    }
  }

  lemma LogInv(s: State, step: Step)
    requires Inv(s)
    ensures Filter(s.log, step) <= s.queues.Get(step).published
  {
    assert LogOk(s, step);
  }

  /** Each queue's executed sequence is a prefix of its published sequence, both read off the actions alone. */
  lemma {:induction false} ExecutedIsPrefixOfPublished(e: Execution, i: nat, step: Step)
    requires IsExecution(e) && i < |e.states|
    ensures e.states[i].queues.Get(step).published == RenamedIntoPlace(e, i, step)
    ensures e.states[i].log == StartedSoFar(e, i)
    ensures Filter(StartedSoFar(e, i), step) <= RenamedIntoPlace(e, i, step)
  {
    hide IsExecution, RenamedIntoPlace, StartedSoFar, Filter, Inv;
    ReachableInv(e, i);
    PublishedIsRenamed(e, i, step);
    LogIsStarted(e, i);
    LogInv(e.states[i], step);
  }

  lemma StartsEmpty(e: Execution, step: Step)
    requires IsExecution(e)
    ensures e.states[0].queues.Get(step).published == [] && e.states[0].log == []
  {
  }

  /** What an action needs in order to publish or to start is there. */
  lemma CurrentWhenStarting(s: State, a: Action)
    requires Enabled(s, a)
    ensures Publishes(s, a) ==> s.clients[a.client].next < |s.clients[a.client].prog|
    ensures a.DaemonStep? && s.daemon.pc.Exec? ==> s.daemon.current.Some?
  {
  }

  // ----- One dispatch -----

  /** Publishing the later task of a dispatch means that every earlier one was published first. */
  lemma EarlierPublishedFirst(s: State, t1: Tid, t2: Tid) returns (j: nat, k: nat)
    requires Inv(s) && t1.client == t2.client && t1.index < t2.index && Published(s, t2)
    ensures Published(s, t1)
    ensures JobOf(s, t1).step == JobOf(s, t2).step ==>
      var pub := s.queues.Get(JobOf(s, t1).step).published;
      j < k < |pub| && pub[j] == t1 && pub[k] == t2
  {
    var step := JobOf(s, t1).step;
    assert QueueOk(s, step);
    if JobOf(s, t2).step == step {
      j := IndexOf(s, step, t1);
      k := IndexOf(s, step, t2);
    } else {
      j, k := 0, 0;
    }
  }

  /**
   * Ordered dispatch under concurrency: whatever other clients do, once a task has been started, every
   * earlier task of the same dispatch in the same queue has been started and retired; in the foreground
   * queues it has also finished and reported.
   */
  lemma DispatchInOrder(e: Execution, i: nat, t1: Tid, t2: Tid)
    requires IsExecution(e) && i < |e.states|
    requires t1.client == t2.client && t1.index < t2.index && t2 in e.states[i].procs
    requires Known(e.states[i], t1) && Known(e.states[i], t2)
    requires JobOf(e.states[i], t1).step == JobOf(e.states[i], t2).step
    ensures var s := e.states[i];
            && Retired(s, t1)
            && (Foreground(JobOf(s, t1).step) ==> Finished(s.procs[t1]) && Reported(s, t1))
  {
    var s := e.states[i];
    ReachableInv(e, i);
    var step := JobOf(s, t1).step;
    assert QueueOk(s, step) && QueueOk(s, s.daemon.pc.step) && Published(s, t2);
    var j, k := EarlierPublishedFirst(s, t1, t2);
    RetiredIsPrefix(s, step, j);
    if Foreground(step) {
      FinishedReports(s, t1);
    }
  }

  /** The tasks of one client in a queue, in the queue's order. */
  function OfClient(tasks: seq<Tid>, c: nat): seq<Tid> {
    if tasks == [] then []
    else
      var last := tasks[|tasks| - 1];
      OfClient(tasks[..|tasks| - 1], c) + if last.client == c then [last] else []
  }

  function FirstTasks(c: nat, n: nat): seq<Tid> {
    seq(n, k requires 0 <= k < n => Tid(c, k))
  }

  /** Within each client the indices increase along the queue. */
  ghost predicate IndicesIncrease(tasks: seq<Tid>) {
    forall j, k :: 0 <= j < k < |tasks| && tasks[j].client == tasks[k].client ==> tasks[j].index < tasks[k].index
  }

  lemma {:induction false} OfClientFacts(tasks: seq<Tid>, c: nat)
    requires IndicesIncrease(tasks)
    ensures forall t :: t in OfClient(tasks, c) <==> t in tasks && t.client == c
    ensures IndicesIncrease(OfClient(tasks, c))
  {
    if tasks != [] {
      var init, last := tasks[..|tasks| - 1], tasks[|tasks| - 1];
      OfClientFacts(init, c);
      assert tasks == init + [last];
      var own := OfClient(init, c);
      forall k | 0 <= k < |own| && last.client == c ensures own[k].index < last.index {
        assert own[k] in own;
      }
    }
  }

  lemma EmptyOrMember(own: seq<Tid>)
    ensures own == [] || exists t :: t in own
  {
    assert own != [] ==> own[0] in own;
  }

  /** The first n tasks of the client and no other, in some order. */
  ghost predicate AreFirst(own: seq<Tid>, c: nat, n: nat) {
    forall t :: t in own <==> t.client == c && t.index < n
  }

  lemma {:induction false} GreatestIsLast(own: seq<Tid>, c: nat, n: nat)
    requires IndicesIncrease(own) && AreFirst(own, c, n) && n > 0
    ensures own != [] && own[|own| - 1] == Tid(c, n - 1)
  {
    assert Tid(c, n - 1) in own;
    var j :| 0 <= j < |own| && own[j] == Tid(c, n - 1);
    assert own[|own| - 1] in own;
  }

  lemma {:induction false} WithoutGreatest(own: seq<Tid>, c: nat, n: nat)
    requires IndicesIncrease(own) && AreFirst(own, c, n) && n > 0 && own != [] && own[|own| - 1] == Tid(c, n - 1)
    ensures IndicesIncrease(own[..|own| - 1]) && AreFirst(own[..|own| - 1], c, n - 1)
  {
    var init, last := own[..|own| - 1], Tid(c, n - 1);
    assert own == init + [last];
    assert forall k :: 0 <= k < |init| ==> init[k] == own[k] && own[k] in own && init[k] != last;
    assert forall t :: t in own <==> t in init || t == last;
  }

  lemma {:induction false} IncreasingFills(own: seq<Tid>, c: nat, n: nat)
    requires IndicesIncrease(own) && AreFirst(own, c, n)
    ensures own == FirstTasks(c, n)
  {
    if n == 0 {
      EmptyOrMember(own);
    } else {
      GreatestIsLast(own, c, n);
      WithoutGreatest(own, c, n);
      IncreasingFills(own[..|own| - 1], c, n - 1);
      assert own == own[..|own| - 1] + [Tid(c, n - 1)];
    }
  }

  /**
   * A client whose tasks all go to one queue has there exactly the tasks it has published, in the order of its
   * program, whatever stands between them.
   */
  lemma OwnTasksInQueue(s: State, step: Step, c: nat)
    requires Inv(s) && c in s.clients
    requires forall k :: 0 <= k < |s.clients[c].prog| ==> s.clients[c].prog[k].step == step
    ensures OfClient(s.queues.Get(step).published, c) == FirstTasks(c, s.clients[c].next)
  {
    var pub := s.queues.Get(step).published;
    assert QueueOk(s, step) && ClientOk(s.clients[c]);
    OfClientFacts(pub, c);
    forall t ensures t in OfClient(pub, c) <==> t.client == c && t.index < s.clients[c].next {
      if t.client == c && t.index < s.clients[c].next {
        assert Published(s, t) && JobOf(s, t).step == step;
      }
    }
    IncreasingFills(OfClient(pub, c), c, s.clients[c].next);
  }

  /** Of the first n tasks of a program, those that go to this queue. */
  function OwnOf(prog: seq<Job>, c: nat, step: Step, n: nat): seq<Tid>
    requires n <= |prog|
  {
    if n == 0 then [] else OwnOf(prog, c, step, n - 1) + if prog[n - 1].step == step then [Tid(c, n - 1)] else []
  }

  lemma {:induction false} OwnOfFacts(prog: seq<Job>, c: nat, step: Step, n: nat)
    requires n <= |prog|
    ensures forall t :: t in OwnOf(prog, c, step, n) <==> t.client == c && t.index < n && prog[t.index].step == step
    ensures IndicesIncrease(OwnOf(prog, c, step, n))
  {
    if n > 0 {
      OwnOfFacts(prog, c, step, n - 1);
      var own := OwnOf(prog, c, step, n - 1);
      assert forall k :: 0 <= k < |own| ==> own[k] in own && own[k].index < n - 1;
    }
  }

  lemma {:induction false} LastIsGreatest(own: seq<Tid>, c: nat, t: Tid)
    requires IndicesIncrease(own) && (forall u :: u in own ==> u.client == c) && t in own
    ensures own != [] && t.index <= own[|own| - 1].index && (t.index == own[|own| - 1].index ==> t == own[|own| - 1])
  {
    var j :| 0 <= j < |own| && own[j] == t;
    assert own[|own| - 1] in own;
  }

  lemma {:induction false} WithoutLast(own: seq<Tid>, c: nat)
    requires IndicesIncrease(own) && (forall u :: u in own ==> u.client == c) && own != []
    ensures var init := own[..|own| - 1];
            IndicesIncrease(init) && forall u :: u in init <==> u in own && u != own[|own| - 1]
  {
    var init := own[..|own| - 1];
    assert own == init + [own[|own| - 1]];
    assert forall k :: 0 <= k < |init| ==> init[k] == own[k] && own[k] in own && own[|own| - 1] in own;
  }

  /** Tasks of one client in increasing order are determined by which they are. */
  lemma {:induction false} IncreasingUnique(a: seq<Tid>, b: seq<Tid>, c: nat)
    requires IndicesIncrease(a) && IndicesIncrease(b) && (forall u :: u in a ==> u.client == c)
    requires forall u :: u in a <==> u in b
    ensures a == b
    decreases |a|
  {
    if a == [] {
      EmptyOrMember(b);
    } else {
      assert a[|a| - 1] in a;
      LastIsGreatest(b, c, a[|a| - 1]);
      assert b[|b| - 1] in b;
      LastIsGreatest(a, c, b[|b| - 1]);
      WithoutLast(a, c);
      WithoutLast(b, c);
      IncreasingUnique(a[..|a| - 1], b[..|b| - 1], c);
      assert a == a[..|a| - 1] + [a[|a| - 1]] && b == b[..|b| - 1] + [b[|b| - 1]];
    }
  }

  /**
   * What a client has in a queue is, in the order of its program, exactly those of the tasks it has published that
   * go there, whatever stands between them.
   */
  lemma OwnTasksByStep(s: State, step: Step, c: nat)
    requires Inv(s) && c in s.clients
    ensures s.clients[c].next <= |s.clients[c].prog|
    ensures OfClient(s.queues.Get(step).published, c) == OwnOf(s.clients[c].prog, c, step, s.clients[c].next)
  {
    var pub, cl := s.queues.Get(step).published, s.clients[c];
    assert QueueOk(s, step) && ClientOk(cl);
    OfClientFacts(pub, c);
    OwnOfFacts(cl.prog, c, step, cl.next);
    forall t ensures t in OfClient(pub, c) <==> t in OwnOf(cl.prog, c, step, cl.next) {
      if t in OwnOf(cl.prog, c, step, cl.next) {
        assert Published(s, t) && JobOf(s, t).step == step;
      }
      if t in OfClient(pub, c) {
        assert Published(s, t) && JobOf(s, t).step == step;
      }
    }
    IncreasingUnique(OfClient(pub, c), OwnOf(cl.prog, c, step, cl.next), c);
  }

  /** n tasks of the client from this one on. */
  function TasksFrom(c: nat, first: nat, n: nat): seq<Tid> {
    seq(n, k requires 0 <= k < n => Tid(c, first + k))
  }

  lemma {:induction false} OwnOfMore(prog: seq<Job>, c: nat, step: Step, target: Step, first: nat, n: nat)
    requires first + n <= |prog| && forall k :: first <= k < first + n ==> prog[k].step == target
    ensures OwnOf(prog, c, step, first + n)
            == OwnOf(prog, c, step, first) + if step == target then TasksFrom(c, first, n) else []
  {
    if n > 0 {
      OwnOfMore(prog, c, step, target, first, n - 1);
      assert TasksFrom(c, first, n) == TasksFrom(c, first, n - 1) + [Tid(c, first + n - 1)];
    }
  }

  /** Every queue holds of this client what it held, and the next n tasks stand behind that in the target queue. */
  predicate AddedTo(s: State, s': State, c: nat, target: Step, n: nat)
    requires c in s.clients
  {
    forall step :: OfClient(s'.queues.Get(step).published, c)
                   == OfClient(s.queues.Get(step).published, c)
                      + if step == target then TasksFrom(c, s.clients[c].next, n) else []
  }

  lemma {:induction false} NextTasksAdded(s: State, s': State, c: nat, target: Step, n: nat)
    requires Inv(s) && Inv(s') && c in s.clients && c in s'.clients
    requires s'.clients[c].prog == s.clients[c].prog && s'.clients[c].next == s.clients[c].next + n
    requires s.clients[c].next + n <= |s.clients[c].prog|
    requires forall k :: s.clients[c].next <= k < s.clients[c].next + n ==> s.clients[c].prog[k].step == target
    ensures AddedTo(s, s', c, target, n)
  {
    hide Inv, OwnOf, OfClient, TasksFrom;
    forall step ensures OfClient(s'.queues.Get(step).published, c)
                        == OfClient(s.queues.Get(step).published, c)
                           + if step == target then TasksFrom(c, s.clients[c].next, n) else []
    {
      OwnTasksByStep(s, step, c);
      OwnTasksByStep(s', step, c);
      OwnOfMore(s.clients[c].prog, c, step, target, s.clients[c].next, n);
    }
  }

  // ----- What is waited for -----

  /**
   * The daemon does not wait for run scripts: whenever it has one in hand, it can retire it at once, whatever the
   * script is doing. With a script of the other two queues in hand it goes on from its wait exactly when that script
   * has come to its end.
   */
  lemma RunIsNotWaitedFor(e: Execution, i: nat, t: Tid)
    requires IsExecution(e) && i < |e.states| && InHand(e.states[i], t)
    ensures var s := e.states[i];
            && Known(s, t) && t in s.procs
            && (JobOf(s, t).step == Step.Run ==>
                  DaemonEnabled(s, None) && Retired(DaemonNext(s, None), t) && DaemonNext(s, None).daemon.pc.Guard?)
            && (JobOf(s, t).step != Step.Run && s.daemon.pc.Wait? ==>
                  forall pick :: DaemonEnabled(s, pick) <==> Finished(s.procs[t]))
  {
    hide IsExecution, IsHead;
    ReachableInv(e, i);
    var s := e.states[i];
    var q := s.queues.Get(s.daemon.pc.step);
    assert QueueOk(s, s.daemon.pc.step) && q.published[q.retired] == t;
    assert Agrees(s, ScriptName(t));
  }

  // ----- At most one run each -----

  /** No task is ever started twice. */
  lemma StartedOnce(e: Execution, i: nat, j: nat)
    requires IsExecution(e) && i < j < |e.actions|
    requires e.actions[i].DaemonStep? && e.states[i].daemon.pc.Exec?
    requires e.actions[j].DaemonStep? && e.states[j].daemon.pc.Exec?
    ensures e.states[i].daemon.current.Some? && e.states[j].daemon.current.Some?
    ensures e.states[i].daemon.current != e.states[j].daemon.current
  {
    ReachableInv(e, i);
    ReachableInv(e, j);
    Monotone(e, i + 1, j);
    var s := e.states[j];
    assert QueueOk(s, s.daemon.pc.step);
    assert s.daemon.current.value !in s.procs;
    assert e.states[i].daemon.current.value in e.states[i + 1].procs;
  }

  /** The stages a task goes through. */
  datatype Stage = Unpublished | InPlace | BeingServed | Executed

  function StageOf(s: State, t: Tid): Stage {
    if !Published(s, t) then Unpublished
    else if t !in s.procs then InPlace
    else if InHand(s, t) then BeingServed
    else Executed
  }

  /** The share shows the stage: which of its two names a script carries, and nothing before publication. */
  lemma ShareShowsStage(e: Execution, i: nat, t: Tid)
    requires IsExecution(e) && i < |e.states|
    ensures var s := e.states[i];
            && (ScriptName(t) in s.share <==> StageOf(s, t) == InPlace || StageOf(s, t) == BeingServed)
            && (Name(ExecutedFile, t) in s.share <==> StageOf(s, t) == Executed)
  {
    var s := e.states[i];
    ReachableInv(e, i);
    assert Agrees(s, ScriptName(t)) && Agrees(s, Name(ExecutedFile, t));
    assert t in s.procs ==> Published(s, t);
    if !Known(s, t) {
      assert !Retired(s, t);
    }
  }

  /** In each queue the executed tasks come first, then at most one in service, then those that wait: none is lost. */
  lemma StagesConserved(e: Execution, i: nat, step: Step, k: nat)
    requires IsExecution(e) && i < |e.states| && k < |e.states[i].queues.Get(step).published|
    ensures var s := e.states[i];
            var q := s.queues.Get(step);
            && q.retired <= StartedCount(s, step) <= q.retired + 1
            && StageOf(s, q.published[k]) == if k < q.retired then Executed
                                             else if k < StartedCount(s, step) then BeingServed
                                             else InPlace
  {
    var s := e.states[i];
    ReachableInv(e, i);
    assert QueueOk(s, step) && QueueOk(s, s.daemon.pc.step);
    RetiredIsPrefix(s, step, k);
  }

  // ----- Publication -----

  /**
   * Publish atomicity: whatever name the daemon's glob matches is a script with its complete text, its env
   * file is there and complete, and both belong to this queue. So half-written files are never picked.
   */
  lemma PublishAtomic(e: Execution, i: nat, step: Step, n: Name)
    requires IsExecution(e) && i < |e.states| && Listed(e.states[i], step, n)
    ensures var s := e.states[i];
            && n.kind == ScriptFile && Published(s, n.task) && JobOf(s, n.task).step == step
            && s.share[n].content == JobOf(s, n.task).script
            && Name(EnvFile, n.task) in s.share
            && s.share[Name(EnvFile, n.task)].content == JobOf(s, n.task).env
  {
    var s := e.states[i];
    ReachableInv(e, i);
    ListedIsScript(s, step, n);
    assert Agrees(s, n) && Agrees(s, Name(EnvFile, n.task));
  }

  /** The daemon only ever starts complete scripts with complete env files. */
  lemma StartsCompleteScripts(e: Execution, i: nat)
    requires IsExecution(e) && i < |e.actions|
    requires e.actions[i].DaemonStep? && e.states[i].daemon.pc.Exec?
    ensures e.states[i].daemon.current.Some?
    ensures var s, t := e.states[i], e.states[i].daemon.current.value;
            && Published(s, t) && ScriptName(t) in s.share && s.share[ScriptName(t)].content == JobOf(s, t).script
            && Name(EnvFile, t) in s.share && s.share[Name(EnvFile, t)].content == JobOf(s, t).env
  {
    var s := e.states[i];
    ReachableInv(e, i);
    assert QueueOk(s, s.daemon.pc.step);
    var t := s.daemon.current.value;
    assert Agrees(s, ScriptName(t)) && Agrees(s, Name(EnvFile, t));
  }

  /** The task has a file of this kind: every task but for an archive, which only some write. */
  predicate HasFile(job: Job, kind: Kind) {
    kind == ArchiveFile ==> job.archive != ""
  }

  /** No two files of the protocol share a place, whatever their kinds and tasks. */
  lemma NoCollision(e: Execution, i: nat, n1: Name, n2: Name)
    requires IsExecution(e) && i < |e.states|
    requires Known(e.states[i], n1.task) && Known(e.states[i], n2.task) && HasFile(JobOf(e.states[i], n1.task), n1.kind)
    requires LocationOf(JobOf(e.states[i], n1.task), n1.kind) == LocationOf(JobOf(e.states[i], n2.task), n2.kind)
    ensures n1 == n2
  {
    hide Enabled, Next;
    var s := e.states[i];
    ReachableInv(e, i);
    assert UuidSized(s, n1.task) && UuidSized(s, n2.task) && UuidsDiffer(s, n1.task, n2.task);
    LocationsDistinct(JobOf(s, n1.task), n1.kind, JobOf(s, n2.task), n2.kind);
  }

  /**
   * Distinct times are needed: of two listed scripts with one time, `ls -tcr` puts the alphabetically later
   * one first. So the one with the earlier time prefix is not picked, and the other is if it comes before
   * whatever else is listed.
   */
  lemma EqualTimesReverseOrder(s: State, step: Step, a: Tid, b: Tid)
    requires Listed(s, step, ScriptName(a)) && Listed(s, step, ScriptName(b)) && a != b
    requires s.share[ScriptName(a)].ctime == s.share[ScriptName(b)].ctime
    requires NameLess(LocationOf(JobOf(s, a), ScriptFile).base, LocationOf(JobOf(s, b), ScriptFile).base)
    ensures !IsHead(s, step, Some(a))
    ensures IsHead(s, step, Some(b)) <==>
      forall n :: n in s.share && Listed(s, step, n) && n != ScriptName(a) && n != ScriptName(b) ==>
        Before(s, ScriptName(b), n)
  {
    var x, y := LocationOf(JobOf(s, a), ScriptFile).base, LocationOf(JobOf(s, b), ScriptFile).base;
    NameLessAsymmetric(x, y);
    assert !Before(s, ScriptName(a), ScriptName(b)) && Before(s, ScriptName(b), ScriptName(a));
  }

  lemma {:induction false} NameLessAsymmetric(x: string, y: string)
    requires NameLess(x, y)
    ensures !NameLess(y, x)
  {
    if x != [] && x[0] == y[0] {
      NameLessAsymmetric(x[1..], y[1..]);
    }
  }
}
