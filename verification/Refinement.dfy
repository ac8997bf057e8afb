/** The concrete share, read by `ls -tcr | head -1`, refines three first-in first-out queues. */
module Refinement {
  import opened Wrappers
  import opened Tasks
  import opened Naming
  import opened Protocol
  import opened ProtocolInvariant
  import opened ProtocolPreserved

  // ----- The abstract machine -----

  datatype Lines = Lines(streamIn: seq<Tid>, run: seq<Tid>, streamOut: seq<Tid>) {
    function Get(step: Step): seq<Tid> {
      match step
      case StreamIn => streamIn
      case Run => run
      case StreamOut => streamOut
    }

    function Put(step: Step, line: seq<Tid>): Lines {
      match step
      case StreamIn => this.(streamIn := line)
      case Run => this.(run := line)
      case StreamOut => this.(streamOut := line)
    }
  }

  /** Three lines of waiting tasks, the one being served, and the log of services. */
  datatype Fifo = Fifo(lines: Lines, serving: Option<Entry>, log: seq<Entry>)

  predicate Enqueues(a: Fifo, b: Fifo, step: Step, t: Tid) {
    b == a.(lines := a.lines.Put(step, a.lines.Get(step) + [t]))
  }

  /** Service starts with the first task of a line, which stays first until service ends. */
  predicate Serves(a: Fifo, b: Fifo, step: Step) {
    && a.serving.None?
    && a.lines.Get(step) != []
    && var entry := Entry(step, a.lines.Get(step)[0]);
    b == a.(serving := Some(entry), log := a.log + [entry])
  }

  predicate Dismisses(a: Fifo, b: Fifo, step: Step) {
    && a.lines.Get(step) != []
    && a.serving == Some(Entry(step, a.lines.Get(step)[0]))
    && b == a.(serving := None, lines := a.lines.Put(step, a.lines.Get(step)[1..]))
  }

  ghost predicate FifoStep(a: Fifo, b: Fifo) {
    || b == a
    || (exists step, t :: Enqueues(a, b, step, t))
    || (exists step :: Serves(a, b, step))
    || (exists step :: Dismisses(a, b, step))
  }

  // ----- The abstraction -----

  function Abstract(s: State): Fifo {
    Fifo(
      Lines(Waiting(s.queues.streamIn), Waiting(s.queues.run), Waiting(s.queues.streamOut)),
      if (s.daemon.pc.Wait? || s.daemon.pc.Mv?) && s.daemon.current.Some?
      then Some(Entry(s.daemon.pc.step, s.daemon.current.value)) else None,
      s.log)
  }

  /** The whole output of `ls -tcr` on one queue folder: every listed name once, in order. */
  ghost predicate IsListing(s: State, step: Step, tasks: seq<Tid>) {
    && (forall k :: 0 <= k < |tasks| ==> Listed(s, step, ScriptName(tasks[k])))
    && (forall n :: n in s.share && Listed(s, step, n) ==> n.kind == ScriptFile && n.task in tasks)
    && (forall j, k :: 0 <= j < k < |tasks| ==> Before(s, ScriptName(tasks[j]), ScriptName(tasks[k])))
  }

  lemma AbstractLine(s: State, step: Step)
    ensures Abstract(s).lines.Get(step) == Waiting(s.queues.Get(step))
  {
  }

  lemma ListedInLine(s: State, step: Step, n: Name)
    requires QueueOk(s, step) && QueueOk(s, s.daemon.pc.step) && DaemonOk(s) && FilesOk(s)
    requires n in s.share && Listed(s, step, n)
    ensures n.kind == ScriptFile && n.task in Waiting(s.queues.Get(step))
  {
    ListedIsScript(s, step, n);
    assert Agrees(s, n);
    var k := ListedIsWaiting(s, step, n);
    assert Waiting(s.queues.Get(step))[k - s.queues.Get(step).retired] == n.task;
  }

  lemma LineListed(s: State, step: Step, k: nat)
    requires QueueOk(s, step) && TimesOk(s, step) && k < |Waiting(s.queues.Get(step))|
    ensures Listed(s, step, ScriptName(Waiting(s.queues.Get(step))[k]))
  {
    WaitingIsListed(s, step, s.queues.Get(step).retired + k);
  }

  /** What the share shows of a queue is its line in the abstract machine, oldest first. */
  lemma ListingIsLine(s: State, step: Step)
    requires QueueOk(s, step) && QueueOk(s, s.daemon.pc.step) && TimesOk(s, step) && DaemonOk(s) && FilesOk(s)
    ensures IsListing(s, step, Waiting(s.queues.Get(step)))
  {
    var w := Waiting(s.queues.Get(step));
    assert forall k :: 0 <= k < |w| ==> Listed(s, step, ScriptName(w[k])) by {
      forall k | 0 <= k < |w| ensures Listed(s, step, ScriptName(w[k])) { LineListed(s, step, k); }
    }
    assert forall n :: n in s.share && Listed(s, step, n) ==> n.kind == ScriptFile && n.task in w by {
      forall n | n in s.share && Listed(s, step, n) ensures n.kind == ScriptFile && n.task in w {
        ListedInLine(s, step, n);
      }
    }
    assert forall j, k :: 0 <= j < k < |w| ==> Before(s, ScriptName(w[j]), ScriptName(w[k]));
  }

  lemma {:induction false} NameLessIrreflexive(a: string)
    ensures !NameLess(a, a)
  {
    if a != [] {
      NameLessIrreflexive(a[1..]);
    }
  }

  lemma ListingDistinct(s: State, step: Step, l: seq<Tid>)
    requires IsListing(s, step, l)
    ensures forall j, k :: 0 <= j < k < |l| ==> l[j] != l[k]
  {
    forall j, k | 0 <= j < k < |l| ensures l[j] != l[k] {
      assert Before(s, ScriptName(l[j]), ScriptName(l[k]));
      NameLessIrreflexive(LocationOf(JobOf(s, l[j]), ScriptFile).base);
    }
  }

  /** The tasks' scripts have strictly increasing times. */
  ghost predicate TimesApart(s: State, w: seq<Tid>) {
    && (forall k :: 0 <= k < |w| ==> ScriptName(w[k]) in s.share)
    && (forall j, k :: 0 <= j < k < |w| ==> s.share[ScriptName(w[j])].ctime < s.share[ScriptName(w[k])].ctime)
  }

  /** Two orders of the same tasks: `w` by strictly increasing times, `l` once each by times that never decrease. */
  ghost predicate TwoOrders(w: seq<Tid>, l: seq<Tid>, time: map<Tid, nat>) {
    && (forall t :: t in w <==> t in l)
    && (forall t :: t in w ==> t in time)
    && (forall j, k :: 0 <= j < k < |w| ==> time[w[j]] < time[w[k]])
    && (forall j, k :: 0 <= j < k < |l| ==> time[l[j]] <= time[l[k]] && l[j] != l[k])
  }

  lemma SameLast(w: seq<Tid>, l: seq<Tid>, time: map<Tid, nat>)
    requires TwoOrders(w, l, time) && w != []
    ensures l != [] && l[|l| - 1] == w[|w| - 1]
  {
    assert w[|w| - 1] in w;
    var a :| 0 <= a < |l| && l[a] == w[|w| - 1];
    assert l[|l| - 1] in l;
    var b :| 0 <= b < |w| && w[b] == l[|l| - 1];
  }

  lemma TwoOrdersShorter(w: seq<Tid>, l: seq<Tid>, time: map<Tid, nat>)
    requires TwoOrders(w, l, time) && w != [] && l != [] && l[|l| - 1] == w[|w| - 1]
    ensures TwoOrders(w[..|w| - 1], l[..|l| - 1], time)
  {
    var w', l' := w[..|w| - 1], l[..|l| - 1];
    var x := w[|w| - 1];
    assert w == w' + [x] && l == l' + [x];
    assert x !in w' && x !in l';
    forall t ensures t in w' <==> t in l' {
      assert t in w <==> t in w' || t == x;
      assert t in l <==> t in l' || t == x;
    }
  }

  lemma EmptyOrMember(l: seq<Tid>)
    ensures l == [] || exists t :: t in l
  {
    assert l != [] ==> l[0] in l;
  }

  lemma {:induction false} SortedUnique(w: seq<Tid>, l: seq<Tid>, time: map<Tid, nat>)
    requires TwoOrders(w, l, time)
    ensures l == w
  {
    if w == [] {
      EmptyOrMember(l);
    } else {
      SameLast(w, l, time);
      TwoOrdersShorter(w, l, time);
      SortedUnique(w[..|w| - 1], l[..|l| - 1], time);
      assert w == w[..|w| - 1] + [w[|w| - 1]] && l == l[..|l| - 1] + [l[|l| - 1]];
    }
  }

  /** No other order of the same names is a listing, so the line is a function of the share alone. */
  lemma ListingUnique(s: State, step: Step, w: seq<Tid>, l: seq<Tid>)
    requires IsListing(s, step, w) && IsListing(s, step, l) && TimesApart(s, w)
    ensures l == w
  {
    ListingDistinct(s, step, l);
    var time := map t | t in w :: s.share[ScriptName(t)].ctime;
    forall t ensures t in w <==> t in l {
      if t in w { assert ScriptName(t) in s.share && Listed(s, step, ScriptName(t)); }
      if t in l { assert ScriptName(t) in s.share && Listed(s, step, ScriptName(t)); }
    }
    forall j, k | 0 <= j < k < |l| ensures time[l[j]] <= time[l[k]] {
      assert Before(s, ScriptName(l[j]), ScriptName(l[k]));
      assert l[j] in l && l[k] in l;
    }
    SortedUnique(w, l, time);
  }

  lemma OnlyListing(s: State, step: Step, l: seq<Tid>)
    requires QueuesOk(s) && DaemonOk(s) && FilesOk(s)
    ensures IsListing(s, step, l) <==> l == Abstract(s).lines.Get(step)
  {
    assert QueueOk(s, step) && TimesOk(s, step) && QueueOk(s, s.daemon.pc.step);
    ListingIsLine(s, step);
    AbstractLine(s, step);
    if IsListing(s, step, l) {
      ListingUnique(s, step, Waiting(s.queues.Get(step)), l);
    }
  }

  // ----- The simulation -----

  lemma PublishEnqueues(s: State, s': State, t0: Tid)
    requires QueuesOk(s) && PublishStep(s, s', t0)
    ensures Enqueues(Abstract(s), Abstract(s'), JobOf(s, t0).step, t0)
  {
    var step := JobOf(s, t0).step;
    assert QueueOk(s, step);
    assert Waiting(s'.queues.Get(step)) == Waiting(s.queues.Get(step)) + [t0];
  }

  lemma QuietStutters(s: State, s': State)
    requires QuietStep(s, s')
    ensures Abstract(s') == Abstract(s)
  {
  }

  lemma StartServes(s: State, s': State)
    requires QueueOk(s, s.daemon.pc.step) && DaemonOk(s) && StartStep(s, s')
    ensures Serves(Abstract(s), Abstract(s'), s.daemon.pc.step)
  {
    AbstractLine(s, s.daemon.pc.step);
  }

  lemma RetireDismisses(s: State, s': State)
    requires QueueOk(s, s.daemon.pc.step) && DaemonOk(s) && RetireStep(s, s')
    ensures Dismisses(Abstract(s), Abstract(s'), s.daemon.pc.step)
  {
    var step := s.daemon.pc.step;
    AbstractLine(s, step);
    assert Waiting(s'.queues.Get(step)) == Waiting(s.queues.Get(step))[1..];
  }

  lemma DaemonServes(s: State, pick: Option<Tid>)
    requires QueuesOk(s) && DaemonOk(s) && DaemonEnabled(s, pick)
    ensures FifoStep(Abstract(s), Abstract(DaemonNext(s, pick)))
  {
    assert QueueOk(s, s.daemon.pc.step);
    if s.daemon.pc.Exec? {
      StartDelta(s, pick);
      StartServes(s, DaemonNext(s, pick));
    } else if s.daemon.pc.Mv? {
      RetireDelta(s, pick);
      RetireDismisses(s, DaemonNext(s, pick));
    } else {
      ListStutters(s, pick);
    }
  }

  lemma ListStutters(s: State, pick: Option<Tid>)
    requires DaemonOk(s) && DaemonEnabled(s, pick) && (s.daemon.pc.Guard? || s.daemon.pc.Wait?)
    ensures Abstract(DaemonNext(s, pick)) == Abstract(s)
  {
    ListDelta(s, pick);
    var s' := DaemonNext(s, pick);
    forall step ensures Waiting(s'.queues.Get(step)) == Waiting(s.queues.Get(step)) {
    }
    assert Waiting(s'.queues.Get(StreamIn)) == Waiting(s.queues.Get(StreamIn));
    assert Waiting(s'.queues.Get(Run)) == Waiting(s.queues.Get(Run));
    assert Waiting(s'.queues.Get(StreamOut)) == Waiting(s.queues.Get(StreamOut));
  }

  /**
   * Refinement: at every point of every execution the three listings are the three lines of the abstract
   * machine and nothing else, and the next action is one step of that machine or no step at all.
   */
  lemma RefinesFifo(e: Execution, i: nat)
    requires IsExecution(e) && i < |e.actions|
    ensures FifoStep(Abstract(e.states[i]), Abstract(e.states[i + 1]))
    ensures forall step, l :: IsListing(e.states[i], step, l) <==> l == Abstract(e.states[i]).lines.Get(step)
  {
    var s := e.states[i];
    ReachableInv(e, i);
    forall step, l ensures IsListing(s, step, l) <==> l == Abstract(s).lines.Get(step) {
      OnlyListing(s, step, l);
    }
    match e.actions[i]
    case Spawn(c, prog) =>
      SpawnDelta(s, c, Client(prog, 0, Idle, false));
      QuietStutters(s, e.states[i + 1]);
    case ClientStep(c, upTo) =>
      if s.clients[c].pc.TempClosed? {
        PublishDelta(s, c, upTo);
        PublishEnqueues(s, e.states[i + 1], CurrentTask(s, c));
      } else {
        WriteDelta(s, c, upTo);
        QuietStutters(s, e.states[i + 1]);
      }
    case ClientFail(c) =>
      SpawnDelta(s, c, s.clients[c].(failed := true));
      QuietStutters(s, e.states[i + 1]);
    case DaemonStep(pick) => DaemonServes(s, pick);
    case ProcStep(t, event) =>
      ProcDelta(s, t, event);
      QuietStutters(s, e.states[i + 1]);
  }

  /** Each pick of the daemon is the head of the queue's line, or nothing when the line is empty. */
  lemma PicksHeadOfLine(e: Execution, i: nat)
    requires IsExecution(e) && i < |e.actions| && e.actions[i].DaemonStep?
    requires e.states[i].daemon.pc.Guard? && !Skips(e.states[i].daemon)
    ensures var line := Abstract(e.states[i]).lines.Get(e.states[i].daemon.pc.step);
            e.actions[i].pick == if line == [] then None else Some(line[0])
  {
    var s := e.states[i];
    ReachableInv(e, i);
    var step := s.daemon.pc.step;
    AbstractLine(s, step);
    assert QueueOk(s, step) && TimesOk(s, step);
    PickIsQueueHead(s, step, e.actions[i].pick);
  }
}
