/** The daemon script as a program: its loop over the two shell variables, acting on the share. */
module Daemon {
  import opened Wrappers
  import opened Tasks
  import opened Naming
  import opened Protocol
  import opened ProtocolInvariant
  import opened ProtocolPreserved
  import opened Drain

  lemma {:induction false} TimesByPlace(s: State, step: Step, j: nat, k: nat)
    requires TimesOk(s, step) && s.queues.Get(step).retired <= j <= k < |s.queues.Get(step).published|
    ensures var m, n := ScriptName(s.queues.Get(step).published[j]), ScriptName(s.queues.Get(step).published[k]);
            m in s.share && n in s.share && (j < k ==> s.share[m].ctime < s.share[n].ctime)
  {
    var q := s.queues.Get(step);
    assert Waiting(q)[j - q.retired] == q.published[j] && Waiting(q)[k - q.retired] == q.published[k];
  }

  /** Two listed scripts of one queue never have the same time. */
  lemma {:induction false} ListedTimesDiffer(s: State, step: Step, m: Name, n: Name)
    requires QueueOk(s, step) && TimesOk(s, step) && QueueOk(s, s.daemon.pc.step) && DaemonOk(s)
    requires Agrees(s, m) && Agrees(s, n) && Listed(s, step, m) && Listed(s, step, n) && m != n
    ensures s.share[m].ctime != s.share[n].ctime
  {
    hide QueueOk, TimesOk, DaemonOk, Agrees, Glob;
    var j := ListedIsWaiting(s, step, m);
    var k := ListedIsWaiting(s, step, n);
    if j <= k { TimesByPlace(s, step, j, k); } else { TimesByPlace(s, step, k, j); }
  }

  /** Of the names read so far, `current` is the one that `ls -tcr` puts first. */
  ghost predicate FirstAmong(s: State, step: Step, read: set<Name>, current: Option<Tid>) {
    match current
    case None => forall n :: n in read ==> !Listed(s, step, n)
    case Some(t) =>
      && ScriptName(t) in read && Listed(s, step, ScriptName(t))
      && forall n :: n in read && Listed(s, step, n) && n != ScriptName(t) ==>
           s.share[ScriptName(t)].ctime < s.share[n].ctime
  }

  /** Which of two listed scripts comes first; the first to be read is kept if there is only one. */
  function Earlier(s: State, current: Option<Tid>, n: Name): Option<Tid>
    requires n in s.share && Known(s, n.task)
    requires current.Some? ==> ScriptName(current.value) in s.share && Known(s, current.value)
  {
    if current.None? || Before(s, n, ScriptName(current.value)) then Some(n.task) else current
  }

  lemma {:induction false} ReadOneMore(s: State, step: Step, read: set<Name>, current: Option<Tid>, n: Name)
    requires QueueOk(s, step) && TimesOk(s, step) && QueueOk(s, s.daemon.pc.step) && DaemonOk(s)
    requires Agrees(s, n) && (current.Some? ==> Agrees(s, ScriptName(current.value)))
    requires FirstAmong(s, step, read, current) && n !in read && Listed(s, step, n)
    ensures FirstAmong(s, step, read + {n}, Earlier(s, current, n))
  {
    hide QueueOk, TimesOk, DaemonOk, Agrees, Glob, NameLess;
    var k := ListedIsWaiting(s, step, n);
    assert n == ScriptName(n.task);
    if current.Some? {
      ListedTimesDiffer(s, step, n, ScriptName(current.value));
    }
  }

  lemma {:induction false} AllReadIsHead(s: State, step: Step, current: Option<Tid>)
    requires FirstAmong(s, step, s.share.Keys, current)
    ensures IsHead(s, step, current)
  {
  }

  lemma {:induction false} ListedAgrees(s: State, step: Step, n: Name)
    requires FilesOk(s) && Listed(s, step, n)
    ensures n in s.share && Known(s, n.task) && n.kind == ScriptFile && Agrees(s, n)
  {
    ListedIsScript(s, step, n);
  }

  /** The script in the daemon's hand still has its name, whatever the daemon is about to do with it. */
  lemma {:induction false} CurrentOnShare(s: State)
    requires QueueOk(s, s.daemon.pc.step) && DaemonOk(s) && FilesOk(s) && !s.daemon.pc.Guard?
    ensures s.daemon.current.Some? && ScriptName(s.daemon.current.value) in s.share
    ensures s.daemon.pc.Exec? ==> s.daemon.current.value !in s.procs
  {
    var t := s.daemon.current.value;
    var q := s.queues.Get(s.daemon.pc.step);
    assert q.published[q.retired] == t && Published(s, t);
    assert Agrees(s, ScriptName(t));
  }

  lemma {:induction false} CurrentInHand(s: State)
    requires Inv(s) && !s.daemon.pc.Guard?
    ensures s.daemon.current.Some? && ScriptName(s.daemon.current.value) in s.share
    ensures s.daemon.pc.Exec? ==> s.daemon.current.value !in s.procs
  {
    hide Inv;
    InvParts(s, s.daemon.pc.step);
    CurrentOnShare(s);
  }

  lemma {:induction false} DrainedSame(s0: State, s: State, s': State, n: nat)
    requires Drained(s0, s, n) && s'.queues == s.queues && s'.daemon == s.daemon && s'.log == s.log
    ensures Drained(s0, s', n)
  {
    TodoUnchanged(s, s');
  }

  /** Only the scripts and their files have changed. */
  predicate OnlyScriptRan(s: State, s': State, t: Tid, p: Proc) {
    && s'.queues == s.queues && s'.daemon == s.daemon && s'.log == s.log && s'.clients == s.clients
    && s'.procs == s.procs[t := p]
  }

  lemma {:induction false} OneIteration(s0: State, s: State)
    requires Drained(s0, s, 1) && s0.daemon.pc == Guard(StreamIn) && s.daemon.pc == Guard(StreamIn)
    ensures var m := Min(1, |Todo(s0)|);
            s.log == s0.log + Todo(s0)[..m] && Todo(s) == Todo(s0)[m..]
  {
    var m := Min(1, |Todo(s0)|);
    var all := s0.log + Todo(s0);
    assert s.log == all[..|s0.log| + m] == s0.log + Todo(s0)[..m];
    assert Todo(s) == all[|s0.log| + m..] == Todo(s0)[m..];
  }

  lemma {:induction false} NothingToDo(s: State, step: Step)
    requires Todo(s) == [] && s.daemon.pc == Guard(StreamIn) && ProgressOk(s, step)
    ensures s.queues.Get(step).retired == |s.queues.Get(step).published|
  {
    assert |Entries(step, NotStarted(s, step))| == 0;
  }

  class Shell {
    /** The share with its queues, the scripts that run, and the loop's own variables. */
    var s: State

    constructor (s0: State)
      ensures s == s0
    {
      s := s0;
    }

    /** get_first_sh_file: the listing's first line, or nothing. */
    method GetFirstShFile(step: Step) returns (current: Option<Tid>)
      requires QueueOk(s, step) && TimesOk(s, step) && QueueOk(s, s.daemon.pc.step) && DaemonOk(s) && FilesOk(s)
      ensures IsHead(s, step, current)
    {
      hide QueueOk, TimesOk, DaemonOk, FilesOk, IsHead, Listed, Earlier, Agrees, Known;
      current := None;
      var unread := s.share.Keys;
      while unread != {}
        invariant unread <= s.share.Keys
        invariant FirstAmong(s, step, s.share.Keys - unread, current)
        decreases |unread|
      {
        var n :| n in unread;
        if Listed(s, step, n) {
          ListedAgrees(s, step, n);
          if current.Some? {
            ListedAgrees(s, step, ScriptName(current.value));
          }
          ReadOneMore(s, step, s.share.Keys - unread, current, n);
          current := Earlier(s, current, n);
        }
        assert s.share.Keys - (unread - {n}) == s.share.Keys - unread + {n};
        unread := unread - {n};
      }
      assert s.share.Keys - unread == s.share.Keys;
      AllReadIsHead(s, step, current);
    }

    /** One statement of the loop. */
    method Do(pick: Option<Tid>)
      requires Inv(s) && DaemonEnabled(s, pick)
      modifies this
      ensures s == DaemonNext(old(s), pick) && Inv(s)
    {
      InvKept(s, DaemonStep(pick));
      s := DaemonNext(s, pick);
    }

    method Event(t: Tid, event: ProcEvent)
      requires Inv(s) && ProcEnabled(s, t, event)
      modifies this
      ensures s == ProcNext(old(s), t, event) && Inv(s)
    {
      InvKept(s, ProcStep(t, event));
      s := ProcNext(s, t, event);
    }

    /** A foreground script from its start to its last line, with the pid and the status it gets. */
    method RunScript(t: Tid, pid: ProcId, code: Status)
      requires Inv(s) && t in s.procs && s.procs[t] == Proc(Launched, false)
      modifies this
      ensures Inv(s) && OnlyScriptRan(old(s), s, t, Proc(Complete(pid, code), false))
    {
      hide Inv;
      Event(t, MakePid(pid));
      Event(t, WritePid);
      Event(t, Return(code));
      Event(t, MakeExit);
      Event(t, WriteExit);
    }

    /** The body of a block: run the script, in the foreground or not, and rename it. */
    method Serve(step: Step, pid: ProcId, code: Status, ghost s0: State, ghost n: nat)
      requires Inv(s) && s.daemon.pc == Exec(step) && s.daemon.current.Some? && Drained(s0, s, n)
      modifies this
      ensures Inv(s) && s.daemon.pc == Advance(old(s.daemon)).pc
      ensures Drained(s0, s, if step == StreamOut then n + 1 else n)
    {
      hide Inv, Drained, IsHead;
      var current := s.daemon.current.value;
      CurrentInHand(s);
      DrainedInStep(s0, s, DaemonStep(None), n);
      Do(None);
      if Foreground(step) {
        ghost var before := s;
        RunScript(current, pid, code);
        DrainedSame(s0, before, s, n);
        DrainedInStep(s0, s, DaemonStep(None), n);
        Do(None);
      }
      CurrentInHand(s);
      DrainedInStep(s0, s, DaemonStep(None), n);
      Do(None);
    }

    /** One of the three blocks of the loop body. */
    method Block(step: Step, pid: ProcId, code: Status, ghost s0: State, ghost n: nat)
      requires Inv(s) && s.daemon.pc == Guard(step) && Drained(s0, s, n)
      modifies this
      ensures Inv(s) && s.daemon.pc == Advance(old(s.daemon)).pc
      ensures Drained(s0, s, if step == StreamOut then n + 1 else n)
    {
      hide Inv, Drained;
      if Skips(s.daemon) {
        DrainedInStep(s0, s, DaemonStep(None), n);
        Do(None);
      } else {
        InvParts(s, step);
        var current := GetFirstShFile(step);
        DrainedInStep(s0, s, DaemonStep(current), n);
        Do(current);
        if current.Some? {
          Serve(step, pid, code, s0, n);
        }
      }
    }

    /**
     * One iteration of the loop, with nothing published meanwhile: it starts the first pending task, if there
     * is one, and leaves the others pending.
     */
    method Iterate(pid: ProcId, code: Status)
      requires Inv(s) && s.daemon.pc == Guard(StreamIn)
      modifies this
      ensures Inv(s) && s.daemon.pc == Guard(StreamIn)
      ensures var m := Min(1, |Todo(old(s))|);
              s.log == old(s).log + Todo(old(s))[..m] && Todo(s) == Todo(old(s))[m..]
    {
      ghost var s0 := s;
      assert Drained(s0, s, 0);
      Block(StreamIn, pid, code, s0, 0);
      Block(Run, pid, code, s0, 0);
      Block(StreamOut, pid, code, s0, 0);
      OneIteration(s0, s);
    }

    /**
     * The daemon can always work off everything: after as many iterations as there are pending tasks, given
     * the pids and statuses that the scripts get, nothing is pending and every published script is
     * `.executed`, started in the one order that the queues fix.
     */
    method WorkOff(pids: nat -> ProcId, codes: nat -> Status) returns (iterations: nat)
      requires Inv(s) && s.daemon.pc == Guard(StreamIn)
      modifies this
      ensures Inv(s) && s.daemon.pc == Guard(StreamIn)
      ensures iterations == |Todo(old(s))| && s.log == old(s).log + Todo(old(s)) && Todo(s) == []
      ensures forall step :: s.queues.Get(step).retired == |s.queues.Get(step).published|
    {
      hide Inv, Todo;
      iterations := 0;
      ghost var todo := Todo(s);
      while Todo(s) != []
        invariant Inv(s) && s.daemon.pc == Guard(StreamIn)
        invariant iterations <= |todo| && Todo(s) == todo[iterations..]
        invariant s.log == old(s).log + todo[..iterations]
        decreases |Todo(s)|
      {
        Iterate(pids(iterations), codes(iterations));
        assert todo[iterations..][..1] == [todo[iterations]];
        assert todo[..iterations + 1] == todo[..iterations] + [todo[iterations]];
        iterations := iterations + 1;
      }
      assert todo[..iterations] == todo;
      forall step ensures s.queues.Get(step).retired == |s.queues.Get(step).published| {
        InvParts(s, step);
        NothingToDo(s, step);
      }
    }
  }

  lemma {:induction false} InvParts(s: State, step: Step)
    requires Inv(s)
    ensures QueueOk(s, step) && TimesOk(s, step) && QueueOk(s, s.daemon.pc.step) && DaemonOk(s) && FilesOk(s)
  {
  }
}
