/** What one state of an execution says about every later one. */
module Runs {
  import opened Wrappers
  import opened Protocol
  import opened ProtocolInvariant
  import opened ProtocolPreserved

  function PhaseRank(p: Phase): nat {
    match p
    case Launched => 0
    case PidOpen(_) => 1
    case Running(_) => 2
    case Returned(_, _) => 3
    case ExitOpen(_, _) => 4
    case Complete(_, _) => 5
  }

  /** A script only moves forward, keeps its pid and its status, and stays dead once it is. */
  predicate Advanced(p: Proc, q: Proc) {
    && PhaseRank(p.phase) <= PhaseRank(q.phase)
    && (p.dead ==> q == p)
    && (PhaseRank(p.phase) >= 1 ==> q.phase.pid == p.phase.pid)
    && (PhaseRank(p.phase) >= 3 ==> q.phase.code == p.phase.code)
  }

  /** The archive grows at its end while the command runs, and is final once the command has returned. */
  predicate ArchiveGrows(s: State, s': State, t: Tid) {
    && ArchiveContent(s, t) <= ArchiveContent(s', t)
    && (t in s.procs && !MayEmit(s.procs[t]) ==> ArchiveContent(s', t) == ArchiveContent(s, t))
  }

  ghost predicate Later(s: State, s': State) {
    && TasksGrow(s, s')
    && (forall step :: s.queues.Get(step).published <= s'.queues.Get(step).published)
    && (forall step :: s.queues.Get(step).retired <= s'.queues.Get(step).retired)
    && (forall t :: t in s.procs ==> t in s'.procs && Advanced(s.procs[t], s'.procs[t]))
    && s.log <= s'.log
    && (forall t :: ArchiveGrows(s, s', t))
  }

  lemma LaterByWrite(s: State, c: nat, upTo: nat)
    requires ClientEnabled(s, c, upTo) && !s.clients[c].pc.TempClosed?
    ensures Later(s, ClientNext(s, c, upTo))
  {
    var s' := ClientNext(s, c, upTo);
    WriteDelta(s, c, upTo);
    assert s'.procs == s.procs;
    assert forall t :: ArchiveContent(s', t) == ArchiveContent(s, t);
  }

  lemma LaterByPublish(s: State, c: nat, upTo: nat)
    requires ClientEnabled(s, c, upTo) && s.clients[c].pc.TempClosed?
    ensures Later(s, ClientNext(s, c, upTo))
  {
    var s' := ClientNext(s, c, upTo);
    PublishDelta(s, c, upTo);
    assert forall t :: ArchiveContent(s', t) == ArchiveContent(s, t);
  }

  lemma LaterBySpawn(s: State, c: nat, cl: Client)
    requires if c in s.clients then cl == s.clients[c].(failed := true) else cl.next == 0
    ensures Later(s, SetClient(s, c, cl))
  {
    SpawnDelta(s, c, cl);
    assert forall t :: ArchiveContent(SetClient(s, c, cl), t) == ArchiveContent(s, t);
  }

  lemma LaterByDaemon(s: State, pick: Option<Tid>)
    requires ProgressOk(s, s.daemon.pc.step) && DaemonOk(s) && DaemonEnabled(s, pick)
    ensures Later(s, DaemonNext(s, pick))
  {
    var s' := DaemonNext(s, pick);
    match s.daemon.pc
    case Exec(_) => StartDelta(s, pick);
    case Mv(_) => RetireDelta(s, pick);
    case _ => ListDelta(s, pick);
    assert forall t :: ArchiveContent(s', t) == ArchiveContent(s, t);
  }

  lemma LaterByProc(s: State, t: Tid, event: ProcEvent)
    requires ProcEnabled(s, t, event)
    ensures Later(s, ProcNext(s, t, event))
  {
    var s' := ProcNext(s, t, event);
    ProcDelta(s, t, event);
    forall u ensures ArchiveGrows(s, s', u) {
      if !event.Emit? || u != t { assert ArchiveContent(s', u) == ArchiveContent(s, u); }
    }
  }

  lemma LaterInStep(s: State, a: Action)
    requires Inv(s) && Enabled(s, a)
    ensures Later(s, Next(s, a))
  {
    assert QueueOk(s, s.daemon.pc.step);
    match a
    case DaemonStep(pick) => LaterByDaemon(s, pick);
    case ProcStep(t, event) => LaterByProc(s, t, event);
    case ClientStep(c, upTo) =>
      if s.clients[c].pc.TempClosed? { LaterByPublish(s, c, upTo); } else { LaterByWrite(s, c, upTo); }
    case Spawn(c, prog) => LaterBySpawn(s, c, Client(prog, 0, Idle, false));
    case ClientFail(c) => LaterBySpawn(s, c, s.clients[c].(failed := true));
  }

  lemma LaterTransitive(s: State, s': State, s'': State)
    requires Later(s, s') && Later(s', s'')
    ensures Later(s, s'')
  {
    forall t ensures ArchiveGrows(s, s'', t) {
      assert ArchiveGrows(s, s', t) && ArchiveGrows(s', s'', t);
      assert t in s.procs ==> Advanced(s.procs[t], s'.procs[t]);
    }
    forall step ensures s.queues.Get(step).published <= s''.queues.Get(step).published
                     && s.queues.Get(step).retired <= s''.queues.Get(step).retired {
      assert s.queues.Get(step).published <= s'.queues.Get(step).published <= s''.queues.Get(step).published;
    }
  }

  /** Along every execution nothing published is unpublished, no script goes back, no status changes. */
  lemma {:induction false} Monotone(e: Execution, i: nat, j: nat)
    requires IsExecution(e) && i <= j < |e.states|
    ensures Later(e.states[i], e.states[j])
    decreases j - i
  {
    if i == j {
      assert forall t :: ArchiveGrows(e.states[i], e.states[j], t);
    } else {
      Monotone(e, i, j - 1);
      ReachableInv(e, j - 1);
      LaterInStep(e.states[j - 1], e.actions[j - 1]);
      LaterTransitive(e.states[i], e.states[j - 1], e.states[j]);
    }
  }
}
