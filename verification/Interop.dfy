/**
 * The host side as a program: scheduleTask and the dispatching methods, run between arbitrary steps of the
 * other handlers, of the daemon and of the scripts.
 */
module Interop {
  import opened Tasks
  import opened Naming
  import opened Protocol
  import opened ProtocolInvariant
  import opened ProtocolPreserved
  import opened Runs

  /** The action is this client's own. */
  predicate IsBy(a: Action, c: nat) {
    (a.Spawn? || a.ClientStep? || a.ClientFail?) && a.client == c
  }

  /** This client is in the middle of its dispatch and every file operation has worked so far. */
  predicate Ready(s: State, c: nat) {
    c in s.clients && !s.clients[c].failed && s.clients[c].next < |s.clients[c].prog|
  }

  lemma {:induction false} OthersLeave(s: State, a: Action, c: nat)
    requires Enabled(s, a) && !IsBy(a, c) && c in s.clients
    ensures c in Next(s, a).clients && Next(s, a).clients[c] == s.clients[c]
  {
  }

  /** An action of some host, not of the container. */
  predicate HostSide(a: Action) {
    !a.DaemonStep? && !a.ProcStep?
  }

  /** The container has done nothing. */
  predicate ContainerStill(s: State, s': State) {
    s'.daemon == s.daemon && s'.procs == s.procs && s'.log == s.log
  }

  lemma {:induction false} HostSideLeaves(s: State, a: Action)
    requires Enabled(s, a) && HostSide(a)
    ensures ContainerStill(s, Next(s, a))
  {
  }

  lemma {:induction false} LaterReflexive(s: State)
    ensures Later(s, s)
  {
    assert forall t :: ArchiveGrows(s, s, t);
  }

  /** What the file system answers to the operations of one scheduleTask; a write may stop after some characters. */
  datatype Answers = Answers(createEnv: bool, envWritten: nat, createTemp: bool, scriptWritten: nat, close: bool,
                             rename: bool)

  predicate Succeeds(a: Answers, job: Job) {
    && a.createEnv && a.envWritten >= |job.env|
    && a.createTemp && a.scriptWritten >= |job.script| && a.close && a.rename
  }

  lemma {:induction false} AllGood(a: Answers, job: Job)
    ensures Succeeds(a, job) <==> a.createEnv && a.envWritten >= |job.env| && a.createTemp
                                  && a.scriptWritten >= |job.script| && a.close && a.rename
  {
  }

  /** The client has just created the file that this text is for. */
  predicate Writes(cl: Client, text: string)
    requires cl.next < |cl.prog|
  {
    || (cl.pc == EnvOpen(0) && text == cl.prog[cl.next].env)
    || (cl.pc == TempOpen(0) && text == cl.prog[cl.next].script)
  }

  function Written(pc: SchedulePc, upTo: nat): SchedulePc {
    if pc.EnvOpen? then EnvOpen(upTo) else TempOpen(upTo)
  }

  /**
   * What one scheduleTask leaves of its task's files. A create that fails leaves no file, a write that stops leaves
   * what went through, and a script that could not be closed or renamed stays complete under its temporary name; a
   * file that would have come later is not there, and the final name is there only if nothing failed.
   */
  predicate LeftBehind(s: State, t: Tid, job: Job, a: Answers) {
    var env, temp, script := Name(EnvFile, t), Name(TempFile, t), Name(ScriptFile, t);
    var envDone := a.createEnv && a.envWritten >= |job.env|;
    && (if !a.createEnv then env !in s.share
        else env in s.share
             && s.share[env].content == if a.envWritten < |job.env| then job.env[..a.envWritten] else job.env)
    && (if !envDone || !a.createTemp then temp !in s.share && script !in s.share
        else if a.scriptWritten < |job.script| then
          temp in s.share && s.share[temp].content == job.script[..a.scriptWritten] && script !in s.share
        else if !a.close || !a.rename then
          temp in s.share && s.share[temp].content == job.script && script !in s.share
        else temp !in s.share && script in s.share && s.share[script].content == job.script)
  }

  /** How far a scheduleTask that fails comes with these answers. */
  function Reached(job: Job, a: Answers): SchedulePc {
    if !a.createEnv then Idle
    else if a.envWritten < |job.env| then EnvOpen(a.envWritten)
    else if !a.createTemp then EnvClosed
    else if a.scriptWritten < |job.script| then TempOpen(a.scriptWritten)
    else if !a.close then TempOpen(|job.script|) else TempClosed
  }

  lemma {:induction false} FilesBehind(s: State, c: nat, a: Answers)
    requires Inv(s) && c in s.clients && s.clients[c].next < |s.clients[c].prog|
    requires var job := s.clients[c].prog[s.clients[c].next];
             s.clients[c].pc == Reached(job, a) && !(Reached(job, a) == TempClosed && a.rename)
    ensures LeftBehind(s, Tid(c, s.clients[c].next), s.clients[c].prog[s.clients[c].next], a)
  {
    var t, job := Tid(c, s.clients[c].next), s.clients[c].prog[s.clients[c].next];
    assert Agrees(s, Name(EnvFile, t)) && Agrees(s, Name(TempFile, t)) && Agrees(s, Name(ScriptFile, t));
    assert job.script[..|job.script|] == job.script;
  }

  /** Right after the rename the script is in its place, and nothing is left under the temporary name. */
  lemma {:induction false} ScriptInPlace(s: State, s': State, c: nat, a: Answers)
    requires Inv(s') && ClientEnabled(s, c, 0) && s.clients[c].pc == TempClosed && s' == ClientNext(s, c, 0)
    requires var job := s.clients[c].prog[s.clients[c].next]; Reached(job, a) == TempClosed && a.rename && Inv(s)
    ensures LeftBehind(s', Tid(c, s.clients[c].next), s.clients[c].prog[s.clients[c].next], a)
  {
    hide Inv;
    var t := Tid(c, s.clients[c].next);
    PublishedFiles(s, s', c);
  }

  lemma {:induction false} PublishedFiles(s: State, s': State, c: nat)
    requires Inv(s) && Inv(s') && ClientEnabled(s, c, 0) && s.clients[c].pc == TempClosed && s' == ClientNext(s, c, 0)
    ensures var t, job := Tid(c, s.clients[c].next), s.clients[c].prog[s.clients[c].next];
            && Name(EnvFile, t) in s'.share && s'.share[Name(EnvFile, t)].content == job.env
            && Name(TempFile, t) !in s'.share
            && Name(ScriptFile, t) in s'.share && s'.share[Name(ScriptFile, t)].content == job.script
  {
    var t := Tid(c, s.clients[c].next);
    assert Agrees(s, Name(TempFile, t)) && Agrees(s', Name(EnvFile, t)) && Agrees(s', Name(TempFile, t));
  }

  lemma {:induction false} TempThere(s: State, c: nat)
    requires Inv(s) && Ready(s, c) && s.clients[c].pc == TempClosed
    ensures ClientEnabled(s, c, 0)
  {
    assert Agrees(s, Name(TempFile, CurrentTask(s, c)));
  }

  /** The client is between two calls of scheduleTask and none has failed. */
  predicate IsIdle(s: State, c: nat) {
    c in s.clients && s.clients[c].pc == Idle && !s.clients[c].failed
  }

  /** The client has published n more tasks, and unless something failed it can go on. */
  predicate MovedOn(s: State, s': State, c: nat, n: nat, ok: bool) {
    && c in s.clients && c in s'.clients
    && s'.clients[c].prog == s.clients[c].prog && s'.clients[c].next == s.clients[c].next + n
    && (ok ==> s'.clients[c] == s.clients[c].(next := s.clients[c].next + n))
  }

  /** How many of these jobs are scheduled before one fails. */
  function Succeeding(answers: nat -> Answers, jobs: seq<Job>, from: nat): (n: nat)
    requires from <= |jobs|
    ensures from <= n <= |jobs|
    ensures forall k :: from <= k < n ==> Succeeds(answers(k), jobs[k])
    ensures n < |jobs| ==> !Succeeds(answers(n), jobs[n])
    decreases |jobs| - from
  {
    if from == |jobs| || !Succeeds(answers(from), jobs[from]) then from else Succeeding(answers, jobs, from + 1)
  }

  lemma {:induction false} StopsAtFirstFailure(answers: nat -> Answers, jobs: seq<Job>, n: nat)
    requires n <= |jobs|
    requires forall k :: 0 <= k < n ==> Succeeds(answers(k), jobs[k])
    requires n < |jobs| ==> !Succeeds(answers(n), jobs[n])
    ensures Succeeding(answers, jobs, 0) == n
  {
  }

  class ContainerInterop {
    const client: nat
    /** The share with all that goes on around it. */
    var s: State

    constructor (c: nat, s0: State)
      ensures client == c && s == s0
    {
      client := c;
      s := s0;
    }

    /**
     * What the others do between two operations of this handler: of the given actions, those that are possible
     * and theirs.
     */
    method Others(actions: seq<Action>)
      requires Inv(s) && client in s.clients
      modifies this
      ensures Inv(s) && Later(old(s), s) && client in s.clients && s.clients[client] == old(s).clients[client]
      ensures (forall a :: a in actions ==> HostSide(a)) ==> ContainerStill(old(s), s)
    {
      hide Inv, Later, Enabled;
      LaterReflexive(s);
      for i := 0 to |actions|
        invariant Inv(s) && Later(old(s), s) && client in s.clients && s.clients[client] == old(s).clients[client]
        invariant (forall a :: a in actions ==> HostSide(a)) ==> ContainerStill(old(s), s)
      {
        if Enabled(s, actions[i]) && !IsBy(actions[i], client) {
          if HostSide(actions[i]) {
            HostSideLeaves(s, actions[i]);
          }
          InvKept(s, actions[i]);
          LaterInStep(s, actions[i]);
          LaterTransitive(old(s), s, Next(s, actions[i]));
          OthersLeave(s, actions[i], client);
          s := Next(s, actions[i]);
        }
      }
    }

    /** One operation of this client on its files. */
    method Act(upTo: nat)
      requires Inv(s) && ClientEnabled(s, client, upTo)
      modifies this
      ensures s == ClientNext(old(s), client, upTo) && Inv(s) && Later(old(s), s)
    {
      hide Inv, Later;
      InvKept(s, ClientStep(client, upTo));
      LaterInStep(s, ClientStep(client, upTo));
      s := ClientNext(s, client, upTo);
    }

    method GiveUp()
      requires Inv(s) && client in s.clients
      modifies this
      ensures Inv(s) && Later(old(s), s)
        && s.clients == old(s).clients[client := old(s).clients[client].(failed := true)]
    {
      hide Inv, Later;
      InvKept(s, ClientFail(client));
      LaterInStep(s, ClientFail(client));
      s := Next(s, ClientFail(client));
    }

    /** A call of WriteString puts down the whole text, or the part of it that went through before an error. */
    method WriteString(text: string, upTo: nat)
      requires Inv(s) && Ready(s, client) && upTo <= |text|
      requires Writes(s.clients[client], text)
      modifies this
      ensures Inv(s) && Later(old(s), s) && client in s.clients
      ensures s.clients[client] == old(s).clients[client].(pc := Written(old(s).clients[client].pc, upTo))
    {
      hide Inv, Later;
      LaterReflexive(s);
      if upTo > 0 {
        Act(upTo);
      }
    }

    /**
     * scheduleTask. In any company it either publishes exactly the next task, or it fails and has published
     * nothing; whatever had been there before is still there. It succeeds only if every one of its operations
     * does; otherwise the first that fails decides what it leaves of the task's files. The operations come in the
     * order of the code: the env file, then the script under its temporary name, then the rename.
     */
    method ScheduleTask(answers: Answers, others: nat -> seq<Action>) returns (ok: bool)
      requires Inv(s) && Ready(s, client) && s.clients[client].pc == Idle
      modifies this
      ensures Inv(s) && Later(old(s), s) && client in s.clients
      ensures var cl := old(s).clients[client];
              if ok then s.clients[client] == cl.(next := cl.next + 1)
              else s.clients[client] == cl.(failed := true, pc := s.clients[client].pc)
      ensures var job := old(s).clients[client].prog[old(s).clients[client].next];
              && (ok <==> answers.createEnv && answers.envWritten >= |job.env| && answers.createTemp
                          && answers.scriptWritten >= |job.script| && answers.close && answers.rename)
              && LeftBehind(s, Tid(client, old(s).clients[client].next), job, answers)
      ensures ok <==> Published(s, Tid(client, old(s).clients[client].next))
    {
      hide Inv, Later, LeftBehind;
      ghost var s0 := s;
      var cl := s.clients[client];
      var job := cl.prog[cl.next];
      var pc := WriteEnvFile(job, answers, others);
      ghost var s1 := s;
      if pc != EnvClosed {
        GiveUp();
        LaterTransitive(s0, s1, s);
        FilesBehind(s, client, answers);
        return false;
      }
      pc := WriteTemp(job, answers, others);
      ghost var s2 := s;
      LaterTransitive(s0, s1, s2);
      if pc != TempClosed || !answers.rename {
        GiveUp();
        LaterTransitive(s0, s2, s);
        FilesBehind(s, client, answers);
        return false;
      }
      Others(others(6));
      ghost var s3 := s;
      LaterTransitive(s0, s2, s3);
      TempThere(s, client);
      Act(0);
      LaterTransitive(s0, s3, s);
      ScriptInPlace(s3, s, client, answers);
      return true;
    }

    /** writeEnvFile: how far it comes tells whether it failed; the result of the deferred close is not looked at. */
    method WriteEnvFile(job: Job, answers: Answers, others: nat -> seq<Action>) returns (pc: SchedulePc)
      requires Inv(s) && Ready(s, client) && s.clients[client].pc == Idle
      requires job == s.clients[client].prog[s.clients[client].next]
      modifies this
      ensures Inv(s) && Later(old(s), s) && client in s.clients
        && s.clients[client] == old(s).clients[client].(pc := pc)
      ensures pc == if !answers.createEnv then Idle
                    else if answers.envWritten < |job.env| then EnvOpen(answers.envWritten) else EnvClosed
    {
      hide Inv, Later;
      ghost var s0 := s;
      Others(others(0));
      ghost var s1 := s;
      if !answers.createEnv {
        return Idle;
      }
      Act(0);
      ghost var s2 := s;
      LaterTransitive(s0, s1, s2);
      Others(others(1));
      ghost var s3 := s;
      LaterTransitive(s0, s2, s3);
      var upTo := if answers.envWritten < |job.env| then answers.envWritten else |job.env|;
      WriteString(job.env, upTo);
      ghost var s4 := s;
      LaterTransitive(s0, s3, s4);
      if answers.envWritten < |job.env| {
        return EnvOpen(upTo);
      }
      Others(others(2));
      ghost var s5 := s;
      LaterTransitive(s0, s4, s5);
      Act(upTo);
      LaterTransitive(s0, s5, s);
      return EnvClosed;
    }

    /** The part of scheduleTask that writes and closes the script under its temporary name. */
    method WriteTemp(job: Job, answers: Answers, others: nat -> seq<Action>) returns (pc: SchedulePc)
      requires Inv(s) && Ready(s, client) && s.clients[client].pc == EnvClosed
      requires job == s.clients[client].prog[s.clients[client].next]
      modifies this
      ensures Inv(s) && Later(old(s), s) && client in s.clients
        && s.clients[client] == old(s).clients[client].(pc := pc)
      ensures pc == if !answers.createTemp then EnvClosed
                    else if answers.scriptWritten < |job.script| then TempOpen(answers.scriptWritten)
                    else if !answers.close then TempOpen(|job.script|) else TempClosed
    {
      hide Inv, Later;
      ghost var s0 := s;
      Others(others(3));
      ghost var s1 := s;
      if !answers.createTemp {
        return EnvClosed;
      }
      Act(0);
      ghost var s2 := s;
      LaterTransitive(s0, s1, s2);
      Others(others(4));
      ghost var s3 := s;
      LaterTransitive(s0, s2, s3);
      var upTo := if answers.scriptWritten < |job.script| then answers.scriptWritten else |job.script|;
      WriteString(job.script, upTo);
      ghost var s4 := s;
      LaterTransitive(s0, s3, s4);
      if answers.scriptWritten < |job.script| || !answers.close {
        return TempOpen(upTo);
      }
      Others(others(5));
      ghost var s5 := s;
      LaterTransitive(s0, s4, s5);
      Act(upTo);
      LaterTransitive(s0, s5, s);
      return TempClosed;
    }

    /**
     * One scheduleTask after the other, until one fails: of the next n tasks the first ones are published,
     * all of them exactly if every call succeeded.
     */
    method ScheduleNext(n: nat, answers: nat -> Answers, others: nat -> nat -> seq<Action>) returns (ok: bool)
      requires Inv(s) && IsIdle(s, client) && s.clients[client].next + n <= |s.clients[client].prog|
      modifies this
      ensures Inv(s) && Later(old(s), s) && client in s.clients
      ensures var cl := old(s).clients[client];
              var jobs := cl.prog[cl.next..][..n];
              MovedOn(old(s), s, client, Succeeding(answers, jobs, 0), ok) && (ok <==> Succeeding(answers, jobs, 0) == n)
    {
      hide Inv, Later, Succeeds, Published, LeftBehind, Succeeding, Known;
      ghost var s0 := s;
      LaterReflexive(s);
      var cl := s.clients[client];
      ghost var jobs := cl.prog[cl.next..][..n];
      for i := 0 to n
        invariant Inv(s) && Later(s0, s) && client in s.clients
        invariant s.clients[client] == cl.(next := cl.next + i)
        invariant forall k :: 0 <= k < i ==> Succeeds(answers(k), jobs[k])
      {
        ghost var s1 := s;
        assert jobs[i] == cl.prog[cl.next + i];
        var scheduled := ScheduleTask(answers(i), others(i));
        AllGood(answers(i), jobs[i]);
        LaterTransitive(s0, s1, s);
        if !scheduled {
          StopsAtFirstFailure(answers, jobs, i);
          return false;
        }
      }
      StopsAtFirstFailure(answers, jobs, n);
      return true;
    }
  }
}
