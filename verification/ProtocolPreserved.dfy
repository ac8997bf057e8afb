/**
 * Every action keeps the protocol invariant. Each kind of action is first reduced to a relation between
 * the two states that names only what changes; the invariant's parts are then carried over that relation.
 */
module ProtocolPreserved {
  import opened Wrappers
  import opened Tasks
  import opened Naming
  import opened Protocol
  import opened ProtocolInvariant

  // ----- What the actions change -----

  /** Tasks stay known, with the same job, and published tasks stay published. */
  ghost predicate TasksGrow(s: State, s': State) {
    && (forall t :: Known(s, t) ==> Known(s', t) && JobOf(s', t) == JobOf(s, t))
    && (forall t :: Published(s, t) ==> Published(s', t))
  }

  /** A script that was on the share under its `.sh` name is still there, untouched. */
  ghost predicate ScriptKept(s: State, s': State, t: Tid) {
    ScriptName(t) in s.share ==> ScriptName(t) in s'.share && s'.share[ScriptName(t)] == s.share[ScriptName(t)]
  }

  /** A client's own file work and a script's own progress: the queues and the daemon do not notice. */
  ghost predicate QuietStep(s: State, s': State) {
    && TasksGrow(s, s')
    && (forall t :: Published(s', t) ==> Published(s, t))
    && s'.clock == s.clock && (forall t :: ScriptKept(s, s', t))
    && s'.queues == s.queues && s'.daemon == s.daemon && s'.log == s.log
    && s'.procs.Keys == s.procs.Keys
    && (forall t :: t in s.procs && Finished(s.procs[t]) ==> Finished(s'.procs[t]))
  }

  /** A script is renamed into place. */
  ghost predicate PublishStep(s: State, s': State, t0: Tid) {
    && TasksGrow(s, s')
    && Known(s, t0) && !Published(s, t0)
    && (forall t :: Published(s', t) <==> t == t0 || Published(s, t))
    && s'.procs == s.procs && s'.daemon == s.daemon && s'.log == s.log
    && s'.clock == s.clock + 1
    && ScriptName(t0) in s'.share && s'.share[ScriptName(t0)].ctime == s.clock
    && (forall t :: t != t0 ==> ScriptKept(s, s', t))
    && var step := JobOf(s, t0).step;
    var q := s.queues.Get(step);
    s'.queues == s.queues.Put(step, q.(published := q.published + [t0]))
  }

  /** The daemon lists a queue, skips a block, or notices that its script has ended. */
  ghost predicate ListStep(s: State, s': State) {
    && s'.clients == s.clients && s'.share == s.share && s'.clock == s.clock
    && s'.procs == s.procs && s'.log == s.log
    && (forall step :: s'.queues.Get(step).published == s.queues.Get(step).published)
    && (forall step :: s'.queues.Get(step).retired == s.queues.Get(step).retired)
    && (forall step :: s'.queues.Get(step).seen <= |s.queues.Get(step).published|
                       || s'.queues.Get(step).seen == s.queues.Get(step).seen)
    && (forall step :: StartedCount(s', step) == StartedCount(s, step))
  }

  /** The daemon starts the script it picked. */
  ghost predicate StartStep(s: State, s': State) {
    && s.daemon.pc.Exec? && s.daemon.current.Some?
    && var step, t0 := s.daemon.pc.step, s.daemon.current.value;
    && s'.clients == s.clients && s'.share == s.share && s'.clock == s.clock && s'.queues == s.queues
    && s'.procs == s.procs[t0 := Proc(Launched, false)]
    && s'.log == s.log + [Entry(step, t0)]
    && s'.daemon == s.daemon.(pc := if Foreground(step) then Wait(step) else Mv(step))
  }

  /** The daemon renames the script it holds to `.executed`. */
  ghost predicate RetireStep(s: State, s': State) {
    && s.daemon.pc.Mv? && s.daemon.current.Some?
    && var step, t0 := s.daemon.pc.step, s.daemon.current.value;
    && s'.clients == s.clients && s'.procs == s.procs && s'.log == s.log
    && s'.clock == s.clock + 1
    && (forall t :: t != t0 ==> ScriptKept(s, s', t))
    && s'.daemon == Advance(s.daemon)
    && var q := s.queues.Get(step);
    s'.queues == s.queues.Put(step, q.(retired := q.retired + 1))
  }

  lemma WriteDelta(s: State, c: nat, upTo: nat)
    requires ClientEnabled(s, c, upTo) && !s.clients[c].pc.TempClosed?
    ensures QuietStep(s, ClientNext(s, c, upTo))
  {
    hide TasksGrow;
    var s' := ClientNext(s, c, upTo);
    SameTasks(s, s', c);
    assert s'.share.Keys - s.share.Keys <= {Name(EnvFile, CurrentTask(s, c)), Name(TempFile, CurrentTask(s, c))};
  }

  lemma SameTasks(s: State, s': State, c: nat)
    requires c in s.clients && c in s'.clients && s'.clients == s.clients[c := s'.clients[c]]
    requires s'.clients[c].prog == s.clients[c].prog && s'.clients[c].next == s.clients[c].next
    ensures TasksGrow(s, s') && forall t :: Published(s', t) ==> Published(s, t)
  {
  }

  lemma PublishDelta(s: State, c: nat, upTo: nat)
    requires ClientEnabled(s, c, upTo) && s.clients[c].pc.TempClosed?
    ensures PublishStep(s, ClientNext(s, c, upTo), CurrentTask(s, c))
  {
  }

  lemma ProcDelta(s: State, t: Tid, event: ProcEvent)
    requires ProcEnabled(s, t, event)
    ensures QuietStep(s, ProcNext(s, t, event))
  {
  }

  lemma SpawnDelta(s: State, c: nat, cl: Client)
    requires if c in s.clients then cl == s.clients[c].(failed := true) else cl.next == 0
    ensures QuietStep(s, SetClient(s, c, cl))
  {
  }

  lemma ListDelta(s: State, pick: Option<Tid>)
    requires DaemonEnabled(s, pick) && (s.daemon.pc.Guard? || s.daemon.pc.Wait?)
    ensures ListStep(s, DaemonNext(s, pick))
  {
    hide IsHead;
    var s' := DaemonNext(s, pick);
    assert s'.daemon.pc.Guard? || s'.daemon.pc.Exec? || (s.daemon.pc.Wait? && s'.daemon.pc == Mv(s.daemon.pc.step));
  }

  lemma StartDelta(s: State, pick: Option<Tid>)
    requires DaemonEnabled(s, pick) && s.daemon.pc.Exec?
    ensures StartStep(s, DaemonNext(s, pick))
  {
  }

  lemma RetireDelta(s: State, pick: Option<Tid>)
    requires DaemonEnabled(s, pick) && s.daemon.pc.Mv?
    ensures RetireStep(s, DaemonNext(s, pick))
  {
  }

  // ----- Queue members -----

  lemma MembersKeptByPublish(s: State, s': State, t0: Tid, step: Step)
    requires MembersOk(s, step) && PublishStep(s, s', t0)
    ensures MembersOk(s', step)
  {
    hide ScriptKept, JobOf;
    var pub, pub' := s.queues.Get(step).published, s'.queues.Get(step).published;
    NextComesLast(s, t0, step);
    if JobOf(s, t0).step == step {
      assert pub' == pub + [t0];
    } else {
      assert pub' == pub;
    }
    forall t | Published(s', t) && JobOf(s', t).step == step ensures t in pub' {
      assert t != t0 ==> Published(s, t) && JobOf(s', t) == JobOf(s, t) && t in pub;
    }
  }

  lemma NextComesLast(s: State, t0: Tid, step: Step)
    requires MembersOk(s, step) && Known(s, t0) && !Published(s, t0)
    ensures var pub := s.queues.Get(step).published;
            forall k :: 0 <= k < |pub| ==> pub[k] != t0 && (pub[k].client == t0.client ==> pub[k].index < t0.index)
  {
    var pub := s.queues.Get(step).published;
    forall k | 0 <= k < |pub| ensures pub[k] != t0 && (pub[k].client == t0.client ==> pub[k].index < t0.index) {
      assert Published(s, pub[k]);
    }
  }

  lemma MembersKeptOtherwise(s: State, s': State, step: Step)
    requires MembersOk(s, step) && TasksGrow(s, s')
    requires forall t :: Published(s', t) ==> Published(s, t)
    requires s'.queues.Get(step).published == s.queues.Get(step).published
    ensures MembersOk(s', step)
  {
  }

  // ----- Queue progress -----

  lemma ProgressKeptQuietly(s: State, s': State, step: Step)
    requires ProgressOk(s, step) && (QuietStep(s, s') || ListStep(s, s'))
    ensures ProgressOk(s', step)
  {
    assert StartedCount(s', step) == StartedCount(s, step);
  }

  lemma ProgressKeptByPublish(s: State, s': State, t0: Tid, step: Step)
    requires ProgressOk(s, step) && ProcsOk(s) && PublishStep(s, s', t0)
    ensures ProgressOk(s', step)
  {
    assert t0 !in s.procs;
    assert StartedCount(s', step) == StartedCount(s, step);
  }

  lemma ProgressKeptByStart(s: State, s': State, step: Step)
    requires QueueOk(s, step) && MembersOk(s, s.daemon.pc.step) && DaemonOk(s) && StartStep(s, s')
    ensures ProgressOk(s', step)
  {
    var pub := s.queues.Get(step).published;
    assert StartedCount(s', step) == StartedCount(s, step) + if step == s.daemon.pc.step then 1 else 0;
    forall k | 0 <= k < |pub| ensures pub[k] in s'.procs <==> k < StartedCount(s', step) {
      CurrentIsHead(s, step, k);
    }
    forall k | 0 <= k < s.queues.Get(step).retired && Foreground(step) ensures Finished(s'.procs[pub[k]]) {
      CurrentIsHead(s, step, k);
    }
  }

  lemma ProgressKeptByRetire(s: State, s': State, step: Step)
    requires ProgressOk(s, step) && DaemonOk(s) && RetireStep(s, s')
    ensures ProgressOk(s', step)
  {
    assert StartedCount(s', step) == StartedCount(s, step);
  }

  // ----- Times -----

  lemma IncreasingKept(s: State, s': State, tasks: seq<Tid>)
    requires Increasing(s.share, s.clock, tasks) && s.clock <= s'.clock
    requires forall k :: 0 <= k < |tasks| ==> ScriptKept(s, s', tasks[k])
    ensures Increasing(s'.share, s'.clock, tasks)
  {
  }

  lemma TimesKeptQuietly(s: State, s': State, step: Step)
    requires TimesOk(s, step) && (QuietStep(s, s') || ListStep(s, s') || StartStep(s, s'))
    ensures TimesOk(s', step)
  {
    assert Waiting(s'.queues.Get(step)) == Waiting(s.queues.Get(step));
    IncreasingKept(s, s', Waiting(s.queues.Get(step)));
  }

  lemma IncreasingExtended(s: State, tasks: seq<Tid>, clock: nat, t0: Tid)
    requires Increasing(s.share, clock, tasks) && clock < s.clock
    requires ScriptName(t0) in s.share && s.share[ScriptName(t0)].ctime == clock
    ensures Increasing(s.share, s.clock, tasks + [t0])
  {
    var longer := tasks + [t0];
    assert forall k :: 0 <= k < |longer| ==> longer[k] == if k < |tasks| then tasks[k] else t0;
  }

  lemma WaitingKeptByPublish(s: State, s': State, t0: Tid, step: Step)
    requires MembersOk(s, step) && PublishStep(s, s', t0)
    ensures forall k :: 0 <= k < |Waiting(s.queues.Get(step))| ==> ScriptKept(s, s', Waiting(s.queues.Get(step))[k])
  {
    var w := Waiting(s.queues.Get(step));
    forall k | 0 <= k < |w| ensures w[k] != t0 {
      assert w[k] in s.queues.Get(step).published;
    }
  }

  lemma TimesKeptByPublish(s: State, s': State, t0: Tid, step: Step)
    requires TimesOk(s, step) && MembersOk(s, step) && ProgressOk(s, step) && PublishStep(s, s', t0)
    ensures TimesOk(s', step)
  {
    var w := Waiting(s.queues.Get(step));
    WaitingKeptByPublish(s, s', t0, step);
    IncreasingKept(s, s', w);
    if JobOf(s, t0).step == step {
      assert Increasing(s'.share, s.clock, w) by {
        assert forall k :: 0 <= k < |w| ==> ScriptKept(s, s', w[k]);
      }
      IncreasingExtended(s', w, s.clock, t0);
      WaitingAppended(s.queues.Get(step), t0);
      assert s'.queues.Get(step) == s.queues.Get(step).(published := s.queues.Get(step).published + [t0]);
    }
  }

  lemma WaitingAppended(q: Queue, t0: Tid)
    requires q.retired <= |q.published|
    ensures Waiting(q.(published := q.published + [t0])) == Waiting(q) + [t0]
  {
  }

  lemma TimesKeptByRetire(s: State, s': State, step: Step)
    requires TimesOk(s, step) && MembersOk(s, step) && MembersOk(s, s.daemon.pc.step) && DaemonOk(s)
    requires ProgressOk(s, step) && RetireStep(s, s')
    ensures TimesOk(s', step)
  {
    hide ScriptKept, MembersOk, Published;
    var q, w := s.queues.Get(step), Waiting(s.queues.Get(step));
    var first := if step == s.daemon.pc.step then 1 else 0;
    var rest := w[first..];
    assert Increasing(s.share, s.clock, rest);
    forall k | 0 <= k < |rest| ensures ScriptKept(s, s', rest[k]) {
      CurrentIsHead(s, step, q.retired + first + k);
    }
    IncreasingKept(s, s', rest);
    assert Waiting(s'.queues.Get(step)) == rest;
  }

  // ----- Log -----

  lemma LogKeptByStart(s: State, s': State, step: Step)
    requires LogOk(s, step) && DaemonOk(s) && ProgressOk(s, step) && StartStep(s, s')
    ensures LogOk(s', step)
  {
    assert s'.log[..|s'.log| - 1] == s.log;
    var q := s.queues.Get(step);
    if step == s.daemon.pc.step {
      assert q.published[..q.retired + 1] == q.published[..q.retired] + [q.published[q.retired]];
    }
  }

  lemma LogKeptOtherwise(s: State, s': State, step: Step)
    requires LogOk(s, step) && s'.log == s.log
    requires StartedCount(s', step) == StartedCount(s, step)
    requires s.queues.Get(step).published <= s'.queues.Get(step).published
    ensures LogOk(s', step)
  {
  }

  // ----- Daemon -----

  lemma DaemonKeptByList(s: State, pick: Option<Tid>)
    requires QueueOk(s, s.daemon.pc.step) && TimesOk(s, s.daemon.pc.step) && DaemonOk(s) && FilesOk(s)
    requires DaemonEnabled(s, pick) && s.daemon.pc.Guard? && !Skips(s.daemon)
    ensures DaemonOk(DaemonNext(s, pick))
  {
    PickIsQueueHead(s, s.daemon.pc.step, pick);
  }

  lemma DaemonKeptBySkip(s: State, pick: Option<Tid>)
    requires DaemonOk(s) && DaemonEnabled(s, pick) && (Skips(s.daemon) || s.daemon.pc.Wait?)
    ensures DaemonOk(DaemonNext(s, pick))
  {
  }

  lemma DaemonKeptByStart(s: State, s': State)
    requires DaemonOk(s) && StartStep(s, s')
    ensures DaemonOk(s')
  {
  }

  lemma DaemonKeptByRetire(s: State, s': State)
    requires DaemonOk(s) && RetireStep(s, s')
    ensures DaemonOk(s')
  {
  }

  lemma DaemonKeptOtherwise(s: State, s': State, t0: Tid)
    requires DaemonOk(s) && (QuietStep(s, s') || PublishStep(s, s', t0))
    ensures DaemonOk(s')
  {
  }

  // ----- Files -----

  /** A client's step concerns only the files of the task it is scheduling. */
  lemma OtherFileKeptByClient(s: State, c: nat, upTo: nat, n: Name)
    requires ClientEnabled(s, c, upTo) && n.task != CurrentTask(s, c) && Agrees(s, n)
    ensures Agrees(ClientNext(s, c, upTo), n)
  {
    var s' := ClientNext(s, c, upTo);
    assert n in s'.share <==> n in s.share;
    assert n in s.share ==> s'.share[n] == s.share[n];
    assert s'.procs == s.procs && s'.daemon == s.daemon;
    assert s'.clients == s.clients[c := s'.clients[c]] && SameTaskOrNext(s.clients[c], s'.clients[c]);
    OtherExpectedKept(s, s', c, n);
  }

  predicate SameTaskOrNext(cl: Client, cl': Client) {
    cl'.prog == cl.prog && (cl'.next == cl.next || (cl'.next == cl.next + 1 && cl'.pc == Idle))
  }

  lemma OtherExpectedKept(s: State, s': State, c: nat, n: Name)
    requires c in s.clients && n.task != CurrentTask(s, c) && s'.procs == s.procs && s'.daemon == s.daemon
    requires exists cl :: s'.clients == s.clients[c := cl] && SameTaskOrNext(s.clients[c], cl)
    ensures Expected(s', n) == Expected(s, n)
  {
  }

  lemma OwnFileKeptByWrite(s: State, c: nat, upTo: nat, n: Name)
    requires ClientEnabled(s, c, upTo) && ClientOk(s.clients[c]) && !s.clients[c].pc.TempClosed?
    requires n.kind != ArchiveFile && n.task == CurrentTask(s, c) && n.task !in s.procs && Agrees(s, n)
    ensures Agrees(ClientNext(s, c, upTo), n)
  {
    var cl, job := s.clients[c], s.clients[c].prog[s.clients[c].next];
    assert cl.pc.EnvOpen? ==> job.env[..|job.env|] == job.env;
    assert cl.pc.TempOpen? ==> job.script[..|job.script|] == job.script;
    if n.kind != EnvFile && n.kind != TempFile {
      assert Expected(s, n).None?;
    }
  }

  lemma OwnFileKeptByPublish(s: State, c: nat, upTo: nat, n: Name)
    requires ClientEnabled(s, c, upTo) && s.clients[c].pc.TempClosed?
    requires n.kind != ArchiveFile && n.task == CurrentTask(s, c) && n.task !in s.procs && Agrees(s, n)
    requires Agrees(s, Name(TempFile, n.task))
    ensures Agrees(ClientNext(s, c, upTo), n)
  {
  }

  lemma FileKeptBySpawn(s: State, c: nat, cl: Client, n: Name)
    requires if c in s.clients then cl == s.clients[c].(failed := true) else cl == Client(cl.prog, 0, Idle, false)
    requires n.task in s.procs ==> Published(s, n.task)
    requires Agrees(s, n)
    ensures Agrees(SetClient(s, c, cl), n)
  {
  }

  lemma FileKeptByProc(s: State, t: Tid, event: ProcEvent, n: Name)
    requires ProcEnabled(s, t, event) && Published(s, t)
    requires n.kind != ArchiveFile && Agrees(s, n)
    ensures Agrees(ProcNext(s, t, event), n)
  {
    if n.task == t && (n.kind == PidFile || n.kind == ExitFile) {
      RecordKeptByProc(s, t, event, n);
    } else {
      var s' := ProcNext(s, t, event);
      assert s'.clients == s.clients && s'.daemon == s.daemon && s'.procs.Keys == s.procs.Keys;
      assert Expected(s', n) == Expected(s, n);
    }
  }

  lemma RecordKeptByProc(s: State, t: Tid, event: ProcEvent, n: Name)
    requires ProcEnabled(s, t, event) && Published(s, t)
    requires n.task == t && (n.kind == PidFile || n.kind == ExitFile) && Agrees(s, n)
    ensures Agrees(ProcNext(s, t, event), n)
  {
  }

  lemma FileKeptByList(s: State, pick: Option<Tid>, n: Name)
    requires DaemonOk(s) && DaemonEnabled(s, pick) && !s.daemon.pc.Exec? && !s.daemon.pc.Mv?
    requires Agrees(s, n)
    ensures Agrees(DaemonNext(s, pick), n)
  {
    hide Agrees;
    InHandByList(s, pick, n.task);
    FileKeptInHand(s, DaemonNext(s, pick), n);
  }

  lemma InHandByList(s: State, pick: Option<Tid>, t: Tid)
    requires DaemonOk(s) && DaemonEnabled(s, pick) && !s.daemon.pc.Exec? && !s.daemon.pc.Mv?
    ensures InHand(DaemonNext(s, pick), t) <==> InHand(s, t)
  {
    hide IsHead;
  }

  lemma FileKeptInHand(s: State, s': State, n: Name)
    requires s'.clients == s.clients && s'.procs == s.procs && s'.share == s.share
    requires (InHand(s', n.task) <==> InHand(s, n.task)) && Agrees(s, n)
    ensures Agrees(s', n)
  {
    hide InHand;
    assert Expected(s', n) == Expected(s, n);
  }

  lemma FileKeptByStart(s: State, s': State, n: Name)
    requires MembersOk(s, s.daemon.pc.step) && ProgressOk(s, s.daemon.pc.step) && DaemonOk(s)
    requires StartStep(s, s') && Agrees(s, n)
    ensures Agrees(s', n)
  {
    var t0 := s.daemon.current.value;
    assert t0 !in s.procs && Published(s, t0);
    if n.task != t0 {
      assert Retired(s', n.task) <==> Retired(s, n.task);
    }
    assert Expected(s', n) == Expected(s, n);
  }

  lemma FileKeptByMv(s: State, pick: Option<Tid>, n: Name)
    requires MembersOk(s, s.daemon.pc.step) && ProgressOk(s, s.daemon.pc.step) && DaemonOk(s)
    requires DaemonEnabled(s, pick) && s.daemon.pc.Mv?
    requires Agrees(s, n) && Agrees(s, ScriptName(s.daemon.current.value))
    ensures Agrees(DaemonNext(s, pick), n)
  {
    var s' := DaemonNext(s, pick);
    var t0 := s.daemon.current.value;
    assert t0 in s.procs && Published(s, t0);
    if n.task != t0 {
      assert Retired(s', n.task) <==> Retired(s, n.task);
      assert Expected(s', n) == Expected(s, n);
    }
  }

  // ----- The invariant -----

  lemma QuietKeepsQueue(s: State, s': State, step: Step)
    requires QueueOk(s, step) && TimesOk(s, step) && LogOk(s, step) && (QuietStep(s, s') || ListStep(s, s'))
    ensures QueueOk(s', step) && TimesOk(s', step) && LogOk(s', step)
  {
    assert TasksGrow(s, s');
    MembersKeptOtherwise(s, s', step);
    ProgressKeptQuietly(s, s', step);
    TimesKeptQuietly(s, s', step);
    LogKeptOtherwise(s, s', step);
  }

  lemma PublishKeepsQueue(s: State, s': State, t0: Tid, step: Step)
    requires QueueOk(s, step) && TimesOk(s, step) && LogOk(s, step) && ProcsOk(s) && PublishStep(s, s', t0)
    ensures QueueOk(s', step) && TimesOk(s', step) && LogOk(s', step)
  {
    hide MembersOk, ProgressOk, TimesOk, ProcsOk;
    MembersKeptByPublish(s, s', t0, step);
    ProgressKeptByPublish(s, s', t0, step);
    TimesKeptByPublish(s, s', t0, step);
    LogKeptOtherwise(s, s', step);
  }

  lemma StartKeepsQueue(s: State, s': State, step: Step)
    requires QueueOk(s, step) && TimesOk(s, step) && LogOk(s, step) && QueueOk(s, s.daemon.pc.step) && DaemonOk(s)
    requires StartStep(s, s')
    ensures QueueOk(s', step) && TimesOk(s', step) && LogOk(s', step)
  {
    MembersKeptOtherwise(s, s', step);
    ProgressKeptByStart(s, s', step);
    TimesKeptQuietly(s, s', step);
    LogKeptByStart(s, s', step);
  }

  lemma RetireKeepsQueue(s: State, s': State, step: Step)
    requires QueueOk(s, step) && TimesOk(s, step) && LogOk(s, step) && QueueOk(s, s.daemon.pc.step) && DaemonOk(s)
    requires RetireStep(s, s')
    ensures QueueOk(s', step) && TimesOk(s', step) && LogOk(s', step)
  {
    hide MembersOk, ProgressOk, TimesOk, DaemonOk;
    MembersKeptOtherwise(s, s', step);
    ProgressKeptByRetire(s, s', step);
    TimesKeptByRetire(s, s', step);
    LogKeptOtherwise(s, s', step);
  }

  lemma QueuesKeptByDaemon(s: State, pick: Option<Tid>)
    requires QueuesOk(s) && DaemonOk(s) && DaemonEnabled(s, pick)
    ensures QueuesOk(DaemonNext(s, pick))
  {
    var s' := DaemonNext(s, pick);
    assert QueueOk(s, s.daemon.pc.step);
    if s.daemon.pc.Exec? {
      StartDelta(s, pick);
      forall step ensures QueueOk(s', step) && TimesOk(s', step) && LogOk(s', step) { StartKeepsQueue(s, s', step); }
    } else if s.daemon.pc.Mv? {
      RetireDelta(s, pick);
      forall step ensures QueueOk(s', step) && TimesOk(s', step) && LogOk(s', step) { RetireKeepsQueue(s, s', step); }
    } else {
      ListDelta(s, pick);
      forall step ensures QueueOk(s', step) && TimesOk(s', step) && LogOk(s', step) { QuietKeepsQueue(s, s', step); }
    }
  }

  lemma QueuesKeptQuietly(s: State, s': State)
    requires QueuesOk(s) && QuietStep(s, s')
    ensures QueuesOk(s')
  {
    forall step ensures QueueOk(s', step) && TimesOk(s', step) && LogOk(s', step) { QuietKeepsQueue(s, s', step); }
  }

  lemma QueuesKeptByPublish(s: State, s': State, t0: Tid)
    requires QueuesOk(s) && ProcsOk(s) && PublishStep(s, s', t0)
    ensures QueuesOk(s')
  {
    forall step ensures QueueOk(s', step) && TimesOk(s', step) && LogOk(s', step) { PublishKeepsQueue(s, s', t0, step); }
  }

  lemma FilesKeptByClient(s: State, c: nat, upTo: nat)
    requires FilesOk(s) && ProcsOk(s) && ClientEnabled(s, c, upTo) && ClientOk(s.clients[c])
    ensures FilesOk(ClientNext(s, c, upTo))
  {
    hide Agrees, ClientOk;
    var t0 := CurrentTask(s, c);
    assert t0 !in s.procs && Agrees(s, Name(TempFile, t0));
    forall n: Name | n.kind != ArchiveFile ensures Agrees(ClientNext(s, c, upTo), n) {
      FileKeptByClient(s, c, upTo, n);
    }
    ArchivesKeptByClient(s, c, upTo);
  }

  lemma FileKeptByClient(s: State, c: nat, upTo: nat, n: Name)
    requires ClientEnabled(s, c, upTo) && ClientOk(s.clients[c]) && CurrentTask(s, c) !in s.procs
    requires n.kind != ArchiveFile && Agrees(s, n) && Agrees(s, Name(TempFile, CurrentTask(s, c)))
    ensures Agrees(ClientNext(s, c, upTo), n)
  {
    hide ClientNext, Agrees;
    if n.task != CurrentTask(s, c) { OtherFileKeptByClient(s, c, upTo, n); }
    else if s.clients[c].pc.TempClosed? { OwnFileKeptByPublish(s, c, upTo, n); }
    else { OwnFileKeptByWrite(s, c, upTo, n); }
  }

  lemma ArchivesKeptByClient(s: State, c: nat, upTo: nat)
    requires FilesOk(s) && ClientEnabled(s, c, upTo)
    ensures forall n: Name :: n in ClientNext(s, c, upTo).share && n.kind == ArchiveFile
                              ==> ArchiveOk(ClientNext(s, c, upTo), n.task)
  {
    hide Agrees;
    var s' := ClientNext(s, c, upTo);
    forall n: Name | n in s'.share && n.kind == ArchiveFile ensures ArchiveOk(s', n.task) {
      assert n in s.share && ArchiveOk(s, n.task);
    }
  }

  lemma FilesKeptByProc(s: State, t: Tid, event: ProcEvent)
    requires FilesOk(s) && ProcsOk(s) && ProcEnabled(s, t, event)
    ensures FilesOk(ProcNext(s, t, event))
  {
    assert Published(s, t);
    forall n: Name | n.kind != ArchiveFile ensures Agrees(ProcNext(s, t, event), n) {
      assert Agrees(s, n);
      FileKeptByProc(s, t, event, n);
    }
  }

  lemma FilesKeptBySpawn(s: State, c: nat, cl: Client)
    requires if c in s.clients then cl == s.clients[c].(failed := true) else cl == Client(cl.prog, 0, Idle, false)
    requires FilesOk(s) && ProcsOk(s)
    ensures FilesOk(SetClient(s, c, cl))
  {
    forall n: Name | n.kind != ArchiveFile ensures Agrees(SetClient(s, c, cl), n) {
      assert Agrees(s, n);
      FileKeptBySpawn(s, c, cl, n);
    }
  }

  lemma FilesKeptByDaemon(s: State, pick: Option<Tid>)
    requires FilesOk(s) && QueueOk(s, s.daemon.pc.step) && DaemonOk(s) && DaemonEnabled(s, pick)
    ensures FilesOk(DaemonNext(s, pick))
  {
    hide Agrees, QueueOk;
    forall n: Name | n.kind != ArchiveFile ensures Agrees(DaemonNext(s, pick), n) {
      assert s.daemon.pc.Mv? ==> Agrees(s, ScriptName(s.daemon.current.value));
      FileKeptByDaemon(s, pick, n);
    }
    ArchivesKeptByDaemon(s, pick);
  }

  lemma FileKeptByDaemon(s: State, pick: Option<Tid>, n: Name)
    requires QueueOk(s, s.daemon.pc.step) && DaemonOk(s) && DaemonEnabled(s, pick)
    requires n.kind != ArchiveFile && Agrees(s, n)
    requires s.daemon.pc.Mv? ==> Agrees(s, ScriptName(s.daemon.current.value))
    ensures Agrees(DaemonNext(s, pick), n)
  {
    hide Agrees, DaemonNext, MembersOk, ProgressOk;
    match s.daemon.pc
    case Exec(_) =>
      StartDelta(s, pick);
      FileKeptByStart(s, DaemonNext(s, pick), n);
    case Mv(_) => FileKeptByMv(s, pick, n);
    case _ => FileKeptByList(s, pick, n);
  }

  lemma ArchivesKeptByDaemon(s: State, pick: Option<Tid>)
    requires FilesOk(s) && DaemonEnabled(s, pick)
    ensures forall n: Name :: n in DaemonNext(s, pick).share && n.kind == ArchiveFile
                              ==> ArchiveOk(DaemonNext(s, pick), n.task)
  {
    hide Agrees, IsHead;
    var s' := DaemonNext(s, pick);
    forall n: Name | n in s'.share && n.kind == ArchiveFile ensures ArchiveOk(s', n.task) {
      assert n in s.share && ArchiveOk(s, n.task);
    }
  }

  lemma ClientsKept(s: State, a: Action)
    requires ClientsOk(s) && Enabled(s, a)
    ensures ClientsOk(Next(s, a))
  {
  }

  lemma UuidsKept(s: State, s': State)
    requires UuidsOk(s) && TasksGrow(s, s')
    requires forall t :: Known(s', t) ==> Known(s, t)
    ensures UuidsOk(s')
  {
    forall t ensures UuidSized(s', t) {
      assert UuidSized(s, t);
    }
    forall t1, t2 ensures UuidsDiffer(s', t1, t2) {
      assert UuidsDiffer(s, t1, t2);
    }
  }

  lemma UuidsKeptByWrite(s: State, c: nat, upTo: nat)
    requires UuidsOk(s) && ClientEnabled(s, c, upTo)
    ensures UuidsOk(ClientNext(s, c, upTo))
  {
    var s' := ClientNext(s, c, upTo);
    assert s'.clients.Keys == s.clients.Keys && s'.clients[c].prog == s.clients[c].prog;
    UuidsKept(s, s');
  }

  lemma UuidsKeptBySpawn(s: State, c: nat, prog: seq<Job>)
    requires UuidsOk(s) && SpawnEnabled(s, c, prog)
    ensures UuidsOk(SetClient(s, c, Client(prog, 0, Idle, false)))
  {
    var s' := SetClient(s, c, Client(prog, 0, Idle, false));
    forall t ensures UuidSized(s', t) {
      assert UuidSized(s, t);
    }
    forall t1, t2 ensures UuidsDiffer(s', t1, t2) {
      assert UuidsDiffer(s, t1, t2);
      if Known(s', t1) && Known(s', t2) && t1 != t2 {
        if t1.client != c && t2.client == c { assert Unused(s, JobOf(s', t2)); }
        if t2.client != c && t1.client == c { assert Unused(s, JobOf(s', t1)); }
      }
    }
  }

  lemma DaemonKept(s: State, pick: Option<Tid>)
    requires QueuesOk(s) && DaemonOk(s) && FilesOk(s) && DaemonEnabled(s, pick)
    ensures DaemonOk(DaemonNext(s, pick))
  {
    var s' := DaemonNext(s, pick);
    var at := s.daemon.pc.step;
    assert QueueOk(s, at) && TimesOk(s, at);
    if s.daemon.pc.Exec? {
      StartDelta(s, pick);
      DaemonKeptByStart(s, s');
    } else if s.daemon.pc.Mv? {
      RetireDelta(s, pick);
      DaemonKeptByRetire(s, s');
    } else if Skips(s.daemon) || s.daemon.pc.Wait? {
      DaemonKeptBySkip(s, pick);
    } else {
      DaemonKeptByList(s, pick);
    }
  }

  lemma ProcsKeptByDaemon(s: State, pick: Option<Tid>)
    requires ProcsOk(s) && MembersOk(s, s.daemon.pc.step) && DaemonOk(s) && DaemonEnabled(s, pick)
    ensures ProcsOk(DaemonNext(s, pick))
  {
    var s' := DaemonNext(s, pick);
    assert s'.clients == s.clients;
    if s.daemon.pc.Exec? {
      assert Published(s, s.daemon.current.value);
      assert s'.procs.Keys == s.procs.Keys + {s.daemon.current.value};
    } else {
      assert s'.procs == s.procs;
    }
  }

  lemma DaemonStepKeepsInv(s: State, pick: Option<Tid>)
    requires Inv(s) && DaemonEnabled(s, pick)
    ensures Inv(DaemonNext(s, pick))
  {
    hide TimesOk, LogOk, DaemonOk, FilesOk, IsHead, ClientOk, UuidsOk, ProcsOk;
    assert QueueOk(s, s.daemon.pc.step);
    assert DaemonNext(s, pick).clients == s.clients;
    UuidsKept(s, DaemonNext(s, pick));
    ProcsKeptByDaemon(s, pick);
    QueuesKeptByDaemon(s, pick);
    DaemonKept(s, pick);
    FilesKeptByDaemon(s, pick);
  }

  lemma PublishKeepsInv(s: State, c: nat, upTo: nat)
    requires Inv(s) && ClientEnabled(s, c, upTo) && s.clients[c].pc.TempClosed?
    ensures Inv(ClientNext(s, c, upTo))
  {
    var s' := ClientNext(s, c, upTo);
    var t0 := CurrentTask(s, c);
    PublishDelta(s, c, upTo);
    ClientsKept(s, ClientStep(c, upTo));
    UuidsKept(s, s');
    QueuesKeptByPublish(s, s', t0);
    DaemonKeptOtherwise(s, s', t0);
    FilesKeptByClient(s, c, upTo);
  }

  lemma WriteKeepsInv(s: State, c: nat, upTo: nat)
    requires Inv(s) && ClientEnabled(s, c, upTo) && !s.clients[c].pc.TempClosed?
    ensures Inv(ClientNext(s, c, upTo))
  {
    var s' := ClientNext(s, c, upTo);
    WriteDelta(s, c, upTo);
    ClientsKept(s, ClientStep(c, upTo));
    UuidsKeptByWrite(s, c, upTo);
    QueuesKeptQuietly(s, s');
    DaemonKeptOtherwise(s, s', CurrentTask(s, c));
    FilesKeptByClient(s, c, upTo);
  }

  lemma ProcStepKeepsInv(s: State, t: Tid, event: ProcEvent)
    requires Inv(s) && ProcEnabled(s, t, event)
    ensures Inv(ProcNext(s, t, event))
  {
    var s' := ProcNext(s, t, event);
    ProcDelta(s, t, event);
    QueuesKeptQuietly(s, s');
    UuidsKept(s, s');
    DaemonKeptOtherwise(s, s', t);
    FilesKeptByProc(s, t, event);
  }

  lemma SpawnKeepsInv(s: State, c: nat, prog: seq<Job>)
    requires Inv(s) && SpawnEnabled(s, c, prog)
    ensures Inv(SetClient(s, c, Client(prog, 0, Idle, false)))
  {
    var cl := Client(prog, 0, Idle, false);
    SpawnDelta(s, c, cl);
    QueuesKeptQuietly(s, SetClient(s, c, cl));
    UuidsKeptBySpawn(s, c, prog);
    DaemonKeptOtherwise(s, SetClient(s, c, cl), Tid(c, 0));
    FilesKeptBySpawn(s, c, cl);
  }

  lemma FailKeepsInv(s: State, c: nat)
    requires Inv(s) && c in s.clients
    ensures Inv(SetClient(s, c, s.clients[c].(failed := true)))
  {
    var cl := s.clients[c].(failed := true);
    SpawnDelta(s, c, cl);
    QueuesKeptQuietly(s, SetClient(s, c, cl));
    UuidsKept(s, SetClient(s, c, cl));
    DaemonKeptOtherwise(s, SetClient(s, c, cl), Tid(c, 0));
    FilesKeptBySpawn(s, c, cl);
  }

  lemma InvKept(s: State, a: Action)
    requires Inv(s) && Enabled(s, a)
    ensures Inv(Next(s, a))
  {
    match a
    case Spawn(c, prog) => SpawnKeepsInv(s, c, prog);
    case ClientStep(c, upTo) =>
      if s.clients[c].pc.TempClosed? { PublishKeepsInv(s, c, upTo); } else { WriteKeepsInv(s, c, upTo); }
    case ClientFail(c) => FailKeepsInv(s, c);
    case DaemonStep(pick) => DaemonStepKeepsInv(s, pick);
    case ProcStep(t, event) => ProcStepKeepsInv(s, t, event);
  }

  /** Every state of every execution satisfies the invariant. */
  lemma {:induction false} ReachableInv(e: Execution, i: nat)
    requires IsExecution(e) && i < |e.states|
    ensures Inv(e.states[i])
  {
    if i == 0 {
      var clock: nat :| e.states[0] == Initial(clock);
      InitialInv(clock);
    } else {
      ReachableInv(e, i - 1);
      InvKept(e.states[i - 1], e.actions[i - 1]);
    }
  }
}
