/** What every reachable state of the protocol satisfies. */
module ProtocolInvariant {
  import opened Wrappers
  import opened Decimal
  import opened Tasks
  import opened Naming
  import opened Protocol

  // ----- The share as a function of the control state -----

  function EnvSoFar(job: Job, pc: SchedulePc): Option<string> {
    match pc
    case Idle => None
    case EnvOpen(n) => if n <= |job.env| then Some(job.env[..n]) else None
    case _ => Some(job.env)
  }

  function TempSoFar(job: Job, pc: SchedulePc): Option<string> {
    match pc
    case TempOpen(n) => if n <= |job.script| then Some(job.script[..n]) else None
    case TempClosed => Some(job.script)
    case _ => None
  }

  function PidText(p: Phase): Option<string> {
    match p
    case Launched => None
    case PidOpen(_) => Some("")
    case _ => Some(EchoLine(p.pid))
  }

  function ExitText(p: Phase): Option<string> {
    match p
    case ExitOpen(_, _) => Some("")
    case Complete(_, code) => Some(EchoLine(code))
    case _ => None
  }

  function Expected(s: State, n: Name): Option<string> {
    if !Known(s, n.task) then None else
    var cl := s.clients[n.task.client];
    var job := cl.prog[n.task.index];
    match n.kind
    case EnvFile =>
      if n.task.index < cl.next then Some(job.env)
      else if n.task.index == cl.next then EnvSoFar(job, cl.pc) else None
    case TempFile => if n.task.index == cl.next then TempSoFar(job, cl.pc) else None
    case ScriptFile => if Published(s, n.task) && !Retired(s, n.task) then Some(job.script) else None
    case ExecutedFile => if Retired(s, n.task) then Some(job.script) else None
    case PidFile => if n.task in s.procs then PidText(s.procs[n.task].phase) else None
    case ExitFile => if n.task in s.procs then ExitText(s.procs[n.task].phase) else None
    case ArchiveFile => None
  }

  predicate Agrees(s: State, n: Name) {
    match Expected(s, n)
    case None => n !in s.share
    case Some(text) => n in s.share && s.share[n].content == text
  }

  /** Only a script that was started for a task with an archive has one. */
  predicate ArchiveOk(s: State, t: Tid) {
    t in s.procs && Known(s, t) && JobOf(s, t).archive != ""
  }

  ghost predicate FilesOk(s: State) {
    && (forall n: Name :: n.kind != ArchiveFile ==> Agrees(s, n))
    && (forall n: Name :: n in s.share && n.kind == ArchiveFile ==> ArchiveOk(s, n.task))
  }

  // ----- Clients, processes, daemon -----

  predicate ClientOk(cl: Client) {
    && cl.next <= |cl.prog|
    && (cl.next == |cl.prog| ==> cl.pc == Idle)
    && (cl.pc.EnvOpen? ==> cl.pc.n <= |cl.prog[cl.next].env|)
    && (cl.pc.TempOpen? ==> cl.pc.n <= |cl.prog[cl.next].script|)
  }

  ghost predicate ClientsOk(s: State) {
    forall c :: c in s.clients ==> ClientOk(s.clients[c])
  }

  predicate UuidsDiffer(s: State, t1: Tid, t2: Tid) {
    Known(s, t1) && Known(s, t2) && t1 != t2 ==> Apart(JobOf(s, t1), JobOf(s, t2))
  }

  predicate UuidSized(s: State, t: Tid) {
    Known(s, t) ==> |JobOf(s, t).uuid| == UUID_LENGTH
  }

  ghost predicate UuidsOk(s: State) {
    (forall t :: UuidSized(s, t)) && (forall t1, t2 :: UuidsDiffer(s, t1, t2))
  }

  /** Scripts started from the queue: the retired ones and the one in hand. */
  function StartedCount(s: State, step: Step): nat {
    s.queues.Get(step).retired + if s.daemon.pc == Wait(step) || s.daemon.pc == Mv(step) then 1 else 0
  }

  /** A queue holds the published tasks of its step, once each, every client's own in program order. */
  ghost predicate MembersOk(s: State, step: Step) {
    var pub := s.queues.Get(step).published;
    && (forall k :: 0 <= k < |pub| ==> Published(s, pub[k]) && JobOf(s, pub[k]).step == step)
    && (forall j, k :: 0 <= j < k < |pub| && pub[j].client == pub[k].client ==> pub[j].index < pub[k].index)
    && (forall t :: Published(s, t) && JobOf(s, t).step == step ==> t in pub)
  }

  /** The started tasks are a prefix of the published ones, and foreground scripts retire only when finished. */
  ghost predicate ProgressOk(s: State, step: Step) {
    var q := s.queues.Get(step);
    var pub := q.published;
    && q.retired <= StartedCount(s, step) <= |pub|
    && q.seen <= |pub|
    && (forall k :: 0 <= k < |pub| ==> (pub[k] in s.procs <==> k < StartedCount(s, step)))
    && (Foreground(step) ==> forall k :: 0 <= k < q.retired ==> pub[k] in s.procs && Finished(s.procs[pub[k]]))
  }

  ghost predicate QueueOk(s: State, step: Step) {
    MembersOk(s, step) && ProgressOk(s, step)
  }

  /** The scripts of these tasks are on the share with strictly increasing times, all of them past. */
  ghost predicate Increasing(share: map<Name, File>, clock: nat, tasks: seq<Tid>) {
    && (forall k :: 0 <= k < |tasks| ==> ScriptName(tasks[k]) in share && share[ScriptName(tasks[k])].ctime < clock)
    && (forall j, k :: 0 <= j < k < |tasks| ==> share[ScriptName(tasks[j])].ctime < share[ScriptName(tasks[k])].ctime)
  }

  /** The tasks of a queue whose scripts still carry the `.sh` name, oldest first. */
  function Waiting(q: Queue): seq<Tid> {
    if q.retired <= |q.published| then q.published[q.retired..] else []
  }

  ghost predicate TimesOk(s: State, step: Step) {
    Increasing(s.share, s.clock, Waiting(s.queues.Get(step)))
  }

  ghost predicate ProcsOk(s: State) {
    forall t :: t in s.procs ==> Published(s, t)
  }

  /** Everything that this iteration's listing of the queue could show has been retired. */
  predicate Settled(s: State, step: Step) {
    s.queues.Get(step).retired == s.queues.Get(step).seen
  }

  ghost predicate DaemonOk(s: State) {
    var d := s.daemon;
    var q := s.queues.Get(d.pc.step);
    && (!d.pc.Guard? ==>
      && !d.haveDone
      && q.retired < |q.published|
      && q.retired < q.seen
      && d.current == Some(q.published[q.retired]))
    && (d.pc.Wait? ==> Foreground(d.pc.step))
    && (d.pc.Mv? && Foreground(d.pc.step) ==> d.current.value in s.procs && Finished(s.procs[d.current.value]))
    && (d.pc.step != StreamIn && !Skips(d) ==> Settled(s, StreamIn))
    && (d.pc.step == StreamOut && !Skips(d) ==> Settled(s, Run))
  }

  function Filter(log: seq<Entry>, step: Step): seq<Tid> {
    if log == [] then []
    else
      var last := log[|log| - 1];
      Filter(log[..|log| - 1], step) + if last.step == step then [last.task] else []
  }

  ghost predicate LogOk(s: State, step: Step) {
    && StartedCount(s, step) <= |s.queues.Get(step).published|
    && Filter(s.log, step) == s.queues.Get(step).published[..StartedCount(s, step)]
  }

  /** The parts of the invariant that speak of each of the three queues. */
  ghost predicate QueuesOk(s: State) {
    forall step :: QueueOk(s, step) && TimesOk(s, step) && LogOk(s, step)
  }

  ghost predicate Inv(s: State) {
    && ClientsOk(s)
    && UuidsOk(s)
    && ProcsOk(s)
    && QueuesOk(s)
    && DaemonOk(s)
    && FilesOk(s)
  }

  lemma InitialInv(clock: nat)
    ensures Inv(Initial(clock))
  {
  }

  // ----- The daemon's pick -----

  lemma ListedIsScript(s: State, step: Step, n: Name)
    requires n in s.share && Known(s, n.task)
    ensures Listed(s, step, n) <==> n.kind == ScriptFile && JobOf(s, n.task).step == step
  {
    GlobMatchesScriptsOnly(JobOf(s, n.task), n.kind, step);
  }

  /** The task the daemon is busy with is the oldest waiting one of its queue, and in no other queue. */
  lemma CurrentIsHead(s: State, step: Step, k: nat)
    requires MembersOk(s, step) && MembersOk(s, s.daemon.pc.step) && DaemonOk(s) && !s.daemon.pc.Guard?
    requires k < |s.queues.Get(step).published|
    ensures Some(s.queues.Get(step).published[k]) == s.daemon.current
            <==> step == s.daemon.pc.step && k == s.queues.Get(step).retired
  {
    var t0 := s.daemon.current.value;
    assert JobOf(s, s.queues.Get(step).published[k]).step == step;
    assert JobOf(s, t0).step == s.daemon.pc.step;
  }

  /** In each queue the retired tasks are the first `retired` ones. */
  lemma RetiredIsPrefix(s: State, step: Step, k: nat)
    requires QueueOk(s, step) && QueueOk(s, s.daemon.pc.step) && DaemonOk(s)
    requires k < |s.queues.Get(step).published|
    ensures Retired(s, s.queues.Get(step).published[k]) <==> k < s.queues.Get(step).retired
  {
    if !s.daemon.pc.Guard? {
      CurrentIsHead(s, step, k);
    }
  }

  /** The index of a published task in its queue. */
  lemma IndexOf(s: State, step: Step, t: Tid) returns (k: nat)
    requires QueueOk(s, step)
    requires Published(s, t) && JobOf(s, t).step == step
    ensures k < |s.queues.Get(step).published| && s.queues.Get(step).published[k] == t
  {
    k :| 0 <= k < |s.queues.Get(step).published| && s.queues.Get(step).published[k] == t;
  }

  /** The glob lists the waiting scripts of the queue and nothing else. */
  lemma ListedIsWaiting(s: State, step: Step, n: Name) returns (k: nat)
    requires QueueOk(s, step) && QueueOk(s, s.daemon.pc.step) && DaemonOk(s)
    requires Agrees(s, n) && Listed(s, step, n)
    ensures n.kind == ScriptFile
    ensures s.queues.Get(step).retired <= k < |s.queues.Get(step).published|
    ensures s.queues.Get(step).published[k] == n.task
  {
    ListedIsScript(s, step, n);
    k := IndexOf(s, step, n.task);
    RetiredIsPrefix(s, step, k);
  }

  lemma WaitingIsListed(s: State, step: Step, k: nat)
    requires QueueOk(s, step) && TimesOk(s, step)
    requires s.queues.Get(step).retired <= k < |s.queues.Get(step).published|
    ensures Listed(s, step, ScriptName(s.queues.Get(step).published[k]))
  {
    var q := s.queues.Get(step);
    var n := ScriptName(q.published[k]);
    assert Waiting(q)[k - q.retired] == n.task;
    assert Known(s, n.task);
    ListedIsScript(s, step, n);
  }

  /** The oldest task that is still waiting in a queue. */
  function QueueHead(q: Queue): Option<Tid> {
    if q.retired < |q.published| then Some(q.published[q.retired]) else None
  }

  /** Among the listed names the head of the queue is strictly the oldest. */
  lemma HeadIsOldest(s: State, step: Step, n: Name)
    requires QueueOk(s, step) && TimesOk(s, step) && QueueOk(s, s.daemon.pc.step) && DaemonOk(s) && FilesOk(s)
    requires n in s.share && Listed(s, step, n)
    ensures var q := s.queues.Get(step);
            && q.retired < |q.published|
            && var h := ScriptName(q.published[q.retired]);
            && h in s.share && (n != h ==> s.share[h].ctime < s.share[n].ctime)
  {
    ListedIsScript(s, step, n);
    assert Agrees(s, n);
    var k := ListedIsWaiting(s, step, n);
    var w := Waiting(s.queues.Get(step));
    assert w[k - s.queues.Get(step).retired] == n.task && w[0] == s.queues.Get(step).published[s.queues.Get(step).retired];
  }

  /** The daemon's pick, `head -1` of the listing, is always the head of the queue. */
  lemma PickIsQueueHead(s: State, step: Step, pick: Option<Tid>)
    requires QueueOk(s, step) && TimesOk(s, step) && QueueOk(s, s.daemon.pc.step) && DaemonOk(s) && FilesOk(s)
    ensures IsHead(s, step, pick) <==> pick == QueueHead(s.queues.Get(step))
  {
    var q := s.queues.Get(step);
    if q.retired < |q.published| {
      WaitingIsListed(s, step, q.retired);
      var h := ScriptName(q.published[q.retired]);
      forall n | n in s.share && Listed(s, step, n) && n != h ensures s.share[h].ctime < s.share[n].ctime {
        HeadIsOldest(s, step, n);
      }
      if IsHead(s, step, pick) && pick.Some? {
        HeadIsOldest(s, step, ScriptName(pick.value));
      }
    } else {
      forall n | n in s.share ensures !Listed(s, step, n) {
        if Listed(s, step, n) {
          HeadIsOldest(s, step, n);
        }
      }
    }
  }
}
