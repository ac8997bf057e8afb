/**
 * The file-share task protocol as a transition system: any number of clients that publish tasks through
 * scheduleTask, one daemon that polls the three queues, and the processes its scripts start. Every
 * nondeterministic choice is carried by the action, so `Next` is a function.
 */
module Protocol {
  import opened Wrappers
  import opened Decimal
  import opened Tasks
  import opened Naming

  /** A task is named by the client that schedules it and its place in that client's dispatch. */
  datatype Tid = Tid(client: nat, index: nat)

  datatype Name = Name(kind: Kind, task: Tid)

  datatype File = File(content: string, ctime: nat)

  /** Where a client is inside one call of scheduleTask; `n` counts the characters written so far. */
  datatype SchedulePc = Idle | EnvOpen(n: nat) | EnvClosed | TempOpen(n: nat) | TempClosed

  /** One handler call: the tasks it dispatches in order, how many are published, and whether it gave up. */
  datatype Client = Client(prog: seq<Job>, next: nat, pc: SchedulePc, failed: bool)

  /** The three blocks of the loop body have the same four stages; run scripts are not waited for. */
  datatype DaemonPc = Guard(step: Step) | Exec(step: Step) | Wait(step: Step) | Mv(step: Step)

  /** The loop's program counter with its two variables current_file and have_done. */
  datatype Daemon = Daemon(pc: DaemonPc, current: Option<Tid>, haveDone: bool)

  /** How far a script has come; `Running` means its command is being waited for. */
  datatype Phase =
    | Launched
    | PidOpen(pid: ProcId)
    | Running(pid: ProcId)
    | Returned(pid: ProcId, code: Status)
    | ExitOpen(pid: ProcId, code: Status)
    | Complete(pid: ProcId, code: Status)

  /** A script process; `dead` if it ended without coming to its last line (no such user, killed). */
  datatype Proc = Proc(phase: Phase, dead: bool)

  /**
   * History of one queue: tasks renamed into place, how many of them are `.executed`, and how many were in place
   * at this iteration's listing.
   */
  datatype Queue = Queue(published: seq<Tid>, retired: nat, seen: nat)

  datatype Queues = Queues(streamIn: Queue, run: Queue, streamOut: Queue) {
    function Get(step: Step): Queue {
      match step
      case StreamIn => streamIn
      case Run => run
      case StreamOut => streamOut
    }

    function Put(step: Step, q: Queue): Queues {
      match step
      case StreamIn => this.(streamIn := q)
      case Run => this.(run := q)
      case StreamOut => this.(streamOut := q)
    }
  }

  /** One line of the execution log: a script was started from a queue. */
  datatype Entry = Entry(step: Step, task: Tid)

  datatype State = State(
    share: map<Name, File>,
    clock: nat,
    clients: map<nat, Client>,
    daemon: Daemon,
    procs: map<Tid, Proc>,
    queues: Queues,
    log: seq<Entry>)

  datatype ProcEvent =
    | MakePid(pid: ProcId)
    | WritePid
    | Return(code: Status)
    | MakeExit
    | WriteExit
    | Die
    | Emit(data: string)

  datatype Action =
    | Spawn(client: nat, prog: seq<Job>)
    | ClientStep(client: nat, upTo: nat)
    | ClientFail(client: nat)
    | DaemonStep(pick: Option<Tid>)
    | ProcStep(task: Tid, event: ProcEvent)

  // ----- Reading the state -----

  predicate Known(s: State, t: Tid) {
    t.client in s.clients && t.index < |s.clients[t.client].prog|
  }

  function JobOf(s: State, t: Tid): Job
    requires Known(s, t)
  {
    s.clients[t.client].prog[t.index]
  }

  /** The task's script was renamed into place. */
  predicate Published(s: State, t: Tid) {
    Known(s, t) && t.index < s.clients[t.client].next
  }

  /** The daemon holds the task: it has started its script and not yet renamed it. */
  predicate InHand(s: State, t: Tid) {
    (s.daemon.pc.Wait? || s.daemon.pc.Mv?) && s.daemon.current == Some(t)
  }

  /** The task's script carries the `.executed` name. */
  predicate Retired(s: State, t: Tid) {
    t in s.procs && !InHand(s, t)
  }

  predicate Finished(p: Proc) {
    p.dead || p.phase.Complete?
  }

  /** The file name is matched by the glob of this queue. */
  predicate Listed(s: State, step: Step, n: Name) {
    n in s.share && Known(s, n.task) && Glob(TaskFolder(step), LocationOf(JobOf(s, n.task), n.kind))
  }

  /** `ls -tcr` puts m before n: older status change first, and equal times in reversed name order. */
  predicate Before(s: State, m: Name, n: Name)
    requires m in s.share && n in s.share && Known(s, m.task) && Known(s, n.task)
  {
    s.share[m].ctime < s.share[n].ctime
    || (s.share[m].ctime == s.share[n].ctime
        && NameLess(LocationOf(JobOf(s, n.task), n.kind).base, LocationOf(JobOf(s, m.task), m.kind).base))
  }

  function ScriptName(t: Tid): Name {
    Name(ScriptFile, t)
  }

  /** What `ls -tcr $1` with the star-dot-sh pattern, cut by `head -1`, yields. */
  predicate IsHead(s: State, step: Step, pick: Option<Tid>) {
    match pick
    case None => forall n :: n in s.share ==> !Listed(s, step, n)
    case Some(t) =>
      && Listed(s, step, ScriptName(t))
      && forall n :: n in s.share && Listed(s, step, n) && n != ScriptName(t) ==> Before(s, ScriptName(t), n)
  }

  // ----- Clients: scheduleTask, one file operation at a time -----

  function CurrentTask(s: State, c: nat): Tid
    requires c in s.clients
  {
    Tid(c, s.clients[c].next)
  }

  predicate Unused(s: State, job: Job) {
    forall c, i :: c in s.clients && 0 <= i < |s.clients[c].prog| ==> Apart(s.clients[c].prog[i], job)
  }

  predicate SpawnEnabled(s: State, c: nat, prog: seq<Job>) {
    && c !in s.clients
    && (forall i :: 0 <= i < |prog| ==> |prog[i].uuid| == UUID_LENGTH && Unused(s, prog[i]))
    && (forall i, j :: 0 <= i < j < |prog| ==> Apart(prog[i], prog[j]))
  }

  /** A write may put down any non-empty part of what is left; a file is closed only when all of it is written. */
  predicate WriteEnabled(written: nat, upTo: nat, text: string) {
    written < upTo <= |text| || written == |text|
  }

  predicate ClientEnabled(s: State, c: nat, upTo: nat) {
    && c in s.clients
    && var cl := s.clients[c];
    && !cl.failed
    && cl.next < |cl.prog|
    && (cl.pc.EnvOpen? ==> WriteEnabled(cl.pc.n, upTo, cl.prog[cl.next].env))
    && (cl.pc.TempOpen? ==> WriteEnabled(cl.pc.n, upTo, cl.prog[cl.next].script))
    && (cl.pc.TempClosed? ==> Name(TempFile, CurrentTask(s, c)) in s.share)
  }

  function SetClient(s: State, c: nat, cl: Client): State {
    s.(clients := s.clients[c := cl])
  }

  function PutFile(s: State, n: Name, content: string): State {
    s.(share := s.share[n := File(content, s.clock)])
  }

  /** os.Rename and mv: the content moves, the status-change time is new, and time moves on. */
  function Rename(s: State, from: Name, to: Name): State
    requires from in s.share
  {
    s.(share := (s.share - {from})[to := File(s.share[from].content, s.clock)], clock := s.clock + 1)
  }

  function ClientNext(s: State, c: nat, upTo: nat): State
    requires ClientEnabled(s, c, upTo)
  {
    var cl := s.clients[c];
    var t := CurrentTask(s, c);
    var job := cl.prog[cl.next];
    match cl.pc
    case Idle =>
      PutFile(SetClient(s, c, cl.(pc := EnvOpen(0))), Name(EnvFile, t), "")
    case EnvOpen(n) =>
      if n == |job.env| then SetClient(s, c, cl.(pc := EnvClosed))
      else PutFile(SetClient(s, c, cl.(pc := EnvOpen(upTo))), Name(EnvFile, t), job.env[..upTo])
    case EnvClosed =>
      PutFile(SetClient(s, c, cl.(pc := TempOpen(0))), Name(TempFile, t), "")
    case TempOpen(n) =>
      if n == |job.script| then SetClient(s, c, cl.(pc := TempClosed))
      else PutFile(SetClient(s, c, cl.(pc := TempOpen(upTo))), Name(TempFile, t), job.script[..upTo])
    case TempClosed =>
      var q := s.queues.Get(job.step);
      var renamed := Rename(s, Name(TempFile, t), ScriptName(t));
      SetClient(renamed, c, cl.(pc := Idle, next := cl.next + 1)).(
        queues := s.queues.Put(job.step, q.(published := q.published + [t])))
  }

  // ----- The daemon -----

  /** Each block but the first stands under `if $have_done`. */
  predicate Skips(d: Daemon) {
    d.pc.Guard? && d.pc.step != StreamIn && !d.haveDone
  }

  predicate DaemonEnabled(s: State, pick: Option<Tid>) {
    var d := s.daemon;
    match d.pc
    case Guard(step) => Skips(d) || IsHead(s, step, pick)
    case Exec(step) => d.current.Some? && ScriptName(d.current.value) in s.share
    case Wait(step) => d.current.Some? && d.current.value in s.procs && Finished(s.procs[d.current.value])
    case Mv(step) => d.current.Some? && ScriptName(d.current.value) in s.share
  }

  /** The end of a block; after the last one both variables are unset. */
  function Advance(d: Daemon): Daemon {
    match d.pc.step
    case StreamIn => d.(pc := Guard(Run))
    case Run => d.(pc := Guard(StreamOut))
    case StreamOut => Daemon(Guard(StreamIn), None, true)
  }

  function DaemonNext(s: State, pick: Option<Tid>): State
    requires DaemonEnabled(s, pick)
  {
    var d := s.daemon;
    var step := d.pc.step;
    var q := s.queues.Get(step);
    match d.pc
    case Guard(_) =>
      if Skips(d) then s.(daemon := Advance(d))
      else
        var listed := d.(current := pick, haveDone := pick.None?);
        s.(daemon := if pick.None? then Advance(listed) else listed.(pc := Exec(step)),
           queues := s.queues.Put(step, q.(seen := |q.published|)))
    case Exec(_) =>
      s.(daemon := d.(pc := if Foreground(step) then Wait(step) else Mv(step)),
         procs := s.procs[d.current.value := Proc(Launched, false)],
         log := s.log + [Entry(step, d.current.value)])
    case Wait(_) =>
      s.(daemon := d.(pc := Mv(step)))
    case Mv(_) =>
      var t := d.current.value;
      Rename(s, ScriptName(t), Name(ExecutedFile, t)).(
        daemon := Advance(d),
        queues := s.queues.Put(step, q.(retired := q.retired + 1)))
  }

  // ----- The scripts -----

  /** The command may write its output until it returns, and even after its script was killed. */
  predicate MayEmit(p: Proc) {
    p.phase.Launched? || p.phase.PidOpen? || p.phase.Running?
  }

  predicate ProcEnabled(s: State, t: Tid, event: ProcEvent) {
    && t in s.procs
    && var p := s.procs[t];
    match event
    case MakePid(_) => !p.dead && p.phase.Launched?
    case WritePid => !p.dead && p.phase.PidOpen?
    case Return(_) => !p.dead && p.phase.Running?
    case MakeExit => !p.dead && p.phase.Returned?
    case WriteExit => !p.dead && p.phase.ExitOpen?
    case Die => !Finished(p)
    case Emit(_) => MayEmit(p) && Known(s, t) && JobOf(s, t).archive != ""
  }

  function SetPhase(s: State, t: Tid, phase: Phase): State {
    s.(procs := s.procs[t := Proc(phase, false)])
  }

  function ArchiveContent(s: State, t: Tid): string {
    if Name(ArchiveFile, t) in s.share then s.share[Name(ArchiveFile, t)].content else ""
  }

  function ProcNext(s: State, t: Tid, event: ProcEvent): State
    requires ProcEnabled(s, t, event)
  {
    var p := s.procs[t];
    match event
    case MakePid(pid) => PutFile(SetPhase(s, t, PidOpen(pid)), Name(PidFile, t), "")
    case WritePid => PutFile(SetPhase(s, t, Running(p.phase.pid)), Name(PidFile, t), EchoLine(p.phase.pid))
    case Return(code) => SetPhase(s, t, Returned(p.phase.pid, code))
    case MakeExit => PutFile(SetPhase(s, t, ExitOpen(p.phase.pid, p.phase.code)), Name(ExitFile, t), "")
    case WriteExit =>
      PutFile(SetPhase(s, t, Complete(p.phase.pid, p.phase.code)), Name(ExitFile, t), EchoLine(p.phase.code))
    case Die => s.(procs := s.procs[t := p.(dead := true)])
    case Emit(data) => PutFile(s, Name(ArchiveFile, t), ArchiveContent(s, t) + data)
  }

  // ----- The whole system -----

  predicate Enabled(s: State, a: Action) {
    match a
    case Spawn(c, prog) => SpawnEnabled(s, c, prog)
    case ClientStep(c, upTo) => ClientEnabled(s, c, upTo)
    case ClientFail(c) => c in s.clients
    case DaemonStep(pick) => DaemonEnabled(s, pick)
    case ProcStep(t, event) => ProcEnabled(s, t, event)
  }

  function Next(s: State, a: Action): State
    requires Enabled(s, a)
  {
    match a
    case Spawn(c, prog) => SetClient(s, c, Client(prog, 0, Idle, false))
    case ClientStep(c, upTo) => ClientNext(s, c, upTo)
    case ClientFail(c) => SetClient(s, c, s.clients[c].(failed := true))
    case DaemonStep(pick) => DaemonNext(s, pick)
    case ProcStep(t, event) => ProcNext(s, t, event)
  }

  /** The action renames a script into place. */
  predicate Publishes(s: State, a: Action) {
    a.ClientStep? && a.client in s.clients && s.clients[a.client].pc.TempClosed?
  }

  const EMPTY_QUEUE := Queue([], 0, 0)

  /** What Prepare leaves: empty queues, and the daemon at the head of its loop. */
  function Initial(clock: nat): State {
    State(map[], clock, map[], Daemon(Guard(StreamIn), None, true), map[],
          Queues(EMPTY_QUEUE, EMPTY_QUEUE, EMPTY_QUEUE), [])
  }

  /** A finite run: the states it goes through and the actions between them. */
  datatype Execution = Execution(states: seq<State>, actions: seq<Action>)

  ghost predicate IsExecution(e: Execution) {
    && |e.states| == |e.actions| + 1
    && (exists clock: nat :: e.states[0] == Initial(clock))
    && forall i :: 0 <= i < |e.actions| ==>
      Enabled(e.states[i], e.actions[i]) && e.states[i + 1] == Next(e.states[i], e.actions[i])
  }
}
