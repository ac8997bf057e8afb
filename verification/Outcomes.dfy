/**
 * From the script on the share to what comes of it: the daemon's start of a task, the steps of its process, the
 * files that dispatches bring to their places, and the signal that reaches the right process.
 */
module Outcomes {
  import opened Wrappers
  import opened Decimal
  import opened Tasks
  import opened Naming
  import opened Paths
  import opened SharePaths
  import opened MountTargets
  import opened ShellLexer
  import opened TaskScript
  import opened Protocol
  import opened Runs
  import opened Ordering
  import opened Polling
  import opened Delivery
  import opened Programs
  import opened Dispatching
  import opened Startup
  import opened Handlers
  import opened EndToEnd
  import opened Bash
  import opened ScriptRun
  import opened Commands
  import opened Arrival
  import In = StreamIn

  // ----- What a started script does -----

  /** The file for what the command writes to stderr: a place in the output folder of its own. */
  predicate NamesErrorFile(path: string, job: Job) {
    EntryBelow(SWAP_ROOT, path) == Some(["out", "tasks", job.Id() + ".err"])
  }

  /**
   * Run by a shell, this text acts for the task: as its user, or root if it names none, it sources the task's own
   * env file, starts exactly the path with the arguments, writes the pid of that process as a line into the task's
   * pid file, waits for that process, and writes its status as a line into the task's exit file.
   */
  predicate ActsFor(script: string, job: Job, task: RunTask, pid: ProcId, code: Status) {
    match RunScript(script, pid, code)
    case None => false
    case Some((user, effects)) =>
      && user == (if task.user == "" then "root" else task.user)
      && |effects| == 5
      && effects[0].Sourced? && PathNames(effects[0].path, job, EnvFile)
      && effects[1].Started? && effects[1].words == [task.path] + task.args
      && NamesErrorFile(effects[1].stderr, job)
      && "HOME" in effects[1].vars && effects[1].vars["HOME"] == "/home/" + task.user + "/app"
      && effects[2].Wrote? && PathNames(effects[2].path, job, PidFile) && effects[2].content == PrintNat(pid) + "\n"
      && effects[3] == Waited(PrintNat(pid))
      && effects[4].Wrote? && PathNames(effects[4].path, job, ExitFile) && effects[4].content == PrintNat(code) + "\n"
  }

  lemma {:induction false} FilesAreNamed(job: Job)
    requires PlainNames(job)
    ensures NamedFiles(FilesFor(job.step, job.Stem(), job.Id()))
  {
    hide QueueFile, OutputFile, AllPlain, IsEntryName, Job.Stem, Job.Id, PlainFiles;
    FilesArePlain(job);
    PlainSuffixes();
    PlainStem(job, ".err");
    PlainStem(job, ".pid");
    PlainStem(job, ".exit");
    BaseIsEntryName(job, PidFile);
    BaseIsEntryName(job, ExitFile);
    ErrIsEntryName(job);
    PlainOutputFile(job.Id() + ".err");
    PlainOutputFile(job.Id() + ".pid");
    PlainOutputFile(job.Id() + ".exit");
  }

  lemma {:induction false} ErrorFilePlace(job: Job)
    requires NamesFiles(job)
    ensures NamesErrorFile(OutputFile(SWAP_ROOT, job.Id() + ".err"), job)
  {
    hide EntryBelow, Components, IsRoot, FilePathJoin, IsEntryName;
    SwapRootIsRoot();
    FixedNames();
    ErrIsEntryName(job);
    OutputEntry(SWAP_ROOT, "tasks", job.Id() + ".err");
  }

  /** The error file is none of the protocol's files, of this task or any other. */
  lemma {:induction false} ErrorFileApart(path: string, job: Job, other: Job, kind: Kind)
    requires NamesErrorFile(path, job)
    ensures !PathNames(path, other, kind)
  {
    hide EntryBelow, Job.Id, Job.Stem;
    var base := job.Id() + ".err";
    var place := Place(LocationOf(other, kind));
    if kind == PidFile || kind == ExitFile {
      LastCharacter(NamePart(other, kind), kind);
      var name := NamePart(other, kind) + Suffix(kind);
      assert place[2] == name && base[|base| - 1] == 'r';
      assert ["out", "tasks", base][2] == base;
    } else {
      assert place[1] == FolderOf(other.step, kind)[1] && |place[1]| != |"tasks"|;
      assert ["out", "tasks", base][1] == "tasks";
    }
  }

  /** Compiled from a safe task, the text acts for it. */
  lemma {:induction false} CompiledActs(job: Job, task: RunTask, pid: ProcId, code: Status)
    requires PlainNames(job) && job == Compiled(task, job.step, job.nanos, job.uuid, job.archive) && SafeTask(task)
    ensures ActsFor(job.script, job, task, pid, code)
  {
    hide PathNames, NamesErrorFile, Compiled, RunScript, ScriptText, SafeTask, PlainNames, NamedFiles, QueueFile, OutputFile;
    hide Job.Id, Job.Stem;
    var files := FilesFor(job.step, job.Stem(), job.Id());
    FilesAreNamed(job);
    CompiledTexts(task, job.step, job.nanos, job.uuid, job.archive);
    ScriptDoes(task, files, pid, code);
    PlainNamesFiles(job);
    NamesOwnFiles(job);
    ErrorFilePlace(job);
  }

  lemma {:induction false} PlainNamesFiles(job: Job)
    requires PlainNames(job)
    ensures NamesFiles(job)
  {
  }

  lemma {:induction false} TaskIsPlain(s: State, t: Tid, task: RunTask, step: Step)
    requires IsTask(s, t, task, step) && IsTag(task.tag)
    ensures var job := JobOf(s, t);
            && PlainNames(job) && job == Compiled(task, job.step, job.nanos, job.uuid, job.archive) && job.step == step
            && |job.uuid| == UUID_LENGTH
  {
    hide Compiled, AllPlain;
    var job := JobOf(s, t);
    CompiledFields(task, step, job.nanos, job.uuid, job.archive);
    UuidIsPlain(job.uuid);
  }

  /** Whatever the daemon starts, whoever dispatched it, acts for its task if that is safe. */
  lemma {:induction false} StartedScriptActs(e: Execution, i: nat, t: Tid, task: RunTask, step: Step, pid: ProcId,
                                             code: Status)
    requires IsExecution(e) && Starts(e, i, t) && IsTask(e.states[i], t, task, step) && IsTag(task.tag) && SafeTask(task)
    ensures ScriptName(t) in e.states[i].share
    ensures ActsFor(e.states[i].share[ScriptName(t)].content, JobOf(e.states[i], t), task, pid, code)
  {
    hide Compiled, IsExecution, IsTask, IsTag, SafeTask, PlainNames, ActsFor, Enabled, Next;
    TaskKnown(e.states[i], t, task, step);
    TaskIsPlain(e.states[i], t, task, step);
    StartsCompleteScripts(e, i);
    CompiledActs(JobOf(e.states[i], t), task, pid, code);
  }

  // ----- The steps of the process are those of the text -----

  /** The file that an effect writes is this task's file of that kind, and no other. */
  predicate WritesOnly(effect: Effect, s: State, s': State, t: Tid)
    requires Known(s, t)
  {
    effect.Wrote? && forall kind :: PathNames(effect.path, JobOf(s, t), kind) ==>
                       s'.share == s.share[Name(kind, t) := File(effect.content, s.clock)]
  }

  /** The states of a process that is not interrupted, from its start to its last line. */
  function Followed(s: State, t: Tid, events: seq<ProcEvent>): Option<State>
    decreases |events|
  {
    if events == [] then Some(s)
    else if !ProcEnabled(s, t, events[0]) then None
    else Followed(ProcNext(s, t, events[0]), t, events[1..])
  }

  lemma {:induction false} OneKind(path: string, job: Job, kind: Kind, other: Kind)
    requires |job.uuid| == UUID_LENGTH && PathNames(path, job, kind) && PathNames(path, job, other)
    ensures kind == other
  {
    hide EntryBelow;
    var l, l' := LocationOf(job, kind), LocationOf(job, other);
    assert Place(l) == Place(l');
    assert Place(l)[..|Place(l)| - 1] == l.folder && Place(l')[..|Place(l')| - 1] == l'.folder;
    assert Place(l)[|Place(l)| - 1] == l.base && Place(l')[|Place(l')| - 1] == l'.base;
    LocationsDistinct(job, kind, job, other);
  }

  /**
   * The protocol's process takes exactly the steps of the script's text: its first two put what the text writes
   * first, and nothing else, onto the share; then it waits for the command, which may put out until then and no
   * longer; and its last two put on the share what the text writes last.
   */
  lemma {:induction false} ProcessFollowsText(s: State, t: Tid, task: RunTask, pid: ProcId, code: Status)
    requires Known(s, t) && t in s.procs && s.procs[t] == Proc(Launched, false)
    requires var job := JobOf(s, t); |job.uuid| == UUID_LENGTH && ActsFor(job.script, job, task, pid, code)
    ensures var effects := RunScript(JobOf(s, t).script, pid, code).value.1;
            var recorded := Followed(s, t, [MakePid(pid), WritePid]);
            && recorded.Some? && WritesOnly(effects[2], s, recorded.value, t)
            && t in recorded.value.procs && MayEmit(s.procs[t]) && MayEmit(recorded.value.procs[t])
            && var returned := Followed(recorded.value, t, [Return(code)]);
            && returned.Some? && returned.value.share == recorded.value.share && Known(returned.value, t)
            && t in returned.value.procs && !MayEmit(returned.value.procs[t])
            && var reported := Followed(returned.value, t, [MakeExit, WriteExit]);
            && reported.Some? && WritesOnly(effects[4], returned.value, reported.value, t)
  {
    hide RunScript, PathNames, LocationOf;
    var job := JobOf(s, t);
    var effects := RunScript(job.script, pid, code).value.1;
    ThreeParts(s, t, pid, code);
    forall kind | PathNames(effects[2].path, job, kind) ensures kind == PidFile {
      OneKind(effects[2].path, job, kind, PidFile);
    }
    forall kind | PathNames(effects[4].path, job, kind) ensures kind == ExitFile {
      OneKind(effects[4].path, job, kind, ExitFile);
    }
  }

  lemma {:induction false} ThreeParts(s: State, t: Tid, pid: ProcId, code: Status)
    requires Known(s, t) && t in s.procs && s.procs[t] == Proc(Launched, false)
    ensures var recorded := Followed(s, t, [MakePid(pid), WritePid]);
            && recorded.Some? && t in recorded.value.procs && recorded.value.procs[t].phase == Running(pid)
            && recorded.value.share == s.share[Name(PidFile, t) := File(PrintNat(pid) + "\n", s.clock)]
            && var returned := Followed(recorded.value, t, [Return(code)]);
            && returned.Some? && t in returned.value.procs && returned.value.procs[t].phase == Returned(pid, code)
            && returned.value.share == recorded.value.share
            && returned.value.clock == s.clock && returned.value.clients == s.clients
            && var reported := Followed(returned.value, t, [MakeExit, WriteExit]);
            && reported.Some?
            && reported.value.share == returned.value.share[Name(ExitFile, t) := File(PrintNat(code) + "\n", s.clock)]
  {
    FollowTwo(s, t, MakePid(pid), WritePid);
    var s1 := ProcNext(s, t, MakePid(pid));
    var s2 := ProcNext(s1, t, WritePid);
    FollowOne(s2, t, Return(code));
    var s3 := ProcNext(s2, t, Return(code));
    FollowTwo(s3, t, MakeExit, WriteExit);
  }

  lemma {:induction false} FollowOne(s: State, t: Tid, a: ProcEvent)
    requires ProcEnabled(s, t, a)
    ensures Followed(s, t, [a]) == Some(ProcNext(s, t, a))
  {
    hide ProcEnabled, ProcNext;
    assert [a][1..] == [];
    assert Followed(ProcNext(s, t, a), t, []) == Some(ProcNext(s, t, a));
  }

  lemma {:induction false} FollowTwo(s: State, t: Tid, a: ProcEvent, b: ProcEvent)
    requires ProcEnabled(s, t, a) && ProcEnabled(ProcNext(s, t, a), t, b)
    ensures Followed(s, t, [a, b]) == Some(ProcNext(ProcNext(s, t, a), t, b))
  {
    hide ProcEnabled, ProcNext;
    assert [a, b][1..] == [b];
    FollowOne(ProcNext(s, t, a), t, b);
  }

  // ----- What the scripts of a dispatch bring about -----

  function StartedWords(effects: seq<Effect>): seq<seq<string>> {
    if effects == [] then []
    else (if effects[0].Started? then [effects[0].words] else []) + StartedWords(effects[1..])
  }

  /** The one command that a script starts, with the user it starts it as. */
  function CommandOf(script: string): Option<(string, seq<string>)> {
    match RunScript(script, 0, 0)
    case None => None
    case Some((user, effects)) =>
      var words := StartedWords(effects);
      if |words| == 1 then Some((user, words[0])) else None
  }

  /** The scripts of these jobs run to their ends, one after the other. */
  function RunJobs(m: Machine, jobs: seq<Job>, fs: Tree): Option<Tree> {
    if jobs == [] then Some(fs)
    else
      match CommandOf(jobs[0].script)
      case None => None
      case Some((user, words)) =>
        match RunCommand(m, user, words, fs)
        case None => None
        case Some(fs') => RunJobs(m, jobs[1..], fs')
  }

  lemma {:induction false} CommandRead(script: string, job: Job, task: RunTask)
    requires ActsFor(script, job, task, 0, 0)
    ensures CommandOf(script) == Some((if task.user == "" then "root" else task.user, [task.path] + task.args))
  {
    hide RunScript, PathNames, NamesErrorFile;
    var effects := RunScript(script, 0, 0).value.1;
    assert effects == [effects[0], effects[1], effects[2], effects[3], effects[4]];
    FiveEffects(effects[0], effects[1], effects[2], effects[3], effects[4]);
  }

  lemma {:induction false} FiveEffects(a: Effect, b: Effect, c: Effect, d: Effect, e: Effect)
    requires !a.Started? && b.Started? && !c.Started? && !d.Started? && !e.Started?
    ensures StartedWords([a, b, c, d, e]) == [b.words]
  {
    assert [a, b, c, d, e][1..] == [b, c, d, e] && [b, c, d, e][1..] == [c, d, e];
    assert [c, d, e][1..] == [d, e] && [d, e][1..] == [e] && [e][1..] == [];
    assert StartedWords([c, d, e]) == [] by {
      assert StartedWords([d, e]) == [] by { assert StartedWords([e]) == []; }
    }
  }

  /** The jobs are compiled from these tasks, which are safe, with proper tags and uuids. */
  predicate JobsOf(jobs: seq<Job>, tasks: seq<RunTask>) {
    && |jobs| == |tasks|
    && forall k :: 0 <= k < |jobs| ==>
      && PlainNames(jobs[k]) && SafeTask(tasks[k])
      && jobs[k] == Compiled(tasks[k], jobs[k].step, jobs[k].nanos, jobs[k].uuid, jobs[k].archive)
  }

  lemma {:induction false} JobsRun(m: Machine, jobs: seq<Job>, tasks: seq<RunTask>, fs: Tree)
    requires JobsOf(jobs, tasks)
    ensures RunJobs(m, jobs, fs) == RunCommands(m, Arrival.CommandsOf(tasks), fs)
    decreases |jobs|
  {
    hide CommandOf, RunCommand, ActsFor, Compiled, PlainNames, SafeTask;
    if jobs != [] {
      CompiledActs(jobs[0], tasks[0], 0, 0);
      CommandRead(jobs[0].script, jobs[0], tasks[0]);
      assert Arrival.CommandsOf(tasks)[1..] == Arrival.CommandsOf(tasks[1..]);
      match RunCommand(m, Arrival.CommandsOf(tasks)[0].0, Arrival.CommandsOf(tasks)[0].1, fs)
      case None =>
      case Some(fs') => JobsRun(m, jobs[1..], tasks[1..], fs');
    }
  }

  predicate ProperDraws(draws: Draws) {
    forall k :: 0 <= k < |draws| ==> IsUuid(draws[k].1)
  }

  lemma {:induction false} ProgramJobs(tasks: seq<RunTask>, step: Step, draws: Draws, archives: seq<string>)
    requires |draws| == |tasks| == |archives| && ProperDraws(draws) && AllSafeTasks(tasks)
    requires forall k :: 0 <= k < |tasks| ==> IsTag(tasks[k].tag)
    ensures JobsOf(ProgramOf(tasks, step, draws, archives), tasks)
  {
    hide Compiled, AllPlain, SafeTask, IsUuid;
    forall k | 0 <= k < |tasks| ensures PlainNames(Compiled(tasks[k], step, draws[k].0, draws[k].1, archives[k])) {
      CompiledFields(tasks[k], step, draws[k].0, draws[k].1, archives[k]);
      UuidIsPlain(draws[k].1);
    }
    forall k | 0 <= k < |tasks|
      ensures var job := Compiled(tasks[k], step, draws[k].0, draws[k].1, archives[k]);
              job.step == step && job.nanos == draws[k].0 && job.uuid == draws[k].1 && job.archive == archives[k]
    {
      CompiledFields(tasks[k], step, draws[k].0, draws[k].1, archives[k]);
    }
  }

  /**
   * A bind mount arrives: read from the texts of the three scripts that DispatchFolderTask publishes, and run
   * in their order, the commands bring what the host has copied to the destination.
   */
  lemma {:induction false} MountArrives(m: Machine, temp: string, dst: string, draws: Draws, fs: Tree, host: Tree)
    requires |draws| == 3 && ProperDraws(draws) && SafeText(dst) && SafeText(FolderTarget(SWAP_ROOT, dst) + "/")
    requires IsTempName(temp) && Mirrored(temp, fs, host) && IsHome(m.homes("root")) && !ClimbsOut(Parts(dst))
    requires FolderAt(host, ["tmp", temp] + FromIn(dst))
    ensures FolderOutcome(m, temp, dst, fs, host, RunJobs(m, FolderProgram(dst, draws), fs))
  {
    hide FolderOutcome, RunJobs, ProgramOf, AllSafeTasks, IsTag, SafeText, ProperDraws, FolderTarget, Mirrored, FromIn;
    hide FolderAt, IsHome, ClimbsOut, RunCommands;
    TagsOfHandlers();
    FolderTasksSafe(dst);
    ProgramJobs(FolderTasks(dst), Step.StreamIn, draws, ["", "", ""]);
    JobsRun(m, FolderProgram(dst, draws), FolderTasks(dst), fs);
    FolderArrives(m, temp, dst, fs, host);
  }

  /** The same for mount k of a Create, whose three tasks these are. */
  lemma {:induction false} CreateMountArrives(m: Machine, temp: string, mounts: seq<BindMount>, draws: seq<Draws>, k: nat,
                                              fs: Tree, host: Tree)
    requires DrawsFit(mounts, draws) && k < |mounts| && ProperDraws(draws[k])
    requires SafeText(mounts[k].dst) && SafeText(FolderTarget(SWAP_ROOT, mounts[k].dst) + "/")
    requires IsTempName(temp) && Mirrored(temp, fs, host) && IsHome(m.homes("root")) && !ClimbsOut(Parts(mounts[k].dst))
    requires FolderAt(host, ["tmp", temp] + FromIn(mounts[k].dst))
    ensures 3 * k + 3 <= |MountProgram(mounts, draws)|
    ensures FolderOutcome(m, temp, mounts[k].dst, fs, host, RunJobs(m, MountProgram(mounts, draws)[3 * k..][..3], fs))
  {
    hide FolderOutcome, RunJobs, SafeText, ProperDraws, FolderTarget, Mirrored, FromIn, FolderAt, IsHome, ClimbsOut;
    hide FolderProgram, MountProgram;
    MountSlice(mounts, draws, k);
    MountArrives(m, temp, mounts[k].dst, draws[k], fs, host);
  }

  /** What the client streams in arrives: the scripts that StreamIn publishes unpack the file that the host filled. */
  lemma {:induction false} StreamArrives(m: Machine, temp: string, id: string, parts: seq<In.Part>, draws: Draws, fs: Tree,
                                         host: Tree)
    requires |draws| == 3 && ProperDraws(draws) && IsUuid(id)
    requires AllPlain(In.LastUser(parts)) && SafeText(In.LastPath(parts)) && Mirrored(temp, fs, host)
    requires ["tmp", temp, "in", "extract_" + id] in host && host[["tmp", temp, "in", "extract_" + id]].Data?
    ensures ExtractOutcome(m, temp, id, In.LastPath(parts), In.LastUser(parts), fs, host,
                           RunJobs(m, Extraction(id, parts, draws), fs))
  {
    hide ExtractOutcome, RunJobs, ProgramOf, AllSafeTasks, IsTag, SafeText, ProperDraws, Mirrored, RunCommands, AllPlain;
    var dest, user := In.LastPath(parts), In.LastUser(parts);
    TagsOfHandlers();
    ExtractNameIsEntry(id);
    ExtractTasksSafe(ExtractName(id), dest, user);
    UuidIsPlain(id);
    ProgramJobs(ExtractTasks(ExtractName(id), dest, user), Step.StreamIn, draws, ["", "", ""]);
    JobsRun(m, Extraction(id, parts, draws), ExtractTasks(ExtractName(id), dest, user), fs);
    ArchiveExtracted(m, temp, id, dest, user, fs, host);
  }

  /**
   * What the client asks for comes out: the scripts of a stream-out put the archive into the file with the id that
   * goes back with the dispatch, which is the archive file that the protocol gives to the second of its jobs.
   */
  lemma {:induction false} ArchiveComesOut(m: Machine, path: string, user: string, fileId: string, draws: Draws, fs: Tree)
    requires |draws| == 2 && ProperDraws(draws) && IsUuid(fileId) && AllPlain(user) && SafeText(path)
    ensures RunJobs(m, StreamOutProgram(path, user, fileId, draws), fs) == Archived(m, path, user, fileId, fs)
    ensures ["swaproot"] + Place(LocationOf(StreamOutProgram(path, user, fileId, draws)[1], ArchiveFile))
            == ["swaproot", "out", "streamout", fileId]
    ensures StreamOutProgram(path, user, fileId, draws)[0].archive == ""
  {
    hide Archived, RunJobs, AllSafeTasks, IsTag, SafeText, ProperDraws, RunCommands, AllPlain, Compiled;
    TagsOfHandlers();
    UuidIsPlain(fileId);
    StreamOutTasksSafe(path, user, fileId);
    var tasks := StreamOutTasks(path, user, fileId);
    ProgramJobs(tasks, Step.StreamOut, draws, ["", fileId]);
    JobsRun(m, StreamOutProgram(path, user, fileId, draws), tasks, fs);
    PathArchived(m, path, user, fileId, fs);
    CompiledFields(tasks[0], Step.StreamOut, draws[0].0, draws[0].1, "");
    CompiledFields(tasks[1], Step.StreamOut, draws[1].0, draws[1].1, fileId);
    assert fileId + "" == fileId;
  }

  // ----- Signals -----

  /** `kill -s signal pid`, with its two numbers. */
  function ReadKill(words: seq<string>): Option<(int, int)> {
    if |words| == 4 && words[0] == "kill" && words[1] == "-s" then
      match (ParseInt32(words[2]), ParseInt32(words[3]))
      case (Some(signal), Some(pid)) => Some((signal, pid))
      case _ => None
    else None
  }

  /**
   * A signal reaches its process: if the pid was found, then whenever the daemon starts the task that Signal has
   * dispatched, the shells come, as root, to a kill with exactly this signal and the pid of that very script.
   */
  lemma {:induction false} SignalReaches(e: Execution, i: nat, j: nat, t: Tid, access: Access, signal: int, pid: int,
                                         k: nat, c: nat, draws: Draws)
    requires IsExecution(e) && i <= j < |e.states| && -0x8000_0000 <= signal <= 0x7fff_ffff
    requires GetProcessId(Found(e.states[i], Name(PidFile, t), access), ReadFile(e.states[j], Name(PidFile, t), access))
             == Some(pid)
    requires |draws| == 1 && Starts(e, k, Tid(c, 0))
    requires HoldsDispatch(e.states[k], c, 0, RunProgram(KillTask(signal, pid), draws))
    ensures t in e.states[j].procs && PhaseRank(e.states[j].procs[t].phase) >= 2
    ensures ScriptName(Tid(c, 0)) in e.states[k].share
    ensures var command := CommandOf(e.states[k].share[ScriptName(Tid(c, 0))].content);
            command.Some? && command.value.0 == "root"
            && ReadKill(command.value.1) == Some((signal, e.states[j].procs[t].phase.pid))
  {
    hide IsExecution, Starts, HoldsDispatch, RunProgram, CommandOf, ReadKill, Found, ReadFile, GetProcessId, KillTask;
    KillNamesTheScript(e, i, j, t, access, signal);
    KillStarts(e, k, c, signal, pid, draws);
    KillRead(signal, pid);
  }

  /** What the daemon starts for a kill task is the kill, as root. */
  lemma {:induction false} KillStarts(e: Execution, k: nat, c: nat, signal: int, pid: int, draws: Draws)
    requires IsExecution(e) && |draws| == 1 && Starts(e, k, Tid(c, 0))
    requires HoldsDispatch(e.states[k], c, 0, RunProgram(KillTask(signal, pid), draws))
    ensures k < |e.states| && ScriptName(Tid(c, 0)) in e.states[k].share
    ensures var task := KillTask(signal, pid);
            CommandOf(e.states[k].share[ScriptName(Tid(c, 0))].content)
            == Some((if task.user == "" then "root" else task.user, [task.path] + task.args))
  {
    hide IsExecution, HoldsDispatch, IsTask, IsTag, ActsFor, Known, ProgramOf, SafeTask, CommandOf, KillTask;
    var task := KillTask(signal, pid);
    TagsOfHandlers();
    KillTag(signal, pid);
    DispatchedIsTask(e.states[k], c, 0, [task], Step.Run, draws, [""], 0);
    TaskKnown(e.states[k], Tid(c, 0), task, Step.Run);
    KillTaskSafe(signal, pid);
    StartedScriptCommand(e, k, Tid(c, 0), task, Step.Run);
  }

  lemma {:induction false} KillTag(signal: int, pid: int)
    ensures KillTask(signal, pid).tag == "kill"
  {
  }

  /** The command of a safe task is what its started script comes to. */
  lemma {:induction false} StartedScriptCommand(e: Execution, i: nat, t: Tid, task: RunTask, step: Step)
    requires IsExecution(e) && Starts(e, i, t) && IsTask(e.states[i], t, task, step) && IsTag(task.tag) && SafeTask(task)
    ensures ScriptName(t) in e.states[i].share
    ensures CommandOf(e.states[i].share[ScriptName(t)].content)
            == Some((if task.user == "" then "root" else task.user, [task.path] + task.args))
  {
    hide IsExecution, IsTask, IsTag, SafeTask, ActsFor, CommandOf, Known;
    TaskKnown(e.states[i], t, task, step);
    StartedScriptActs(e, i, t, task, step, 0, 0);
    CommandRead(e.states[i].share[ScriptName(t)].content, JobOf(e.states[i], t), task);
  }

  lemma {:induction false} KillRead(signal: int, pid: int)
    requires -0x8000_0000 <= signal <= 0x7fff_ffff && -0x8000_0000 <= pid <= 0x7fff_ffff
    ensures ReadKill([KillTask(signal, pid).path] + KillTask(signal, pid).args) == Some((signal, pid))
    ensures KillTask(signal, pid).user == ""
  {
    hide Itoa, ParseInt32;
    ItoaReadBack(signal);
    ItoaReadBack(pid);
    assert ["kill"] + KillArgs(signal, pid) == ["kill", "-s", Itoa(signal), Itoa(pid)];
  }
}
