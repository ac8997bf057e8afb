/** The end-to-end theorem on what the handlers dispatch: run tasks, bind mounts, extractions, archives and signals. */
module EndToEnd {
  import opened Wrappers
  import opened Tasks
  import opened Naming
  import opened Paths
  import opened SharePaths
  import opened ShellLexer
  import opened EnvFile
  import opened TaskScript
  import opened Protocol
  import opened Delivery
  import opened Programs
  import opened Dispatching
  import opened Startup
  import opened Handlers
  import In = StreamIn

  /** The daemon's next step starts this task. */
  predicate Starts(e: Execution, i: nat, t: Tid) {
    && i < |e.actions| && i < |e.states|
    && e.actions[i].DaemonStep? && e.states[i].daemon.pc.Exec? && e.states[i].daemon.current == Some(t)
  }

  /** The job of a task that scheduleTask compiled, with its uuid. */
  predicate IsTask(s: State, t: Tid, task: RunTask, step: Step) {
    && Known(s, t)
    && var job := JobOf(s, t);
    job == Compiled(task, step, job.nanos, job.uuid, job.archive) && IsUuid(job.uuid)
  }

  /** A word such as the handlers tag their tasks with. */
  predicate IsTag(tag: string) {
    AllPlain(tag) && '/' !in tag
  }

  lemma {:induction false} UuidIsPlain(u: string)
    requires IsUuid(u)
    ensures AllPlain(u) && '/' !in u && IsEntryName(u)
  {
    assert forall i :: 0 <= i < |u| ==> IsUuidChar(u[i]);
  }

  lemma {:induction false} TagsOfHandlers()
    ensures IsTag("mkdir") && IsTag("chmod") && IsTag("rsync") && IsTag("tar") && IsTag("tar-cf") && IsTag("run")
    ensures IsTag("kill")
  {
    hide AllPlain;
    PlainWords();
    PlainTags();
  }

  lemma {:induction false} PlainTags()
    ensures AllPlain("tar-cf") && AllPlain("run")
  {
  }

  /** Whatever handler it comes from: the script that starts is the complete script of its task and reads back as that. */
  lemma {:induction false} StartedTaskMeansItself(e: Execution, i: nat, t: Tid, task: RunTask, step: Step)
    requires IsExecution(e) && Starts(e, i, t) && IsTask(e.states[i], t, task, step) && IsTag(task.tag)
    ensures OwnFilesNamed(JobOf(e.states[i], t)) && ShareMeans(e.states[i], t, task)
  {
    hide Compiled, OwnFilesNamed, ShareMeans, IsExecution, IsUuid, AllPlain;
    var job := JobOf(e.states[i], t);
    CompiledFields(task, step, job.nanos, job.uuid, job.archive);
    UuidIsPlain(job.uuid);
    StartedScriptMeansItsTask(e, i, t, task);
  }

  /** If the task is safe its two texts are read back as they were meant. */
  predicate ReadBack(s: State, t: Tid, task: RunTask)
    requires Known(s, t)
  {
    var job := JobOf(s, t);
    && ScriptName(t) in s.share && Name(EnvFile, t) in s.share
    && ScriptMeans(s.share[ScriptName(t)].content, task, FilesFor(job.step, job.Stem(), job.Id()))
    && Source(s.share[Name(EnvFile, t)].content) == Some(task.env)
  }

  lemma {:induction false} SafeIsReadBack(s: State, t: Tid, task: RunTask)
    requires Known(s, t) && ShareMeans(s, t, task) && SafeTask(task) && AllSafeEnvs(task.env)
    ensures ReadBack(s, t, task)
  {
  }

  /** A client's program holds this dispatch from some place on, with proper uuids. */
  predicate HoldsDispatch(s: State, c: nat, first: nat, jobs: seq<Job>) {
    && c in s.clients && first + |jobs| <= |s.clients[c].prog|
    && forall k :: 0 <= k < |jobs| ==> s.clients[c].prog[first + k] == jobs[k] && IsUuid(jobs[k].uuid)
  }

  lemma {:induction false} DispatchedIsTask(s: State, c: nat, first: nat, tasks: seq<RunTask>, step: Step, draws: Draws,
                                            archives: seq<string>, k: nat)
    requires |draws| == |tasks| == |archives| && k < |tasks|
    requires HoldsDispatch(s, c, first, ProgramOf(tasks, step, draws, archives))
    ensures IsTask(s, Tid(c, first + k), tasks[k], step)
  {
    hide Compiled;
    CompiledFields(tasks[k], step, draws[k].0, draws[k].1, archives[k]);
  }

  /** A task of DispatchRunTask, for Run or for Signal. */
  lemma {:induction false} RunTaskMeansItself(e: Execution, i: nat, c: nat, task: RunTask, draws: Draws)
    requires IsExecution(e) && Starts(e, i, Tid(c, 0)) && |draws| == 1
    requires HoldsDispatch(e.states[i], c, 0, RunProgram(task, draws)) && (task.tag == "run" || task.tag == "kill")
    ensures Known(e.states[i], Tid(c, 0))
    ensures OwnFilesNamed(JobOf(e.states[i], Tid(c, 0))) && ShareMeans(e.states[i], Tid(c, 0), task)
  {
    hide IsTask, IsTag, OwnFilesNamed, ShareMeans, IsExecution, ProgramOf, Compiled, HoldsDispatch, Known;
    TagsOfHandlers();
    DispatchedIsTask(e.states[i], c, 0, [task], Step.Run, draws, [""], 0);
    TaskKnown(e.states[i], Tid(c, 0), task, Step.Run);
    StartedTaskMeansItself(e, i, Tid(c, 0), task, Step.Run);
  }

  lemma {:induction false} TaskKnown(s: State, t: Tid, task: RunTask, step: Step)
    requires IsTask(s, t, task, step)
    ensures Known(s, t)
  {
  }

  /** The kill task of Signal is read back as it is meant, for every signal and pid. */
  lemma {:induction false} KillTaskReadBack(e: Execution, i: nat, c: nat, signal: int, pid: int, draws: Draws)
    requires IsExecution(e) && Starts(e, i, Tid(c, 0)) && |draws| == 1
    requires HoldsDispatch(e.states[i], c, 0, RunProgram(KillTask(signal, pid), draws))
    ensures Known(e.states[i], Tid(c, 0)) && ReadBack(e.states[i], Tid(c, 0), KillTask(signal, pid))
  {
    hide OwnFilesNamed, ShareMeans, IsExecution, ReadBack, SafeTask, RunProgram, HoldsDispatch;
    RunTaskMeansItself(e, i, c, KillTask(signal, pid), draws);
    KillTaskSafe(signal, pid);
    SafeIsReadBack(e.states[i], Tid(c, 0), KillTask(signal, pid));
  }

  /**
   * The tasks of DispatchFolderTask, alone or as the mount whose first task has this place in Create: each
   * means itself, and for a plain destination mkdir, chmod and rsync are all read back.
   */
  lemma {:induction false} FolderTaskMeansItself(e: Execution, i: nat, c: nat, first: nat, dst: string, draws: Draws, k: nat)
    requires IsExecution(e) && |draws| == 3 && k < 3 && Starts(e, i, Tid(c, first + k))
    requires HoldsDispatch(e.states[i], c, first, FolderProgram(dst, draws))
    ensures Known(e.states[i], Tid(c, first + k)) && OwnFilesNamed(JobOf(e.states[i], Tid(c, first + k)))
    ensures ShareMeans(e.states[i], Tid(c, first + k), FolderTasks(dst)[k])
    ensures AllPlain(dst) ==> ReadBack(e.states[i], Tid(c, first + k), FolderTasks(dst)[k])
  {
    hide IsTask, IsTag, OwnFilesNamed, ShareMeans, IsExecution, ProgramOf, SafeTask, ReadBack;
    var t, task := Tid(c, first + k), FolderTasks(dst)[k];
    TagsOfHandlers();
    DispatchedIsTask(e.states[i], c, first, FolderTasks(dst), Step.StreamIn, draws, ["", "", ""], k);
    TaskKnown(e.states[i], t, task, Step.StreamIn);
    StartedTaskMeansItself(e, i, t, task, Step.StreamIn);
    if AllPlain(dst) {
      FolderTasksSafe(dst);
      SafeIsReadBack(e.states[i], t, task);
    }
  }

  /**
   * The three tasks that StreamIn dispatches for the extract file with this uuid; for a plain user and a safe
   * destination all are read back as meant.
   */
  lemma {:induction false} ExtractTaskMeansItself(e: Execution, i: nat, c: nat, id: string, parts: seq<In.Part>,
                                                  draws: Draws, k: nat)
    requires IsExecution(e) && |draws| == 3 && k < 3 && Starts(e, i, Tid(c, k)) && IsUuid(id)
    requires HoldsDispatch(e.states[i], c, 0, Extraction(id, parts, draws))
    ensures Known(e.states[i], Tid(c, k)) && OwnFilesNamed(JobOf(e.states[i], Tid(c, k)))
    ensures var tasks := ExtractTasks(ExtractName(id), In.LastPath(parts), In.LastUser(parts));
            && ShareMeans(e.states[i], Tid(c, k), tasks[k])
            && (AllPlain(In.LastUser(parts)) && SafeText(In.LastPath(parts)) ==> ReadBack(e.states[i], Tid(c, k), tasks[k]))
  {
    hide IsTask, IsTag, OwnFilesNamed, ShareMeans, IsExecution, ProgramOf, SafeTask, ReadBack, SafeText, IsUuid, AllPlain;
    hide HoldsDispatch, Known, ExtractFile, ExtractName, In.LastPath, In.LastUser;
    var file, dest, user := ExtractName(id), In.LastPath(parts), In.LastUser(parts);
    var t, task := Tid(c, k), ExtractTasks(file, dest, user)[k];
    TagsOfHandlers();
    DispatchedIsTask(e.states[i], c, 0, ExtractTasks(file, dest, user), Step.StreamIn, draws, ["", "", ""], k);
    TaskKnown(e.states[i], t, task, Step.StreamIn);
    StartedTaskMeansItself(e, i, t, task, Step.StreamIn);
    if AllPlain(user) && SafeText(dest) {
      ExtractNameIsEntry(id);
      ExtractTasksSafe(file, dest, user);
      SafeIsReadBack(e.states[i], t, task);
    }
  }

  /** The two tasks of DispatchStreamOutTask, of which the second has the archive. */
  lemma {:induction false} StreamOutTaskMeansItself(e: Execution, i: nat, c: nat, path: string, user: string,
                                                    fileId: string, draws: Draws, k: nat)
    requires IsExecution(e) && |draws| == 2 && k < 2 && Starts(e, i, Tid(c, k)) && IsUuid(fileId)
    requires HoldsDispatch(e.states[i], c, 0, StreamOutProgram(path, user, fileId, draws))
    ensures Known(e.states[i], Tid(c, k)) && OwnFilesNamed(JobOf(e.states[i], Tid(c, k)))
    ensures ShareMeans(e.states[i], Tid(c, k), StreamOutTasks(path, user, fileId)[k])
    ensures AllPlain(user) && SafeText(path) ==>
      ReadBack(e.states[i], Tid(c, k), StreamOutTasks(path, user, fileId)[k])
  {
    hide IsTask, IsTag, OwnFilesNamed, ShareMeans, IsExecution, ProgramOf, SafeTask, ReadBack, SafeText, IsUuid, AllPlain;
    hide HoldsDispatch, Known, FilePathJoin;
    var t, task := Tid(c, k), StreamOutTasks(path, user, fileId)[k];
    TagsOfHandlers();
    DispatchedIsTask(e.states[i], c, 0, StreamOutTasks(path, user, fileId), Step.StreamOut, draws, ["", fileId], k);
    TaskKnown(e.states[i], t, task, Step.StreamOut);
    StartedTaskMeansItself(e, i, t, task, Step.StreamOut);
    if AllPlain(user) && SafeText(path) {
      UuidIsPlain(fileId);
      StreamOutTasksSafe(path, user, fileId);
      SafeIsReadBack(e.states[i], t, task);
    }
  }

  /** Create: whichever of its mounts a started task belongs to, and whichever of the three it is, it means itself. */
  lemma {:induction false} MountTaskMeansItself(e: Execution, i: nat, c: nat, mounts: seq<BindMount>, draws: seq<Draws>,
                                                k: nat, a: nat)
    requires IsExecution(e) && DrawsFit(mounts, draws) && k < |mounts| && a < 3 && Starts(e, i, Tid(c, 3 * k + a))
    requires c in e.states[i].clients && e.states[i].clients[c].prog == MountProgram(mounts, draws)
    requires forall b :: 0 <= b < 3 ==> IsUuid(draws[k][b].1)
    ensures var s, t, task := e.states[i], Tid(c, 3 * k + a), FolderTasks(mounts[k].dst)[a];
            && Known(s, t) && OwnFilesNamed(JobOf(s, t)) && ShareMeans(s, t, task)
            && (AllPlain(mounts[k].dst) ==> ReadBack(s, t, task))
  {
    hide IsExecution, MountProgram, HoldsDispatch, OwnFilesNamed, ShareMeans, ReadBack, IsUuid, AllPlain, Known;
    hide FolderProgram, FolderTasks;
    MountIsDispatch(e.states[i], c, mounts, draws, k);
    FolderTaskMeansItself(e, i, c, 3 * k, mounts[k].dst, draws[k], a);
  }

  /** The program of Create holds the dispatch of each mount in its place. */
  lemma {:induction false} MountIsDispatch(s: State, c: nat, mounts: seq<BindMount>, draws: seq<Draws>, k: nat)
    requires DrawsFit(mounts, draws) && k < |mounts| && c in s.clients && s.clients[c].prog == MountProgram(mounts, draws)
    requires forall a :: 0 <= a < 3 ==> IsUuid(draws[k][a].1)
    ensures HoldsDispatch(s, c, 3 * k, FolderProgram(mounts[k].dst, draws[k]))
  {
    hide MountProgram, Compiled, IsUuid;
    var jobs := FolderProgram(mounts[k].dst, draws[k]);
    MountSlice(mounts, draws, k);
    forall a | 0 <= a < 3 ensures s.clients[c].prog[3 * k + a] == jobs[a] && IsUuid(jobs[a].uuid) {
      assert jobs[a] == s.clients[c].prog[3 * k..][..3][a];
      CompiledFields(FolderTasks(mounts[k].dst)[a], Step.StreamIn, draws[k][a].0, draws[k][a].1, ["", "", ""][a]);
    }
  }
}
