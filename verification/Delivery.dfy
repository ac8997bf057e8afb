/** From the task that a handler describes to the script that the daemon runs: the texts, on the running protocol. */
module Delivery {
  import opened Wrappers
  import opened Decimal
  import opened Strings
  import opened ShellLexer
  import opened ShellCommands
  import opened Tasks
  import opened Naming
  import opened Paths
  import opened SharePaths
  import opened EnvFile
  import opened TaskScript
  import opened Protocol
  import opened Ordering

  /** The container paths that scheduleTask prints into the script. */
  function FilesFor(step: Step, stem: string, id: string): Files {
    Files(QueueFile(SWAP_ROOT, step, stem + ".env"), OutputFile(SWAP_ROOT, id + ".err"),
          OutputFile(SWAP_ROOT, id + ".pid"), OutputFile(SWAP_ROOT, id + ".exit"))
  }

  /** What scheduleTask makes of a task at a clock reading and with a fresh uuid. */
  function Compiled(task: RunTask, step: Step, nanos: nat, uuid: string, archive: string): Job {
    var named := Job(step, nanos, task.tag, uuid, "", "", archive);
    named.(env := EnvText(task.env), script := ScriptText(task, FilesFor(step, named.Stem(), named.Id())))
  }

  /** Tags are fixed plain words of the program, and the uuid is printed in plain characters. */
  predicate PlainNames(job: Job) {
    AllPlain(job.tag) && AllPlain(job.uuid) && NamesFiles(job)
  }

  predicate AllPlainParts(c: seq<string>) {
    forall k :: 0 <= k < |c| ==> AllPlain(c[k])
  }

  lemma {:induction false} PlainJoin(c: seq<string>)
    requires AllPlainParts(c)
    ensures AllPlain(Join(c, "/"))
  {
    if |c| > 1 {
      PlainJoin(c[1..]);
    }
  }

  lemma {:induction false} PlainStem(job: Job, suffix: string)
    requires AllPlain(job.tag) && AllPlain(job.uuid) && AllPlain(suffix)
    ensures AllPlain(job.Stem() + suffix) && AllPlain(job.Id() + suffix)
  {
    assert AllPlain(PrintNat(job.nanos)) by { assert AllDigits(PrintNat(job.nanos)); }
  }

  lemma {:induction false} PlainPath(folder: seq<string>, name: string, path: string)
    requires AllPlainParts(folder) && AllPlain(name) && path == Render(true, ["swaproot"] + (folder + [name]))
    ensures AllPlain(path) && path != ""
  {
    var c := ["swaproot"] + (folder + [name]);
    assert AllPlain("swaproot");
    PlainJoin(c);
  }

  lemma {:induction false} PlainStepFolder(step: Step)
    ensures AllPlain(StepFolder(step))
  {
  }

  lemma {:induction false} PlainFolderNames()
    ensures AllPlain("one_off_tasks") && AllPlain("out") && AllPlain("tasks")
  {
  }

  lemma {:induction false} PlainFolders(step: Step)
    ensures AllPlainParts(TaskFolder(step)) && AllPlainParts(["out", "tasks"])
  {
    hide AllPlain, StepFolder;
    PlainStepFolder(step);
    PlainFolderNames();
  }

  lemma {:induction false} PlainQueueFile(step: Step, name: string)
    requires IsEntryName(name) && AllPlain(name)
    ensures AllPlain(QueueFile(SWAP_ROOT, step, name)) && QueueFile(SWAP_ROOT, step, name) != ""
  {
    hide QueueFile, AllPlain, IsEntryName, Components, Render, IsRoot, TaskFolder, AllPlainParts;
    SwapRootIsRoot();
    QueueFileEntry(SWAP_ROOT, step, name);
    PlainFolders(step);
    PlainPath(TaskFolder(step), name, QueueFile(SWAP_ROOT, step, name));
  }

  lemma {:induction false} PlainOutputFile(name: string)
    requires IsEntryName(name) && AllPlain(name)
    ensures AllPlain(OutputFile(SWAP_ROOT, name)) && OutputFile(SWAP_ROOT, name) != ""
  {
    hide AllPlain, IsEntryName, Components, Render, IsRoot, TaskFolder, AllPlainParts, FilePathJoin;
    SwapRootIsRoot();
    FixedNames();
    OutputEntry(SWAP_ROOT, "tasks", name);
    PlainFolders(Run);
    assert ["out", "tasks"] + [name] == ["out", "tasks", name];
    PlainPath(["out", "tasks"], name, OutputFile(SWAP_ROOT, name));
  }

  lemma {:induction false} FilesArePlain(job: Job)
    requires PlainNames(job)
    ensures PlainFiles(FilesFor(job.step, job.Stem(), job.Id()))
  {
    hide QueueFile, OutputFile, AllPlain, IsEntryName, Job.Stem, Job.Id;
    PlainSuffixes();
    PlainStem(job, ".env");
    PlainStem(job, ".err");
    PlainStem(job, ".pid");
    PlainStem(job, ".exit");
    BaseIsEntryName(job, EnvFile);
    BaseIsEntryName(job, PidFile);
    BaseIsEntryName(job, ExitFile);
    ErrIsEntryName(job);
    PlainQueueFile(job.step, job.Stem() + ".env");
    PlainOutputFile(job.Id() + ".err");
    PlainOutputFile(job.Id() + ".pid");
    PlainOutputFile(job.Id() + ".exit");
  }

  lemma {:induction false} PlainSuffixes()
    ensures AllPlain(".env") && AllPlain(".err") && AllPlain(".pid") && AllPlain(".exit")
  {
  }

  lemma {:induction false} ErrIsEntryName(job: Job)
    requires NamesFiles(job)
    ensures IsEntryName(job.Id() + ".err")
  {
  }

  // ----- End to end -----

  /** On the share, the file that this container path names. */
  predicate PathNames(path: string, job: Job, kind: Kind) {
    EntryBelow(SWAP_ROOT, path) == Some(Place(LocationOf(job, kind)))
  }

  /** The `source` line, the pid line and the exit line of a task's script name the task's own files. */
  predicate OwnFilesNamed(job: Job) {
    var files := FilesFor(job.step, job.Stem(), job.Id());
    PathNames(files.env, job, EnvFile) && PathNames(files.pid, job, PidFile) && PathNames(files.exit, job, ExitFile)
  }

  /** The two shells that run this script read back the task, body and tail included. */
  predicate ScriptMeans(script: string, task: RunTask, files: Files) {
    && |HEADER| <= |script|
    && var body := Body(task, files);
    && ReadWords(script, |HEADER|) == Some(Command(OuterWords(task.user, body), |script| - 2))
    && ReadBody(body) == Some(Meant(task, files))
  }

  /**
   * The task's script and env file are there, complete, and mean the task: the script exactly if the task is
   * safe, the env file exactly if its list is.
   */
  predicate ShareMeans(s: State, t: Tid, task: RunTask)
    requires Known(s, t)
  {
    var job := JobOf(s, t);
    && ScriptName(t) in s.share && Name(EnvFile, t) in s.share
    && (ScriptMeans(s.share[ScriptName(t)].content, task, FilesFor(job.step, job.Stem(), job.Id())) <==> SafeTask(task))
    && (Source(s.share[Name(EnvFile, t)].content) == Some(task.env) <==> AllSafeEnvs(task.env))
  }

  lemma {:induction false} NamesOwnFiles(job: Job)
    requires NamesFiles(job)
    ensures OwnFilesNamed(job)
  {
    hide EntryBelow, Components, IsRoot, FilePathJoin, Job.Stem, Job.Id, IsEntryName;
    SwapRootIsRoot();
    FileAtItsLocation(SWAP_ROOT, job, EnvFile);
    FileAtItsLocation(SWAP_ROOT, job, PidFile);
    FileAtItsLocation(SWAP_ROOT, job, ExitFile);
  }

  lemma {:induction false} CompiledTexts(task: RunTask, step: Step, nanos: nat, uuid: string, archive: string)
    ensures var job := Compiled(task, step, nanos, uuid, archive);
            && job.env == EnvText(task.env) && job.script == ScriptText(task, FilesFor(step, job.Stem(), job.Id()))
            && |HEADER| <= |job.script|
  {
  }

  lemma {:induction false} CompiledFields(task: RunTask, step: Step, nanos: nat, uuid: string, archive: string)
    ensures var job := Compiled(task, step, nanos, uuid, archive);
            && job.step == step && job.nanos == nanos && job.uuid == uuid && job.tag == task.tag && job.archive == archive
            && job.env != "" && job.script != ""
  {
    hide ScriptText, EnvText, FilesFor;
    CompiledTexts(task, step, nanos, uuid, archive);
    var job := Compiled(task, step, nanos, uuid, archive);
    assert |job.script| >= |HEADER| > 0;
    EnvTextStarts(task.env);
  }

  lemma {:induction false} EnvTextStarts(envs: seq<string>)
    ensures EnvText(envs) != ""
  {
    assert |HEADER| > 0;
  }

  lemma {:induction false} TextsMean(task: RunTask, job: Job)
    requires PlainNames(job) && job == Compiled(task, job.step, job.nanos, job.uuid, job.archive)
    ensures ScriptMeans(job.script, task, FilesFor(job.step, job.Stem(), job.Id())) <==> SafeTask(task)
    ensures Source(job.env) == Some(task.env) <==> AllSafeEnvs(task.env)
  {
    hide ScriptText, EnvText, Body, SafeTask, AllSafeEnvs, ReadWords, ReadBody, PlainFiles, FilesFor, PlainNames, Source;
    hide OuterWords, Meant;
    FilesArePlain(job);
    CompiledTexts(task, job.step, job.nanos, job.uuid, job.archive);
    ScriptExact(task, FilesFor(job.step, job.Stem(), job.Id()));
    EnvFileExact(task.env);
  }

  /**
   * End to end. When the daemon starts a script, whatever else goes on, the file it runs is the complete
   * script of a published task and names that task's own files. If the task is safe, and only then, the two
   * shells read back its user, path and arguments; if its environment is safe, and only then, sourcing the
   * env file, which is complete, gives back its list.
   */
  lemma {:induction false} StartedScriptMeansItsTask(e: Execution, i: nat, t: Tid, task: RunTask)
    requires IsExecution(e) && i < |e.actions|
    requires e.actions[i].DaemonStep? && e.states[i].daemon.pc.Exec? && e.states[i].daemon.current == Some(t)
    requires Known(e.states[i], t) && PlainNames(JobOf(e.states[i], t))
    requires var job := JobOf(e.states[i], t); job == Compiled(task, job.step, job.nanos, job.uuid, job.archive)
    ensures OwnFilesNamed(JobOf(e.states[i], t)) && ShareMeans(e.states[i], t, task)
  {
    hide OwnFilesNamed, ScriptMeans, Compiled, SafeTask, AllSafeEnvs, Source, FilesFor, Enabled, Next;
    StartsCompleteScripts(e, i);
    NamesOwnFiles(JobOf(e.states[i], t));
    TextsMean(task, JobOf(e.states[i], t));
  }
}
