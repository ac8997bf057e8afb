/** The tasks that each handler dispatches, and when their scripts say what the handler meant. */
module Programs {
  import opened Decimal
  import opened Strings
  import opened ShellLexer
  import opened ShellWords
  import opened ShellCommands
  import opened Tasks
  import opened Paths
  import opened SharePaths
  import opened TaskScript
  import opened Delivery
  import opened Polling

  /** DispatchFolderTask: make the folder, open it up, copy from the share into it. */
  function FolderTasks(dst: string): (tasks: seq<RunTask>)
    ensures |tasks| == 3
  {
    [RunTask("root", [], "mkdir", ["-p", dst], "mkdir"),
     RunTask("root", [], "chmod", ["777", dst], "chmod"),
     RunTask("root", [], "rsync", ["-a", FolderTarget(SWAP_ROOT, dst) + "/", dst], "rsync")]
  }

  /** DispatchExtractFileTask; only the last task runs as the client's user. */
  function ExtractTasks(file: string, dest: string, user: string): (tasks: seq<RunTask>)
    ensures |tasks| == 3
  {
    [RunTask("root", [], "mkdir", ["-p", dest], "mkdir"),
     RunTask("root", [], "chmod", ["777", dest], "chmod"),
     RunTask(user, [], "tar", ["-C", dest, "-xf", ExtractFile(SWAP_ROOT, file)], "tar")]
  }

  /** DispatchStreamOutTask. */
  function StreamOutTasks(path: string, user: string, id: string): (tasks: seq<RunTask>)
    ensures |tasks| == 2
  {
    var folder := FilePathJoin([SWAP_ROOT, SWAP_OUT, "streamout"]);
    [RunTask(user, [], "mkdir", ["-p", folder], "mkdir"),
     RunTask(user, [], "tar", ["-cf", folder + "/" + id, path], "tar-cf")]
  }

  /** The task that Signal dispatches. */
  function KillTask(signal: int, pid: int): RunTask {
    RunTask("", [], "kill", KillArgs(signal, pid), "kill")
  }

  // ----- Plain arguments are safe -----

  predicate SafeText(arg: string) {
    SafeArg(arg) && '\'' !in arg
  }

  lemma {:induction false} PlainIsDoubleSafe(v: string)
    requires AllPlain(v)
    ensures DoubleSafe(v)
  {
    if v != "" {
      PlainIsDoubleSafe(v[1..]);
    }
  }

  lemma {:induction false} PlainIsSafe(arg: string)
    requires AllPlain(arg)
    ensures SafeText(arg)
  {
    var k := IndexOf(arg, '=');
    if k < |arg| {
      PlainIsDoubleSafe(arg[k + 1..]);
    }
  }

  lemma {:induction false} PlainWords()
    ensures AllPlain("root") && AllPlain("mkdir") && AllPlain("chmod") && AllPlain("rsync") && AllPlain("tar")
    ensures AllPlain("kill")
  {
  }

  lemma {:induction false} PlainFlags()
    ensures AllPlain("-p") && AllPlain("777") && AllPlain("-a") && AllPlain("-C") && AllPlain("-xf")
    ensures AllPlain("-cf") && AllPlain("-s")
  {
  }

  lemma {:induction false} CommandNames()
    ensures IsCommandName("mkdir") && IsCommandName("chmod") && IsCommandName("rsync")
    ensures IsCommandName("tar") && IsCommandName("kill")
  {
    hide IsCommandName, AllPlain;
    PlainWords();
    NotReserved();
    UnreservedName("mkdir");
    UnreservedName("chmod");
    UnreservedName("rsync");
    UnreservedName("tar");
    UnreservedName("kill");
  }

  lemma {:induction false} NotReserved()
    ensures "mkdir" !in RESERVED && "chmod" !in RESERVED && "rsync" !in RESERVED && "tar" !in RESERVED
    ensures "kill" !in RESERVED
  {
    assert forall k :: 0 <= k < |RESERVED| ==> RESERVED[k][0] != 'm' && RESERVED[k][0] != 'r' && RESERVED[k][0] != 'k';
    assert forall k :: 0 <= k < |RESERVED| && RESERVED[k][0] == 'c' ==> |RESERVED[k]| != 5;
    assert forall k :: 0 <= k < |RESERVED| && RESERVED[k][0] == 't' ==> |RESERVED[k]| == 4;
  }

  lemma {:induction false} PlainNumber(n: int)
    ensures AllPlain(Itoa(n))
  {
    assert forall m: nat :: AllDigits(PrintNat(m));
  }

  /** The kill task always says what Signal meant: its arguments are numbers. */
  lemma {:induction false} KillTaskSafe(signal: int, pid: int)
    ensures SafeTask(KillTask(signal, pid))
  {
    hide AllPlain, SafeArg, IsCommandName, Itoa;
    CommandNames();
    PlainFlags();
    PlainNumber(signal);
    PlainNumber(pid);
    PlainIsSafe("-s");
    PlainIsSafe(Itoa(signal));
    PlainIsSafe(Itoa(pid));
    assert AllPlain("") by { EmptyIsPlain(); }
  }

  lemma {:induction false} EmptyIsPlain()
    ensures AllPlain("")
  {
  }

  // ----- Archives -----

  predicate AllSafeTasks(tasks: seq<RunTask>) {
    forall k :: 0 <= k < |tasks| ==> SafeTask(tasks[k])
  }

  lemma {:induction false} PlainPlaces(name: string)
    requires IsEntryName(name) && AllPlain(name)
    ensures AllPlain(ExtractFile(SWAP_ROOT, name)) && AllPlain(StreamOutFile(SWAP_ROOT, name))
    ensures AllPlain(FilePathJoin([SWAP_ROOT, SWAP_OUT, "streamout"]))
  {
    hide AllPlain, IsEntryName, Components, Render, IsRoot, AllPlainParts, FilePathJoin;
    SwapRootIsRoot();
    FixedNames();
    PlainSwapFolders();
    assert AreEntryNames([name]) && AreEntryNames(["streamout"]);
    BelowSwapFolder(SWAP_ROOT, "in", [name]);
    assert [SWAP_ROOT, "./" + "in"] + [name] == [SWAP_ROOT, SWAP_IN, name];
    PlainPath(["in"], name, ExtractFile(SWAP_ROOT, name));
    OutputEntry(SWAP_ROOT, "streamout", name);
    assert ["out", "streamout"] + [name] == ["out", "streamout", name];
    PlainPath(["out", "streamout"], name, StreamOutFile(SWAP_ROOT, name));
    BelowSwapFolder(SWAP_ROOT, "out", ["streamout"]);
    assert [SWAP_ROOT, "./" + "out"] + ["streamout"] == [SWAP_ROOT, SWAP_OUT, "streamout"];
    PlainPath(["out"], "streamout", FilePathJoin([SWAP_ROOT, SWAP_OUT, "streamout"]));
  }

  lemma {:induction false} PlainSwapFolders()
    ensures AllPlainParts(["in"]) && AllPlainParts(["out"]) && AllPlainParts(["out", "streamout"])
      && AllPlain("streamout")
  {
  }

  /** All three extraction tasks say what was meant if and only if the user is plain and the destination safe. */
  lemma {:induction false} ExtractTasksSafe(file: string, dest: string, user: string)
    requires IsEntryName(file) && AllPlain(file)
    ensures AllSafeTasks(ExtractTasks(file, dest, user)) <==> AllPlain(user) && SafeText(dest)
  {
    hide AllPlain, SafeArg, IsCommandName, ExtractFile;
    var tasks := ExtractTasks(file, dest, user);
    CommandNames();
    PlainWords();
    PlainFlags();
    PlainPlaces(file);
    PlainIsSafe("-p");
    PlainIsSafe("777");
    PlainIsSafe("-C");
    PlainIsSafe("-xf");
    PlainIsSafe(ExtractFile(SWAP_ROOT, file));
    assert tasks[0].args[1] == dest && tasks[2].user == user;
  }

  /** Both stream-out tasks say what was meant if and only if the user is plain and the path safe. */
  lemma {:induction false} StreamOutTasksSafe(path: string, user: string, id: string)
    requires IsEntryName(id) && AllPlain(id)
    ensures AllSafeTasks(StreamOutTasks(path, user, id)) <==> AllPlain(user) && SafeText(path)
  {
    hide AllPlain, SafeArg, IsCommandName, FilePathJoin, StreamOutFile;
    var tasks := StreamOutTasks(path, user, id);
    CommandNames();
    PlainFlags();
    PlainPlaces(id);
    ArchivePathPrinted(id);
    PlainIsSafe("-p");
    PlainIsSafe("-cf");
    PlainIsSafe(FilePathJoin([SWAP_ROOT, SWAP_OUT, "streamout"]));
    PlainIsSafe(StreamOutFile(SWAP_ROOT, id));
    assert tasks[1].args[2] == path && tasks[1].user == user && tasks[1].args[1] == StreamOutFile(SWAP_ROOT, id);
  }

  // ----- Folders -----

  lemma {:induction false} PlainParts(s: string)
    requires AllPlain(s)
    ensures AllPlainParts(Parts(s))
    decreases |s|
  {
    var k := IndexOf(s, '/');
    if k < |s| {
      PlainParts(s[k + 1..]);
    }
  }

  lemma {:induction false} PlainResolve(rooted: bool, done: seq<string>, parts: seq<string>)
    requires AllPlainParts(done) && AllPlainParts(parts)
    ensures AllPlainParts(Resolve(rooted, done, parts))
    decreases |parts|
  {
    hide AllPlain;
    if parts != [] {
      PlainResolve(rooted, done, parts[..|parts| - 1]);
    }
  }

  lemma {:induction false} PlainFolderTarget(dst: string)
    requires AllPlain(dst)
    ensures AllPlain(FolderTarget(SWAP_ROOT, dst) + "/")
  {
    hide AllPlain, Components, FilePathJoin, Parts, IsRoot, Resolve, Normal;
    SwapRootIsRoot();
    PlainSwapFolders();
    PlainParts(dst);
    FolderComponents(SWAP_ROOT, dst);
    PlainResolve(false, ["in"], Parts(dst));
    PlainSwapRoot();
    PlainResolve(true, ["swaproot"], Resolve(false, ["in"], Parts(dst)));
    JoinComponents([SWAP_ROOT, FilePathJoin([SWAP_IN, dst])]);
    PlainRendered(Components(FolderTarget(SWAP_ROOT, dst)));
  }

  lemma {:induction false} PlainSwapRoot()
    ensures AllPlainParts(["swaproot"])
  {
  }

  lemma {:induction false} PlainRendered(c: seq<string>)
    requires AllPlainParts(c)
    ensures AllPlain(Render(true, c) + "/")
  {
    PlainJoin(c);
  }

  /**
   * The three folder tasks of a bind mount say what was meant if and only if the destination is safe, as it
   * is and as part of the source folder; every plain destination is.
   */
  lemma {:induction false} FolderTasksSafe(dst: string)
    ensures AllSafeTasks(FolderTasks(dst)) <==> SafeText(dst) && SafeText(FolderTarget(SWAP_ROOT, dst) + "/")
    ensures AllPlain(dst) ==> AllSafeTasks(FolderTasks(dst))
  {
    hide AllPlain, SafeArg, IsCommandName, FolderTarget;
    var tasks := FolderTasks(dst);
    CommandNames();
    PlainWords();
    PlainFlags();
    PlainIsSafe("-p");
    PlainIsSafe("777");
    PlainIsSafe("-a");
    assert tasks[0].args[1] == dst && tasks[2].args[1] == FolderTarget(SWAP_ROOT, dst) + "/";
    if AllPlain(dst) {
      PlainIsSafe(dst);
      PlainFolderTarget(dst);
      PlainIsSafe(FolderTarget(SWAP_ROOT, dst) + "/");
    }
  }
}
