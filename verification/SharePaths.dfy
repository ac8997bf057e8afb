/** Host and container name the same entry of the share, file by file and for the folders of bind mounts. */
module SharePaths {
  import opened Wrappers
  import opened Decimal
  import opened Strings
  import opened Tasks
  import opened Naming
  import opened Paths

  // ----- The paths as the program computes them, below either root -----

  function QueueFile(root: string, step: Step, name: string): string {
    FilePathJoin([FilePathJoin([root, "one_off_tasks", StepFolder(step)]), name])
  }

  function OutputFile(root: string, name: string): string {
    FilePathJoin([root, SWAP_OUT, "tasks", name])
  }

  function StreamOutFile(root: string, id: string): string {
    FilePathJoin([root, SWAP_OUT, "streamout", id])
  }

  /** The name that PrepareExtractFile makes of the uuid it draws. */
  function ExtractName(id: string): string {
    "extract_" + id
  }

  function ExtractFile(root: string, name: string): string {
    FilePathJoin([root, SWAP_IN, name])
  }

  function FolderTarget(root: string, dst: string): string {
    FilePathJoin([root, FilePathJoin([SWAP_IN, dst])])
  }

  function FilePath(root: string, job: Job, kind: Kind): string {
    match kind
    case EnvFile => QueueFile(root, job.step, job.Stem() + ".env")
    case ScriptFile => QueueFile(root, job.step, job.Stem() + ".sh")
    case TempFile => QueueFile(root, job.step, job.Stem() + ".sh") + ".temp"
    case ExecutedFile => QueueFile(root, job.step, job.Stem() + ".sh") + ".executed"
    case PidFile => OutputFile(root, job.Id() + ".pid")
    case ExitFile => OutputFile(root, job.Id() + ".exit")
    case ArchiveFile => StreamOutFile(root, job.archive)
  }

  /** The components of a location, below the root of the share. */
  function Place(loc: Location): seq<string> {
    loc.folder + [loc.base]
  }

  // ----- Files -----

  /** Tags are fixed words and uuids hexadecimal digits and hyphens; neither has a slash. */
  predicate NamesFiles(job: Job) {
    '/' !in job.tag && '/' !in job.uuid
  }

  /** An archive, where there is one, is named by a uuid of its own. */
  predicate NamesFile(job: Job, kind: Kind) {
    NamesFiles(job) && (kind == ArchiveFile ==> IsEntryName(job.archive))
  }

  lemma {:induction false} BaseIsEntryName(job: Job, kind: Kind)
    requires NamesFile(job, kind)
    ensures IsEntryName(LocationOf(job, kind).base)
  {
    var base := LocationOf(job, kind).base;
    if kind == ArchiveFile {
      assert base == job.archive;
    } else {
      assert '/' !in PrintNat(job.nanos) by { assert AllDigits(PrintNat(job.nanos)); }
      assert '/' !in job.Id() && '/' !in job.Stem() && '/' !in Suffix(kind);
      assert |base| >= |Suffix(kind)| + 1 >= 4;
    }
  }

  predicate AreEntryNames(names: seq<string>) {
    forall k :: 0 <= k < |names| ==> IsEntryName(names[k])
  }

  lemma {:induction false} PartsOfNames(names: seq<string>)
    requires AreEntryNames(names)
    ensures AllParts(names) == names
  {
    hide Parts;
    if names != [] {
      assert IsEntryName(names[0]);
      PartsOfOne(names[0]);
      PartsOfNames(names[1..]);
      assert names == [names[0]] + names[1..];
    }
  }

  lemma {:induction false} NamesResolve(names: seq<string>)
    requires AreEntryNames(names)
    ensures Resolve(false, [], names) == names
  {
    assert Normal(false, names) && [] + names == names;
    ResolveKeeps(false, [], names);
  }

  lemma {:induction false} FixedNames()
    ensures IsEntryName("in") && IsEntryName("out") && IsEntryName("tasks") && IsEntryName("streamout")
    ensures "./" + "out" == SWAP_OUT && "./" + "in" == SWAP_IN
  {
  }

  /** Joined to a root, entry names name the entry that they spell. */
  lemma {:induction false} NamesBelow(root: string, names: seq<string>)
    requires IsRoot(root) && AreEntryNames(names)
    ensures var path := FilePathJoin([root] + names);
            && IsRoot(path) && Components(path) == Components(root) + names && path == Render(true, Components(path))
            && EntryBelow(root, path) == Some(names)
  {
    PartsOfNames(names);
    NamesResolve(names);
    NamesEntry(root, names, names);
  }

  lemma {:induction false} QueueFileEntry(root: string, step: Step, name: string)
    requires IsRoot(root) && IsEntryName(name)
    ensures var path := QueueFile(root, step, name);
            && EntryBelow(root, path) == Some(TaskFolder(step) + [name])
            && Components(path) == Components(root) + (TaskFolder(step) + [name])
            && path == Render(true, Components(path))
  {
    hide Components, FilePathJoin, IsRoot, Render;
    assert AreEntryNames(TaskFolder(step));
    NamesBelow(root, TaskFolder(step));
    var folder := FilePathJoin([root] + TaskFolder(step));
    assert [root] + TaskFolder(step) == [root, "one_off_tasks", StepFolder(step)];
    NamesBelow(folder, [name]);
    assert [folder] + [name] == [folder, name];
    assert Components(root) + TaskFolder(step) + [name] == Components(root) + (TaskFolder(step) + [name]);
  }

  lemma {:induction false} SwapFolderResolves(folder: string, names: seq<string>)
    requires IsEntryName(folder) && AreEntryNames(names)
    ensures Resolve(false, [], AllParts(["./" + folder] + names)) == [folder] + names
  {
    hide Parts;
    PartsOfSwapFolder(folder);
    PartsOfNames(names);
    assert (["./" + folder] + names)[1..] == names;
    assert [".", folder] + names == ["."] + ([folder] + names);
    ResolveAppend(false, [], ["."], [folder] + names);
    assert Resolve(false, [], ["."]) == Resolve(false, [], []);
    NamesResolve([folder] + names);
  }

  /** The folders `./in` and `./out` in front of entry names. */
  lemma {:induction false} BelowSwapFolder(root: string, folder: string, names: seq<string>)
    requires IsRoot(root) && IsEntryName(folder) && AreEntryNames(names)
    ensures var path := FilePathJoin([root, "./" + folder] + names);
            && EntryBelow(root, path) == Some([folder] + names)
            && Components(path) == Components(root) + ([folder] + names) && path == Render(true, Components(path))
  {
    hide Components, FilePathJoin, IsRoot, Render, EntryBelow, AllParts, Resolve;
    SwapFolderResolves(folder, names);
    assert [root] + (["./" + folder] + names) == [root, "./" + folder] + names;
    NamesEntry(root, ["./" + folder] + names, [folder] + names);
  }

  lemma {:induction false} PartsOfSwapFolder(folder: string)
    requires IsEntryName(folder)
    ensures Parts("./" + folder) == [".", folder]
  {
    PartsOfOne(".");
    PartsOfOne(folder);
    PartsOfSlash(".", folder);
    assert "." + "/" + folder == "./" + folder;
  }

  lemma {:induction false} OutputEntry(root: string, folder: string, name: string)
    requires IsRoot(root) && IsEntryName(folder) && IsEntryName(name)
    ensures var path := FilePathJoin([root, SWAP_OUT, folder, name]);
            && EntryBelow(root, path) == Some(["out", folder, name])
            && Components(path) == Components(root) + ["out", folder, name] && path == Render(true, Components(path))
  {
    hide Components, FilePathJoin, IsRoot, Render, EntryBelow;
    assert AreEntryNames([folder, name]);
    FixedNames();
    BelowSwapFolder(root, "out", [folder, name]);
    assert [root, "./" + "out"] + [folder, name] == [root, SWAP_OUT, folder, name];
    assert ["out"] + [folder, name] == ["out", folder, name];
  }

  /** The code adds `.temp` and `.executed` behind a complete path. */
  lemma {:induction false} SuffixedEntry(root: string, path: string, folder: seq<string>, name: string, suffix: string)
    requires IsRoot(root) && IsEntryName(name) && IsEntryName(name + suffix) && AreEntryNames(folder)
    requires Components(path) == Components(root) + (folder + [name]) && path == Render(true, Components(path))
    ensures EntryBelow(root, path + suffix) == Some(folder + [name + suffix])
  {
    var c := Components(root) + folder;
    assert Components(path) == c + [name];
    JoinSuffix(c, name, suffix);
    assert path + suffix == "/" + (Join(c + [name], "/") + suffix) == Render(true, c + [name + suffix]);
    RenderedComponents(true, c + [name + suffix]);
    assert c + [name + suffix] == Components(root) + (folder + [name + suffix]);
  }

  lemma {:induction false} JoinSuffix(c: seq<string>, name: string, suffix: string)
    ensures Join(c + [name], "/") + suffix == Join(c + [name + suffix], "/")
  {
    if c != [] {
      JoinSuffix(c[1..], name, suffix);
      assert (c + [name])[1..] == c[1..] + [name] && (c + [name + suffix])[1..] == c[1..] + [name + suffix];
      assert c[0] + "/" + (Join(c[1..] + [name], "/") + suffix) == c[0] + "/" + Join(c[1..] + [name], "/") + suffix;
    }
  }

  lemma {:induction false} ArchiveEntry(root: string, job: Job)
    requires IsRoot(root) && IsEntryName(job.archive)
    ensures EntryBelow(root, StreamOutFile(root, job.archive)) == Some(Place(LocationOf(job, ArchiveFile)))
  {
    hide EntryBelow, Components, FilePathJoin, IsRoot, Render;
    FixedNames();
    assert job.archive + "" == job.archive;
    assert STREAM_OUT_FOLDER + [job.archive] == ["out", "streamout", job.archive];
    OutputEntry(root, "streamout", job.archive);
  }

  lemma {:induction false} RenamedEntry(root: string, job: Job, suffix: string)
    requires IsRoot(root) && NamesFiles(job) && IsEntryName(job.Stem() + ".sh" + suffix)
    ensures EntryBelow(root, QueueFile(root, job.step, job.Stem() + ".sh") + suffix)
            == Some(TaskFolder(job.step) + [job.Stem() + ".sh" + suffix])
  {
    hide EntryBelow, Components, FilePathJoin, IsRoot, Render, Job.Stem, Job.Id, IsEntryName;
    BaseIsEntryName(job, ScriptFile);
    QueueFileEntry(root, job.step, job.Stem() + ".sh");
    assert AreEntryNames(TaskFolder(job.step)) by { FolderNames(job.step); }
    SuffixedEntry(root, QueueFile(root, job.step, job.Stem() + ".sh"), TaskFolder(job.step), job.Stem() + ".sh", suffix);
  }

  lemma {:induction false} FolderNames(step: Step)
    ensures AreEntryNames(TaskFolder(step))
  {
  }

  lemma {:induction false} ReportEntry(root: string, job: Job, kind: Kind)
    requires IsRoot(root) && NamesFiles(job) && (kind == PidFile || kind == ExitFile)
    ensures EntryBelow(root, FilePath(root, job, kind)) == Some(Place(LocationOf(job, kind)))
  {
    hide EntryBelow, IsEntryName, Components, FilePathJoin, IsRoot, Render, Job.Stem, Job.Id;
    BaseIsEntryName(job, kind);
    FixedNames();
    var base := LocationOf(job, kind).base;
    OutputEntry(root, "tasks", base);
    assert TASK_OUTPUT_FOLDER + [base] == ["out", "tasks", base];
  }

  lemma {:induction false} QueueEntry(root: string, job: Job, kind: Kind)
    requires IsRoot(root) && NamesFiles(job) && (kind == EnvFile || kind == ScriptFile)
    ensures EntryBelow(root, FilePath(root, job, kind)) == Some(Place(LocationOf(job, kind)))
  {
    hide EntryBelow, IsEntryName, Components, FilePathJoin, IsRoot, Render, Job.Stem, Job.Id;
    BaseIsEntryName(job, kind);
    QueueFileEntry(root, job.step, LocationOf(job, kind).base);
  }

  lemma {:induction false} RenamedFileEntry(root: string, job: Job, kind: Kind)
    requires IsRoot(root) && NamesFiles(job) && (kind == TempFile || kind == ExecutedFile)
    ensures EntryBelow(root, FilePath(root, job, kind)) == Some(Place(LocationOf(job, kind)))
  {
    hide EntryBelow, IsEntryName, Components, FilePathJoin, IsRoot, Render, Job.Stem, Job.Id, QueueFile;
    BaseIsEntryName(job, kind);
    var suffix := if kind == TempFile then ".temp" else ".executed";
    assert job.Stem() + ".sh" + suffix == job.Stem() + (".sh" + suffix);
    assert ".sh" + suffix == Suffix(kind);
    RenamedEntry(root, job, suffix);
  }

  /**
   * Whatever root the share is mounted at, the path that the program computes for a file of a task names
   * the very place on the share that the protocol gives it.
   */
  lemma {:induction false} FileAtItsLocation(root: string, job: Job, kind: Kind)
    requires IsRoot(root) && NamesFile(job, kind)
    ensures EntryBelow(root, FilePath(root, job, kind)) == Some(Place(LocationOf(job, kind)))
  {
    match kind
    case PidFile => ReportEntry(root, job, kind);
    case ExitFile => ReportEntry(root, job, kind);
    case EnvFile => QueueEntry(root, job, kind);
    case ScriptFile => QueueEntry(root, job, kind);
    case TempFile => RenamedFileEntry(root, job, kind);
    case ExecutedFile => RenamedFileEntry(root, job, kind);
    case ArchiveFile => ArchiveEntry(root, job);
  }

  /** So the host, below its mount point, and the container, below /swaproot, mean the same file. */
  lemma {:induction false} HostAndContainerAgree(temp: string, job: Job, kind: Kind)
    requires IsTempName(temp) && NamesFile(job, kind)
    ensures EntryBelow(MountedPath(temp), FilePath(MountedPath(temp), job, kind))
            == EntryBelow(SWAP_ROOT, FilePath(SWAP_ROOT, job, kind))
            == Some(Place(LocationOf(job, kind)))
  {
    hide EntryBelow, FilePath, NamesFile;
    RootsOfShare(temp);
    FileAtItsLocation(MountedPath(temp), job, kind);
    FileAtItsLocation(SWAP_ROOT, job, kind);
  }

  /** The container's tar task is told `<folder>/<id>` by a plain print; that is the path the host opens. */
  lemma {:induction false} ArchivePathPrinted(id: string)
    requires IsEntryName(id)
    ensures FilePathJoin([SWAP_ROOT, SWAP_OUT, "streamout"]) + "/" + id == StreamOutFile(SWAP_ROOT, id)
  {
    hide EntryBelow, Components, FilePathJoin, IsRoot, Normal;
    RootsOfShare("folder_to_azure_");
    FixedNames();
    assert AreEntryNames(["streamout"]);
    BelowSwapFolder(SWAP_ROOT, "out", ["streamout"]);
    OutputEntry(SWAP_ROOT, "streamout", id);
    var c := ["swaproot"] + (["out"] + ["streamout"]);
    assert [SWAP_ROOT, "./" + "out"] + ["streamout"] == [SWAP_ROOT, SWAP_OUT, "streamout"];
    assert c + [id] == ["swaproot"] + ["out", "streamout", id];
    JoinLast(c, id);
    assert "/" + Join(c, "/") + "/" + id == "/" + (Join(c, "/") + "/" + id);
  }

  lemma {:induction false} JoinLast(c: seq<string>, x: string)
    requires c != []
    ensures Join(c + [x], "/") == Join(c, "/") + "/" + x
  {
    assert (c + [x])[1..] == c[1..] + [x];
    if |c| > 1 {
      JoinLast(c[1..], x);
      assert c[0] + "/" + (Join(c[1..], "/") + "/" + x) == c[0] + "/" + Join(c[1..], "/") + "/" + x;
    }
  }

  /** The file that the host fills for tar, and the one that the container's tar is told to read. */
  lemma {:induction false} ExtractFilesAgree(temp: string, name: string)
    requires IsTempName(temp) && IsEntryName(name)
    ensures EntryBelow(MountedPath(temp), ExtractFile(MountedPath(temp), name))
            == EntryBelow(SWAP_ROOT, ExtractFile(SWAP_ROOT, name)) == Some(["in", name])
  {
    hide EntryBelow, Components, FilePathJoin, IsRoot, MountedPath, IsTempName;
    RootsOfShare(temp);
    FixedNames();
    assert AreEntryNames([name]);
    BelowSwapFolder(MountedPath(temp), "in", [name]);
    BelowSwapFolder(SWAP_ROOT, "in", [name]);
    assert ["in"] + [name] == ["in", name];
    assert forall root: string :: [root, "./" + "in"] + [name] == [root, SWAP_IN, name];
  }

  // ----- Folder targets -----

  /** How far a list of components leads down, each `..` leading one up. */
  function Level(parts: seq<string>): int {
    if parts == [] then 0
    else
      var part := parts[|parts| - 1];
      Level(parts[..|parts| - 1]) + if part == "" || part == "." then 0 else if part == ".." then -1 else 1
  }

  /** Followed from the folder `in`, the destination leads above the root of the share at some point. */
  predicate ClimbsOut(parts: seq<string>) {
    exists k :: 0 <= k <= |parts| && Level(parts[..k]) < -1
  }

  lemma {:induction false} ClimbsOutSplit(parts: seq<string>)
    requires parts != []
    ensures ClimbsOut(parts) <==> ClimbsOut(parts[..|parts| - 1]) || Level(parts) < -1
  {
    var p := parts[..|parts| - 1];
    assert forall k :: 0 <= k <= |p| ==> p[..k] == parts[..k];
    assert parts[..|parts|] == parts;
    if ClimbsOut(parts) {
      var k :| 0 <= k <= |parts| && Level(parts[..k]) < -1;
      assert k <= |p| ==> Level(p[..k]) < -1;
    }
    if ClimbsOut(p) {
      var k :| 0 <= k <= |p| && Level(p[..k]) < -1;
      assert Level(parts[..k]) < -1;
    }
  }

  /** Once a destination climbs out, its clean form begins with `..` for good; until then it has none. */
  lemma {:induction false} CleanBelowIn(parts: seq<string>)
    requires NoSlashes(parts)
    ensures var c := Resolve(false, ["in"], parts);
            if ClimbsOut(parts) then c != [] && c[0] == ".." else AreEntryNames(c) && |c| == 1 + Level(parts)
    decreases |parts|
  {
    if parts == [] {
      assert forall k :: 0 <= k <= |parts| ==> parts[..k] == [];
    } else {
      ClimbsOutSplit(parts);
      CleanBelowIn(parts[..|parts| - 1]);
    }
  }

  lemma {:induction false} PrefixesClash(temp: string, c: seq<string>)
    requires ["tmp", temp] <= c
    ensures !(["swaproot"] <= c)
  {
    assert c[0] == ["tmp", temp][0];
    assert |c[0]| != |"swaproot"|;
  }

  lemma {:induction false} UpFromRoot(t: seq<string>)
    ensures Resolve(true, [], [".."] + t) == Resolve(true, [], t)
  {
    ResolveAppend(true, [], [".."], t);
    assert [".."][..0] == [] && Resolve(true, [], [".."]) == [];
  }

  lemma {:induction false} TwoUp(t: seq<string>)
    ensures Resolve(true, ["tmp"], [".."] + t) == Resolve(true, [], [".."] + t)
  {
    FirstUp(["tmp"], t);
    assert ["tmp"][..0] == [];
    UpFromRoot(t);
  }

  /** Once one `..` has left the mounted root, no path below it is below both roots. */
  lemma {:induction false} NotBelowBoth(temp: string, t: seq<string>)
    requires temp != "swaproot" && Normal(false, t)
    ensures !(["tmp", temp] <= Resolve(true, ["tmp"], t) && ["swaproot"] <= Resolve(true, [], t))
  {
    hide Resolve;
    if t != [] && t[0] == ".." {
      assert t == [".."] + t[1..];
      TwoUp(t[1..]);
      if ["tmp", temp] <= Resolve(true, [], t) {
        PrefixesClash(temp, Resolve(true, [], t));
      }
    } else {
      assert [] + t == t;
      ResolveKeeps(true, [], t);
      ResolveKeeps(true, ["tmp"], t);
      assert (["tmp"] + t)[1..] == t;
    }
  }

  lemma {:induction false} LeadingDotsDiffer(temp: string, c: seq<string>)
    requires IsTempName(temp) && Normal(false, c) && c != [] && c[0] == ".."
    ensures !(["tmp", temp] <= Resolve(true, ["tmp", temp], c) && ["swaproot"] <= Resolve(true, ["swaproot"], c))
  {
    hide Resolve;
    var t := c[1..];
    assert c == [".."] + t;
    AtTail(temp, 0, "folder_to_azure_");
    FirstUp(["tmp", temp], t);
    FirstUp(["swaproot"], t);
    assert ["tmp", temp][..1] == ["tmp"] && ["swaproot"][..0] == [];
    assert forall k :: 0 <= k < |t| ==> t[k] == c[k + 1];
    NotBelowBoth(temp, t);
  }

  lemma {:induction false} FirstUp(done: seq<string>, t: seq<string>)
    requires done != [] && done[|done| - 1] != ".."
    ensures Resolve(true, done, [".."] + t) == Resolve(true, done[..|done| - 1], t)
  {
    ResolveAppend(true, done, [".."], t);
    assert [".."][..0] == [];
    assert Resolve(true, done, [".."]) == OneComponent(true, done, "..");
  }

  /** The components of a folder target below either root. */
  lemma {:induction false} FolderComponents(root: string, dst: string)
    requires IsRoot(root)
    ensures var c := Resolve(false, ["in"], Parts(dst));
            && Normal(false, c) && Components(FolderTarget(root, dst)) == Resolve(true, Components(root), c)
  {
    hide Parts, FilePathJoin;
    var c := Resolve(false, ["in"], Parts(dst));
    FixedNames();
    PartsOfSwapFolder("in");
    assert [SWAP_IN, dst][1..] == [dst] && [dst][1..] == [];
    assert AllParts([dst]) == Parts(dst) + [] == Parts(dst);
    JoinComponents([SWAP_IN, dst]);
    ResolveAppend(false, [], [".", "in"], Parts(dst));
    DotIn();
    var rel := FilePathJoin([SWAP_IN, dst]);
    assert Components(rel) == c;
    JoinComponents([root, rel]);
    assert [root, rel][1..] == [rel] && [rel][1..] == [];
    assert AllParts([rel]) == Parts(rel) + [] == Parts(rel);
    ResolveAppend(true, [], Parts(root), Parts(rel));
    PartsHaveNoSlash(rel);
    ResolveCleaned(true, Components(root), Parts(rel));
  }

  lemma {:induction false} DotIn()
    ensures Resolve(false, [], [".", "in"]) == ["in"] && !Rooted(SWAP_IN)
  {
    assert [".", "in"][..1] == ["."] && ["."][..0] == [];
    assert Resolve(false, [], ["."]) == [];
  }

  /**
   * The folder that the host copies a bind mount into and the folder that the container's rsync reads are
   * one entry of the share if and only if the destination does not climb out of the share; the entry is then
   * the destination followed from the folder `in`.
   */
  lemma {:induction false} FolderTargetsAgree(temp: string, dst: string)
    requires IsTempName(temp)
    ensures var host := EntryBelow(MountedPath(temp), FolderTarget(MountedPath(temp), dst));
            var inner := EntryBelow(SWAP_ROOT, FolderTarget(SWAP_ROOT, dst));
            && (host.Some? && host == inner <==> !ClimbsOut(Parts(dst)))
            && (!ClimbsOut(Parts(dst)) ==> host == Some(Resolve(false, ["in"], Parts(dst))))
  {
    hide Parts, FolderTarget, IsTempName, Components, IsRoot, MountedPath;
    var c := Resolve(false, ["in"], Parts(dst));
    RootsOfShare(temp);
    FolderComponents(MountedPath(temp), dst);
    FolderComponents(SWAP_ROOT, dst);
    PartsHaveNoSlash(dst);
    CleanBelowIn(Parts(dst));
    if ClimbsOut(Parts(dst)) {
      LeadingDotsDiffer(temp, c);
    } else {
      assert Normal(true, ["swaproot"] + c) && Normal(true, ["tmp", temp] + c);
      ResolveKeeps(true, ["swaproot"], c);
      ResolveKeeps(true, ["tmp", temp], c);
    }
  }
}
