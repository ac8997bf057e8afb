/** What the dispatched commands achieve: files of the host arrive in the container, and files of the container come back. */
module Arrival {
  import opened Wrappers
  import opened Strings
  import opened Tasks
  import opened Paths
  import opened SharePaths
  import opened MountTargets
  import opened Programs
  import opened Commands

  /** The commands of tasks, with the users they run as. */
  function CommandsOf(tasks: seq<RunTask>): (r: seq<(string, seq<string>)>)
    ensures |r| == |tasks|
  {
    seq(|tasks|, k requires 0 <= k < |tasks| =>
      (if tasks[k].user == "" then "root" else tasks[k].user, [tasks[k].path] + tasks[k].args))
  }

  /** The share is mounted at /swaproot in the container, and at a temporary folder on the host. */
  ghost predicate Mirrored(temp: string, fs: Tree, host: Tree) {
    forall q :: (["swaproot"] + q in fs <==> ["tmp", temp] + q in host)
                && (["swaproot"] + q in fs ==> fs[["swaproot"] + q] == host[["tmp", temp] + q])
  }

  /** The home folder of a user is a proper place, and not on the share. */
  predicate IsHome(home: seq<string>) {
    Normal(true, home) && (home == [] || home[0] != "swaproot")
  }

  predicate OnShare(q: seq<string>) {
    ["swaproot"] <= q
  }

  /** mkdir -p can make its way. */
  predicate WayClear(fs: Tree, home: seq<string>, path: string) {
    IsOperand(path) && forall q :: q in Walk(home, path) && q in fs ==> fs[q].Folder?
  }

  // ----- Making a folder and opening it up -----

  /** The tree when `mkdir -p path` and `chmod 777 path` are through. */
  function Opened(fs: Tree, home: seq<string>, path: string): Tree {
    WithFolders(fs, Walk(home, path))[PathOf(home, path) := Folder(OPEN_MODE)]
  }

  lemma {:induction false} OctalMode()
    ensures IsOctal("777") && OctalValue("777") == OPEN_MODE
  {
    assert "777"[..2] == "77" && "77"[..1] == "7" && "7"[..0] == "";
    assert OctalValue("") == 0;
    assert OctalValue("7") == 7;
    assert OctalValue("77") == 63;
  }

  lemma {:induction false} OpenFolder(m: Machine, path: string, rest: seq<(string, seq<string>)>, fs: Tree)
    ensures var home := m.homes("root");
            var commands := [("root", ["mkdir", "-p", path]), ("root", ["chmod", "777", path])];
            RunCommands(m, commands + rest, fs)
            == if WayClear(fs, home, path) then RunCommands(m, rest, Opened(fs, home, path)) else None
  {
    hide Walk, PathOf, OctalValue, IsOctal;
    var home := m.homes("root");
    var first, second := ("root", ["mkdir", "-p", path]), ("root", ["chmod", "777", path]);
    assert [first, second] + rest == [first] + ([second] + rest);
    assert ([first] + ([second] + rest))[1..] == [second] + rest && ([second] + rest)[1..] == rest;
    assert "chmod"[0] != "mkdir"[0];
    EndOfWalk(home, path);
    OctalMode();
    var fs1 := WithFolders(fs, Walk(home, path));
    assert RunCommand(m, "root", first.1, fs) == if WayClear(fs, home, path) then Some(fs1) else None;
    if WayClear(fs, home, path) {
      assert fs1[PathOf(home, path)].Folder?;
      assert RunCommand(m, "root", second.1, fs1) == Some(Opened(fs, home, path));
    }
  }

  lemma {:induction false} OpenedAt(fs: Tree, home: seq<string>, path: string, q: seq<string>)
    ensures q in fs && q != PathOf(home, path) ==> q in Opened(fs, home, path) && Opened(fs, home, path)[q] == fs[q]
    ensures q !in Walk(home, path) ==> Same(fs, Opened(fs, home, path), q)
  {
    hide Walk, PathOf;
    EndOfWalk(home, path);
  }

  // ----- Bind mounts -----

  /**
   * A destination that does not climb out of the share and, for who is at home here, is never inside of what
   * is copied to it.
   */
  lemma {:induction false} TargetAndPlace(base: seq<string>, parts: seq<string>)
    requires Normal(true, base) && NoSlashes(parts) && !ClimbsOut(parts)
    ensures var c, place := Resolve(false, ["in"], parts), Resolve(true, base, parts);
            || (c != [] && c[0] == "in" && place == base + c[1..])
            || place == (if base == [] then [] else base[..|base| - 1]) + c
    decreases |parts|
  {
    if parts == [] {
      assert base + ["in"][1..] == base;
    } else {
      var p, x := parts[..|parts| - 1], parts[|parts| - 1];
      ClimbsOutSplit(parts);
      TargetAndPlace(base, p);
      CleanBelowIn(p);
      CleanBelowIn(parts);
      StepTogether(base, Resolve(false, ["in"], p), Resolve(true, base, p), x);
    }
  }

  predicate Together(base: seq<string>, c: seq<string>, place: seq<string>) {
    || (c != [] && c[0] == "in" && place == base + c[1..])
    || place == (if base == [] then [] else base[..|base| - 1]) + c
  }

  lemma {:induction false} StepTogether(base: seq<string>, c: seq<string>, place: seq<string>, x: string)
    requires Normal(true, base) && Together(base, c, place) && AreEntryNames(c)
    requires AreEntryNames(OneComponent(false, c, x))
    ensures Together(base, OneComponent(false, c, x), OneComponent(true, place, x))
  {
    var up := if base == [] then [] else base[..|base| - 1];
    assert OneComponent(false, [], "..") == [".."] && !IsEntryName([".."][0]);
    if x == "" || x == "." {
    } else if x != ".." {
      if c != [] && c[0] == "in" && place == base + c[1..] {
        assert place + [x] == base + (c + [x])[1..];
      } else {
        assert place + [x] == up + (c + [x]);
      }
    } else if c == [] {
    } else if c[0] == "in" && place == base + c[1..] {
      if |c| == 1 {
        assert place == base;
        assert up + [] == up;
      } else {
        assert place[|place| - 1] == c[|c| - 1];
        assert place[..|place| - 1] == base + c[..|c| - 1][1..];
      }
    } else {
      assert place[|place| - 1] == c[|c| - 1];
      assert place[..|place| - 1] == up + c[..|c| - 1];
    }
  }

  lemma {:induction false} SourceNotAbove(home: seq<string>, dst: string)
    requires IsHome(home) && !ClimbsOut(Parts(dst))
    ensures !(["swaproot"] + FromIn(dst) <= PathOf(home, dst))
  {
    hide Parts, Resolve, ClimbsOut;
    PartsHaveNoSlash(dst);
    var base := Base(home, dst);
    TargetAndPlace(base, Parts(dst));
    assert (["swaproot"] + FromIn(dst))[0] == "swaproot";
  }

  /** The source that rsync is told is the copy target, seen from the container. */
  lemma {:induction false} SourcePlace(home: seq<string>, dst: string)
    requires !ClimbsOut(Parts(dst))
    ensures var source := FolderTarget(SWAP_ROOT, dst) + "/";
            && PathOf(home, source) == ["swaproot"] + FromIn(dst)
            && IsOperand(source) && IsLocal(source) && source[|source| - 1] == '/'
  {
    hide Parts, FolderTarget, IsRoot, Resolve, ClimbsOut;
    var target := FolderTarget(SWAP_ROOT, dst);
    RootedTarget(dst);
    PartsOfSlash(target, "");
    PartsOfOne("");
    assert target + "/" + "" == target + "/";
    AfterSlash(Parts(target));
    PartsHaveNoSlash(dst);
    SwapRootIsRoot();
    FolderComponents(SWAP_ROOT, dst);
    CleanBelowIn(Parts(dst));
    assert Normal(true, ["swaproot"] + FromIn(dst));
    ResolveKeeps(true, ["swaproot"], FromIn(dst));
    SlashFirst(target + "/");
  }

  lemma {:induction false} AfterSlash(parts: seq<string>)
    ensures Resolve(true, [], parts + [""]) == Resolve(true, [], parts)
  {
    assert (parts + [""])[..|parts|] == parts;
  }

  lemma {:induction false} RootedTarget(dst: string)
    ensures Rooted(FolderTarget(SWAP_ROOT, dst))
  {
    hide FilePathJoin;
    JoinComponents([SWAP_ROOT, FilePathJoin([SWAP_IN, dst])]);
  }

  /** A path from the root is an operand, and no colon in it stands in front of its first slash. */
  lemma {:induction false} SlashFirst(path: string)
    requires Rooted(path)
    ensures IsOperand(path) && IsLocal(path)
  {
    IndexFromIsFirst(path, '/', 0);
    IndexFromIsFirst(path, ':', 0);
  }

  /**
   * Every file and folder below the host's copy target, which is the destination followed from `in`, has come
   * to the same place below the destination in the container. This succeeds if and only if nothing is in the
   * way, and touches nothing but the destination and the way to it; unless one of these is on the share, the
   * share stays as it is.
   */
  ghost predicate FolderOutcome(m: Machine, temp: string, dst: string, fs: Tree, host: Tree, r: Option<Tree>) {
    var home := m.homes("root");
    var place, way, target := PathOf(home, dst), Walk(home, dst), ["tmp", temp] + FromIn(dst);
    var fs1 := WithFolders(fs, way);
    && (r.Some? <==> WayClear(fs, home, dst) && IsLocal(dst)
                     && Fits(fs1, Below(fs1, ["swaproot"] + FromIn(dst)), place))
    && (r.Some? ==>
          && (forall p :: target + p in host ==> place + p in r.value && r.value[place + p] == host[target + p])
          && (forall q :: q !in way && !(place <= q) ==> Same(fs, r.value, q))
          && ((forall q :: q in way ==> !OnShare(q)) && (forall p :: target + p in host ==> !OnShare(place + p)) ==>
                forall q :: OnShare(q) ==> Same(fs, r.value, q)))
  }

  /** DispatchFolderTask does what it is for: its three commands, in their order, bring the mount to its place. */
  lemma {:induction false} FolderArrives(m: Machine, temp: string, dst: string, fs: Tree, host: Tree)
    requires IsTempName(temp) && Mirrored(temp, fs, host) && IsHome(m.homes("root")) && !ClimbsOut(Parts(dst))
    requires FolderAt(host, ["tmp", temp] + FromIn(dst))
    ensures FolderOutcome(m, temp, dst, fs, host, RunCommands(m, CommandsOf(FolderTasks(dst)), fs))
  {
    hide Parts, ClimbsOut, Walk, PathOf, FolderTarget, FromIn, Fits, Below, Overlay, IsOperand, IsLocal, RunCommands, Opened;
    hide FolderTasks, OnShare;
    var home := m.homes("root");
    var source := FolderTarget(SWAP_ROOT, dst) + "/";
    var last := ("root", ["rsync", "-a", source, dst]);
    var opening := [("root", ["mkdir", "-p", dst]), ("root", ["chmod", "777", dst])];
    FolderCommands(dst);
    OpenFolder(m, dst, [last], fs);
    if WayClear(fs, home, dst) {
      RunOne(m, last, Opened(fs, home, dst));
      SourceNotAbove(home, dst);
      Synchronised(m, temp, dst, fs, host);
      FolderArrived(temp, dst, fs, host, home);
    }
  }

  lemma {:induction false} FolderCommands(dst: string)
    ensures CommandsOf(FolderTasks(dst))
            == [("root", ["mkdir", "-p", dst]), ("root", ["chmod", "777", dst])]
               + [("root", ["rsync", "-a", FolderTarget(SWAP_ROOT, dst) + "/", dst])]
  {
    hide FolderTarget;
    var source := FolderTarget(SWAP_ROOT, dst) + "/";
    assert ["mkdir"] + ["-p", dst] == ["mkdir", "-p", dst] && ["chmod"] + ["777", dst] == ["chmod", "777", dst];
    assert ["rsync"] + ["-a", source, dst] == ["rsync", "-a", source, dst];
  }

  lemma {:induction false} RunOne(m: Machine, command: (string, seq<string>), fs: Tree)
    ensures RunCommands(m, [command], fs) == RunCommand(m, command.0, command.1, fs)
  {
    hide RunCommand;
    assert [command][1..] == [];
  }

  /** Opening up the destination changes nothing in the source. */
  lemma {:induction false} SourceKept(fs: Tree, home: seq<string>, dst: string, source: seq<string>)
    requires WayClear(fs, home, dst) && !(source <= PathOf(home, dst))
    ensures var fs1 := WithFolders(fs, Walk(home, dst));
            && Below(Opened(fs, home, dst), source) == Below(fs1, source)
            && FolderAt(Opened(fs, home, dst), PathOf(home, dst))
            && (forall sub :: Fits(Opened(fs, home, dst), sub, PathOf(home, dst)) <==> Fits(fs1, sub, PathOf(home, dst)))
  {
    hide PathOf, Walk, IsOperand, Below;
    EndOfWalk(home, dst);
    var fs1, fs2 := WithFolders(fs, Walk(home, dst)), Opened(fs, home, dst);
    assert fs2.Keys == fs1.Keys;
    forall p ensures source + p in fs2 <==> source + p in fs1
             ensures source + p in fs1 ==> fs2[source + p] == fs1[source + p] {
      assert source <= source + p;
    }
    SameBelow(fs1, fs2, source);
    assert fs1[PathOf(home, dst)].Folder?;
  }

  lemma {:induction false} SameBelow(fs: Tree, fs': Tree, place: seq<string>)
    requires forall p :: (place + p in fs <==> place + p in fs') && (place + p in fs ==> fs'[place + p] == fs[place + p])
    ensures Below(fs, place) == Below(fs', place)
  {
    hide Below;
    forall p ensures p in Below(fs, place) <==> p in Below(fs', place)
             ensures p in Below(fs, place) ==> Below(fs, place)[p] == Below(fs', place)[p] {
      BelowAt(fs, place, p);
      BelowAt(fs', place, p);
    }
  }

  lemma {:induction false} Synchronised(m: Machine, temp: string, dst: string, fs: Tree, host: Tree)
    requires Mirrored(temp, fs, host) && IsHome(m.homes("root")) && !ClimbsOut(Parts(dst))
    requires FolderAt(host, ["tmp", temp] + FromIn(dst)) && WayClear(fs, m.homes("root"), dst)
    ensures var home := m.homes("root");
            var fs1, source := WithFolders(fs, Walk(home, dst)), ["swaproot"] + FromIn(dst);
            RunCommand(m, "root", ["rsync", "-a", FolderTarget(SWAP_ROOT, dst) + "/", dst], Opened(fs, home, dst))
            == if IsLocal(dst) && Fits(fs1, Below(fs1, source), PathOf(home, dst))
               then Some(Overlay(Opened(fs, home, dst), Below(fs1, source), PathOf(home, dst))) else None
  {
    hide Parts, ClimbsOut, Walk, PathOf, FolderTarget, FromIn, Fits, Below, Overlay, IsOperand, IsLocal, Opened, IsHome;
    var home, source := m.homes("root"), ["swaproot"] + FromIn(dst);
    assert IsOperand(dst);
    assert "rsync"[0] != "mkdir"[0] && "rsync"[0] != "chmod"[0];
    SourcePlace(home, dst);
    SourceNotAbove(home, dst);
    SourceKept(fs, home, dst, source);
    assert source in fs && fs[source].Folder?;
    OpenedAt(fs, home, dst, source);
    EndOfPrefix(source);
  }

  lemma {:induction false} EndOfPrefix(source: seq<string>)
    ensures source <= source
  {
  }

  lemma {:induction false} FolderArrived(temp: string, dst: string, fs: Tree, host: Tree, home: seq<string>)
    requires Mirrored(temp, fs, host) && WayClear(fs, home, dst) && !(["swaproot"] + FromIn(dst) <= PathOf(home, dst))
    ensures var place, way, target := PathOf(home, dst), Walk(home, dst), ["tmp", temp] + FromIn(dst);
            var r := Overlay(Opened(fs, home, dst), Below(WithFolders(fs, way), ["swaproot"] + FromIn(dst)), place);
            && (forall p :: target + p in host ==> place + p in r && r[place + p] == host[target + p])
            && (forall q :: q !in way && !(place <= q) ==> Same(fs, r, q))
            && ((forall q :: q in way ==> !OnShare(q)) && (forall p :: target + p in host ==> !OnShare(place + p)) ==>
                  forall q :: OnShare(q) ==> Same(fs, r, q))
  {
    hide Walk, PathOf, FromIn, Below, Overlay, Opened, IsOperand, WithFolders;
    var place, way := PathOf(home, dst), Walk(home, dst);
    var target, source := ["tmp", temp] + FromIn(dst), ["swaproot"] + FromIn(dst);
    var fs1, fs2 := WithFolders(fs, way), Opened(fs, home, dst);
    var sub := Below(fs1, source);
    var r := Overlay(fs2, sub, place);
    forall p | target + p in host ensures p in sub && sub[p] == host[target + p] {
      SourceHas(temp, fs, host, way, FromIn(dst), p);
    }
    forall p | target + p in host ensures place + p in r && r[place + p] == host[target + p] {
      OverlayAt(fs2, sub, place, p);
    }
    forall q | q !in way && !(place <= q) ensures Same(fs, r, q) {
      OpenedAt(fs, home, dst, q);
      OverlayElsewhere(fs2, sub, place, q);
      SameTwice(fs, fs2, r, q);
    }
    if (forall q :: q in way ==> !OnShare(q)) && forall p :: target + p in host ==> !OnShare(place + p) {
      forall q | OnShare(q) ensures Same(fs, r, q) {
        OpenedAt(fs, home, dst, q);
        if place <= q && q[|place|..] in sub {
          assert place + q[|place|..] == q;
          NotBrought(temp, fs, host, way, FromIn(dst), q[|place|..]);
        }
        OverlayElsewhere(fs2, sub, place, q);
        SameTwice(fs, fs2, r, q);
      }
    }
  }

  lemma {:induction false} SameTwice(fs: Tree, fs1: Tree, fs2: Tree, q: seq<string>)
    requires Same(fs, fs1, q) && Same(fs1, fs2, q)
    ensures Same(fs, fs2, q)
  {
  }

  lemma {:induction false} SourceHas(temp: string, fs: Tree, host: Tree, way: set<seq<string>>, c: seq<string>,
                                     p: seq<string>)
    requires Mirrored(temp, fs, host) && ["tmp", temp] + c + p in host
    ensures var sub := Below(WithFolders(fs, way), ["swaproot"] + c);
            p in sub && sub[p] == host[["tmp", temp] + c + p]
  {
    hide Below;
    assert ["tmp", temp] + c + p == ["tmp", temp] + (c + p) && ["swaproot"] + c + p == ["swaproot"] + (c + p);
    BelowAt(WithFolders(fs, way), ["swaproot"] + c, p);
  }

  /** With no new folder on the share, what rsync finds was there on the host. */
  lemma {:induction false} NotBrought(temp: string, fs: Tree, host: Tree, way: set<seq<string>>, c: seq<string>,
                                      p: seq<string>)
    requires Mirrored(temp, fs, host) && forall q :: q in way ==> !OnShare(q)
    requires p in Below(WithFolders(fs, way), ["swaproot"] + c)
    ensures ["tmp", temp] + c + p in host
  {
    hide Below;
    assert ["tmp", temp] + c + p == ["tmp", temp] + (c + p) && ["swaproot"] + c + p == ["swaproot"] + (c + p);
    BelowAt(WithFolders(fs, way), ["swaproot"] + c, p);
    assert OnShare(["swaproot"] + (c + p));
  }

  // ----- Extraction -----

  lemma {:induction false} ExtractCommands(file: string, dest: string, user: string)
    ensures CommandsOf(ExtractTasks(file, dest, user))
            == [("root", ["mkdir", "-p", dest]), ("root", ["chmod", "777", dest])]
               + [(if user == "" then "root" else user, ["tar", "-C", dest, "-xf", ExtractFile(SWAP_ROOT, file)])]
  {
    hide ExtractFile;
    var path := ExtractFile(SWAP_ROOT, file);
    assert ["mkdir"] + ["-p", dest] == ["mkdir", "-p", dest] && ["chmod"] + ["777", dest] == ["chmod", "777", dest];
    assert ["tar"] + ["-C", dest, "-xf", path] == ["tar", "-C", dest, "-xf", path];
  }

  /** The archive that tar is told is the file that the host has filled. */
  lemma {:induction false} ExtractPlace(home: seq<string>, file: string)
    requires IsEntryName(file)
    ensures PathOf(home, ExtractFile(SWAP_ROOT, file)) == ["swaproot", "in", file]
    ensures IsOperand(ExtractFile(SWAP_ROOT, file))
  {
    hide FilePathJoin, IsRoot, Resolve, Parts;
    SwapRootIsRoot();
    FixedNames();
    assert AreEntryNames([file]);
    BelowSwapFolder(SWAP_ROOT, "in", [file]);
    assert [SWAP_ROOT, "./" + "in"] + [file] == [SWAP_ROOT, SWAP_IN, file];
    assert ["swaproot"] + (["in"] + [file]) == ["swaproot", "in", file];
    SlashFirst(ExtractFile(SWAP_ROOT, file));
  }

  lemma {:induction false} ExtractEntryName(id: string)
    requires '/' !in id
    ensures IsEntryName("extract_" + id) && "extract_" + id == ExtractName(id)
  {
  }

  /**
   * The archive that the host put into `in` is unpacked into the destination, as tar's user finds it, and nothing
   * else is touched but the way to the destination. For a path from the root, or a user who is at home where root
   * is, that is the folder that mkdir made, open to everybody.
   */
  ghost predicate ExtractOutcome(m: Machine, temp: string, id: string, dest: string, user: string, fs: Tree, host: Tree,
                                 r: Option<Tree>)
    requires ["tmp", temp, "in", "extract_" + id] in host && host[["tmp", temp, "in", "extract_" + id]].Data?
  {
    var runner := if user == "" then "root" else user;
    var home, there := m.homes("root"), PathOf(m.homes(runner), dest);
    var content := host[["tmp", temp, "in", "extract_" + id]].content;
    && (r.Some? <==> WayClear(fs, home, dest) && FolderAt(Opened(fs, home, dest), there)
                     && m.unpack(content).Some? && Fits(Opened(fs, home, dest), m.unpack(content).value, there))
    && (r.Some? ==>
          && (forall p :: p in m.unpack(content).value ==>
                there + p in r.value && r.value[there + p] == m.unpack(content).value[p])
          && (forall q :: q !in Walk(home, dest) && !(there <= q) ==> Same(fs, r.value, q)))
    && (Rooted(dest) || m.homes(runner) == home ==>
          there in Opened(fs, home, dest) && Opened(fs, home, dest)[there] == Folder(511))
  }

  /** DispatchExtractFileTask does what it is for: its three commands unpack the host's file. */
  lemma {:induction false} ArchiveExtracted(m: Machine, temp: string, id: string, dest: string, user: string, fs: Tree,
                                            host: Tree)
    requires Mirrored(temp, fs, host) && '/' !in id
    requires ["tmp", temp, "in", "extract_" + id] in host && host[["tmp", temp, "in", "extract_" + id]].Data?
    ensures ExtractOutcome(m, temp, id, dest, user, fs, host,
                           RunCommands(m, CommandsOf(ExtractTasks(ExtractName(id), dest, user)), fs))
  {
    hide PathOf, Walk, ExtractFile, Fits, Overlay, RunCommands, Opened, ExtractTasks, IsOperand, Rooted;
    var runner := if user == "" then "root" else user;
    var home, there := m.homes("root"), PathOf(m.homes(runner), dest);
    var file := ExtractName(id);
    var path := ExtractFile(SWAP_ROOT, file);
    ExtractEntryName(id);
    ExtractCommands(file, dest, user);
    var last := (runner, ["tar", "-C", dest, "-xf", path]);
    OpenFolder(m, dest, [last], fs);
    SamePlace(m.homes(runner), home, dest);
    OpenedEnd(fs, home, dest);
    if WayClear(fs, home, dest) {
      var fs2 := Opened(fs, home, dest);
      RunOne(m, last, fs2);
      ExtractPlace(m.homes(runner), file);
      ArchiveThere(temp, fs, host, home, dest, file);
      assert "tar"[0] != "mkdir"[0] && "tar"[0] != "chmod"[0] && "tar"[0] != "rsync"[0];
      var content := host[["tmp", temp, "in", file]].content;
      if FolderAt(fs2, there) && m.unpack(content).Some? && Fits(fs2, m.unpack(content).value, there) {
        Unpacked(fs, home, dest, m.unpack(content).value, there);
      }
    }
  }

  lemma {:induction false} SamePlace(home: seq<string>, other: seq<string>, path: string)
    ensures Rooted(path) || home == other ==> PathOf(home, path) == PathOf(other, path)
  {
  }

  lemma {:induction false} OpenedEnd(fs: Tree, home: seq<string>, path: string)
    ensures PathOf(home, path) in Opened(fs, home, path) && Opened(fs, home, path)[PathOf(home, path)] == Folder(511)
  {
    hide PathOf, Walk;
  }

  lemma {:induction false} ArchiveThere(temp: string, fs: Tree, host: Tree, home: seq<string>, dest: string, file: string)
    requires Mirrored(temp, fs, host) && WayClear(fs, home, dest)
    requires ["tmp", temp, "in", file] in host && host[["tmp", temp, "in", file]].Data?
    ensures var place := ["swaproot", "in", file];
            place in Opened(fs, home, dest) && Opened(fs, home, dest)[place] == host[["tmp", temp, "in", file]]
  {
    hide PathOf, Walk, Opened;
    var rest := ["in", file];
    assert ["swaproot"] + rest == ["swaproot", "in", file] && ["tmp", temp] + rest == ["tmp", temp, "in", file];
    EndOfWalk(home, dest);
    OpenedAt(fs, home, dest, ["swaproot", "in", file]);
  }

  lemma {:induction false} Unpacked(fs: Tree, home: seq<string>, dest: string, sub: Tree, there: seq<string>)
    ensures var r := Overlay(Opened(fs, home, dest), sub, there);
            && (forall p :: p in sub ==> there + p in r && r[there + p] == sub[p])
            && (forall q :: q !in Walk(home, dest) && !(there <= q) ==> Same(fs, r, q))
  {
    hide PathOf, Walk, Opened, Overlay;
    var fs2 := Opened(fs, home, dest);
    var r := Overlay(fs2, sub, there);
    forall p | p in sub ensures there + p in r && r[there + p] == sub[p] {
      OverlayAt(fs2, sub, there, p);
    }
    forall q | q !in Walk(home, dest) && !(there <= q) ensures Same(fs, r, q) {
      OpenedAt(fs, home, dest, q);
      OverlayElsewhere(fs2, sub, there, q);
      SameTwice(fs, fs2, r, q);
    }
  }

  // ----- Stream-out -----

  const OUT_FOLDER := ["swaproot", "out", "streamout"]

  /** The folders from the root down to the one for archives. */
  const OUT_WAY: set<seq<string>> := {[], ["swaproot"], ["swaproot", "out"], OUT_FOLDER}

  lemma {:induction false} PartsOfRendered(c: seq<string>)
    requires AreEntryNames(c) && c != []
    ensures Parts("/" + Join(c, "/")) == [""] + c
  {
    PartsOfOne("");
    PartsOfSlash("", Join(c, "/"));
    PartsOfJoin(c);
    assert "" + "/" + Join(c, "/") == "/" + Join(c, "/");
  }

  /** A clean path from the root leads through what is above its end. */
  lemma {:induction false} WalkOfRendered(home: seq<string>, c: seq<string>)
    requires AreEntryNames(c) && c != []
    ensures forall q :: q in Walk(home, "/" + Join(c, "/")) <==> q <= c
  {
    hide Parts, Resolve;
    var path := "/" + Join(c, "/");
    PartsOfRendered(c);
    var parts := Parts(path);
    forall k | 0 <= k <= |parts| ensures Resolve(true, [], parts[..k]) == c[..if k == 0 then 0 else k - 1] {
      if k > 0 {
        assert parts[..k] == [""] + c[..k - 1];
        NamesBehindRoot(c[..k - 1]);
      } else {
        assert parts[..0] == [];
        ResolveKeeps(true, [], []);
      }
    }
    forall q ensures q in Walk(home, path) <==> q <= c {
      if q <= c {
        assert c[..|q|] == q;
        assert Resolve(true, [], parts[..|q| + 1]) == q;
      }
    }
  }

  lemma {:induction false} NamesBehindRoot(c: seq<string>)
    requires AreEntryNames(c)
    ensures Resolve(true, [], [""] + c) == c
  {
    ResolveAppend(true, [], [""], c);
    assert [""][..0] == [];
    assert Resolve(true, [], [""]) == [];
    assert [] + c == c;
    ResolveKeeps(true, [], c);
  }

  lemma {:induction false} OutFolderPath()
    ensures FilePathJoin([SWAP_ROOT, SWAP_OUT, "streamout"]) == "/" + Join(OUT_FOLDER, "/")
    ensures AreEntryNames(OUT_FOLDER) && IsOperand("/" + Join(OUT_FOLDER, "/"))
  {
    hide FilePathJoin, Components, Join;
    SwapRootIsRoot();
    FixedNames();
    assert AreEntryNames(["streamout"]);
    BelowSwapFolder(SWAP_ROOT, "out", ["streamout"]);
    assert [SWAP_ROOT, "./" + "out"] + ["streamout"] == [SWAP_ROOT, SWAP_OUT, "streamout"];
    assert ["swaproot"] + (["out"] + ["streamout"]) == OUT_FOLDER;
  }

  lemma {:induction false} OutWay(home: seq<string>)
    ensures Walk(home, "/" + Join(OUT_FOLDER, "/")) == OUT_WAY
  {
    hide Walk, Join;
    OutFolderPath();
    WalkOfRendered(home, OUT_FOLDER);
    forall q ensures q in Walk(home, "/" + Join(OUT_FOLDER, "/")) <==> q in OUT_WAY {
      PrefixOfThree(q, "swaproot", "out", "streamout");
    }
  }

  lemma {:induction false} PrefixOfThree(q: seq<string>, a: string, b: string, c: string)
    ensures q <= [a, b, c] <==> q in {[], [a], [a, b], [a, b, c]}
  {
    if q <= [a, b, c] {
      assert q == [a, b, c][..|q|];
      assert [a, b, c][..0] == [] && [a, b, c][..1] == [a] && [a, b, c][..2] == [a, b] && [a, b, c][..3] == [a, b, c];
      assert |q| == 0 || |q| == 1 || |q| == 2 || |q| == 3;
    }
  }

  lemma {:induction false} StreamOutCommands(path: string, user: string, id: string)
    ensures var runner, folder := if user == "" then "root" else user, FilePathJoin([SWAP_ROOT, SWAP_OUT, "streamout"]);
            CommandsOf(StreamOutTasks(path, user, id))
            == [(runner, ["mkdir", "-p", folder])] + [(runner, ["tar", "-cf", folder + "/" + id, path])]
  {
    hide FilePathJoin;
    var folder := FilePathJoin([SWAP_ROOT, SWAP_OUT, "streamout"]);
    assert ["mkdir"] + ["-p", folder] == ["mkdir", "-p", folder];
    assert ["tar"] + ["-cf", folder + "/" + id, path] == ["tar", "-cf", folder + "/" + id, path];
  }

  lemma {:induction false} OutFilePlace(home: seq<string>, id: string)
    requires IsEntryName(id)
    ensures var file := FilePathJoin([SWAP_ROOT, SWAP_OUT, "streamout"]) + "/" + id;
            PathOf(home, file) == OUT_FOLDER + [id] && IsOperand(file)
  {
    hide FilePathJoin, IsRoot, Resolve, Parts;
    SwapRootIsRoot();
    FixedNames();
    ArchivePathPrinted(id);
    OutputEntry(SWAP_ROOT, "streamout", id);
    assert ["swaproot"] + ["out", "streamout", id] == OUT_FOLDER + [id];
    SlashFirst(StreamOutFile(SWAP_ROOT, id));
  }

  /** What the host then opens is that file. */
  lemma {:induction false} OpenedByHost(temp: string, id: string)
    requires IsTempName(temp) && IsEntryName(id)
    ensures Components(StreamOutFile(MountedPath(temp), id)) == ["tmp", temp, "out", "streamout", id]
  {
    hide FilePathJoin, IsRoot, Components, MountedPath, IsTempName;
    RootsOfShare(temp);
    FixedNames();
    OutputEntry(MountedPath(temp), "streamout", id);
    assert ["tmp", temp] + ["out", "streamout", id] == ["tmp", temp, "out", "streamout", id];
  }

  /**
   * An archive of the client's path, as the client's user finds it, is in the file that the host is going to open,
   * and nothing else is touched but the folders above that file. This succeeds if and only if nothing is in the
   * way and the path is there.
   */
  function Archived(m: Machine, path: string, user: string, id: string, fs: Tree): Option<Tree> {
    var from, file := PathOf(m.homes(if user == "" then "root" else user), path), ["swaproot", "out", "streamout", id];
    var fs1 := WithFolders(fs, OUT_WAY);
    if (forall q :: q in OUT_WAY && q in fs ==> fs[q].Folder?) && !FolderAt(fs, file) && IsOperand(path) && from in fs1
    then Some(fs1[file := Data(m.pack(path, Below(fs1, from)))]) else None
  }

  /** DispatchStreamOutTask does what it is for: its two commands make the archive. */
  lemma {:induction false} PathArchived(m: Machine, path: string, user: string, id: string, fs: Tree)
    requires IsEntryName(id)
    ensures RunCommands(m, CommandsOf(StreamOutTasks(path, user, id)), fs) == Archived(m, path, user, id, fs)
  {
    hide PathOf, Walk, RunCommands, StreamOutTasks, IsOperand, FilePathJoin, Below;
    var runner := if user == "" then "root" else user;
    var home := m.homes(runner);
    var folder := FilePathJoin([SWAP_ROOT, SWAP_OUT, "streamout"]);
    StreamOutCommands(path, user, id);
    OutFolderPath();
    OutWay(home);
    OutFilePlace(home, id);
    var first, last := (runner, ["mkdir", "-p", folder]), (runner, ["tar", "-cf", folder + "/" + id, path]);
    TwoCommands(m, first, last, fs);
    assert "tar"[0] != "mkdir"[0] && "tar"[0] != "chmod"[0] && "tar"[0] != "rsync"[0];
    var file := ["swaproot", "out", "streamout", id];
    assert OUT_FOLDER + [id] == file && file[..3] == OUT_FOLDER;
    assert file !in OUT_WAY by { assert |file| == 4; }
    var fs1 := WithFolders(fs, OUT_WAY);
    assert RunCommand(m, runner, first.1, fs)
        == if forall q :: q in OUT_WAY && q in fs ==> fs[q].Folder? then Some(fs1) else None;
    if forall q :: q in OUT_WAY && q in fs ==> fs[q].Folder? {
      assert FolderAt(fs1, OUT_FOLDER);
      assert FolderAt(fs1, file) <==> FolderAt(fs, file);
    }
  }

  lemma {:induction false} TwoCommands(m: Machine, first: (string, seq<string>), last: (string, seq<string>), fs: Tree)
    ensures RunCommands(m, [first] + [last], fs)
            == match RunCommand(m, first.0, first.1, fs)
               case None => None
               case Some(fs1) => RunCommand(m, last.0, last.1, fs1)
  {
    hide RunCommand;
    assert ([first] + [last])[1..] == [last];
    match RunCommand(m, first.0, first.1, fs)
    case None =>
    case Some(fs1) => RunOne(m, last, fs1);
  }

  /** A path that is not above or on the share is archived as it was before. */
  lemma {:induction false} OffShareUnchanged(fs: Tree, from: seq<string>)
    requires from != [] && from[0] != "swaproot"
    ensures Below(WithFolders(fs, OUT_WAY), from) == Below(fs, from)
    ensures from in WithFolders(fs, OUT_WAY) <==> from in fs
  {
    hide Below;
    forall p ensures from + p !in OUT_WAY {
      assert (from + p)[0] == from[0];
    }
    assert from + [] == from;
    SameBelow(WithFolders(fs, OUT_WAY), fs, from);
  }
}
