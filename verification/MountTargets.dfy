/** Where on the share a bind mount is copied to: the entry, whether it is in `in`, and what else it can touch. */
module MountTargets {
  import opened Wrappers
  import opened Tasks
  import opened Naming
  import opened Paths
  import opened SharePaths

  /** The entry of the share that the host's copy of a bind mount goes to, if it goes to the share at all. */
  function HostEntry(temp: string, dst: string): Option<seq<string>> {
    EntryBelow(MountedPath(temp), FolderTarget(MountedPath(temp), dst))
  }

  /** The destination in clean form, followed from the folder `in`. */
  function FromIn(dst: string): seq<string> {
    Resolve(false, ["in"], Parts(dst))
  }

  function LeadingDots(c: seq<string>): (d: nat)
    ensures d <= |c|
  {
    if c == [] || c[0] != ".." then 0 else 1 + LeadingDots(c[1..])
  }

  /**
   * A clean path that does not lead up stays on the share. One that leads up leaves it, and comes back only
   * if it then goes through the very folder that the share is mounted at.
   */
  function EntryOf(temp: string, c: seq<string>): Option<seq<string>> {
    var d := LeadingDots(c);
    var rest := c[d..];
    if d == 0 then Some(rest)
    else if d == 1 then if [temp] <= rest then Some(rest[1..]) else None
    else if ["tmp", temp] <= rest then Some(rest[2..]) else None
  }

  /** Leading `..` take away as many folders as there are; what follows them is kept. */
  lemma {:induction false} DotsTakeAway(done: seq<string>, c: seq<string>)
    requires Normal(true, done) && Normal(false, c)
    ensures var d := LeadingDots(c);
            Resolve(true, done, c) == done[..if d <= |done| then |done| - d else 0] + c[d..]
    decreases |c|
  {
    hide Resolve;
    if c == [] || c[0] != ".." {
      assert Normal(true, done + c);
      ResolveKeeps(true, done, c);
    } else {
      var t := c[1..];
      assert c == [".."] + t;
      assert Normal(false, t) by { assert forall k :: 0 <= k < |t| ==> t[k] == c[k + 1]; }
      var fewer := if done == [] then [] else done[..|done| - 1];
      if done == [] {
        UpFromRoot(t);
      } else {
        FirstUp(done, t);
      }
      assert forall k :: 0 <= k < |fewer| ==> fewer[k] == done[k];
      DotsTakeAway(fewer, t);
    }
  }

  /** The entry that the host copies to, exactly, for every destination. */
  lemma {:induction false} HostEntryExact(temp: string, dst: string)
    requires IsTempName(temp)
    ensures HostEntry(temp, dst) == EntryOf(temp, FromIn(dst))
    ensures !ClimbsOut(Parts(dst)) <==> LeadingDots(FromIn(dst)) == 0
  {
    hide Parts, FolderTarget, IsTempName, Components, IsRoot, MountedPath, ClimbsOut, Resolve;
    var c := FromIn(dst);
    RootsOfShare(temp);
    FolderComponents(MountedPath(temp), dst);
    PartsHaveNoSlash(dst);
    CleanBelowIn(Parts(dst));
    DotsTakeAway(["tmp", temp], c);
    BelowMount(temp, c);
  }

  lemma {:induction false} BelowMount(temp: string, c: seq<string>)
    ensures var d := LeadingDots(c);
            var path := ["tmp", temp][..if d <= 2 then 2 - d else 0] + c[d..];
            (if ["tmp", temp] <= path then Some(path[2..]) else None) == EntryOf(temp, c)
  {
    var d := LeadingDots(c);
    var rest := c[d..];
    if d == 1 {
      assert ["tmp", temp][..1] == ["tmp"];
      assert (["tmp"] + rest)[1..] == rest;
      if [temp] <= rest {
        assert ["tmp"] + rest == ["tmp", temp] + rest[1..];
      }
    } else if d >= 2 {
      assert [] + rest == rest;
    }
  }

  // ----- What a copy can touch -----

  /** The place is on the way to the folder that is copied to, that folder, or below it. */
  predicate Touches(entry: seq<string>, place: seq<string>) {
    place <= entry || entry <= place
  }

  /** A copy to this destination can make something in this place of the share. */
  predicate CopyCanMake(temp: string, dst: string, place: seq<string>) {
    HostEntry(temp, dst).Some? && Touches(HostEntry(temp, dst).value, place)
  }

  lemma {:induction false} TouchesInside(entry: seq<string>, folder: seq<string>)
    ensures (exists base :: Touches(entry, folder + [base])) <==> Touches(entry, folder)
  {
    if Touches(entry, folder) {
      if |entry| > |folder| {
        assert folder + [entry[|folder|]] <= entry;
        assert Touches(entry, folder + [entry[|folder|]]);
      } else {
        assert entry <= folder;
        assert Touches(entry, folder + [""]);
      }
    }
    if base :| Touches(entry, folder + [base]) {
      if folder + [base] <= entry {
        assert entry[..|folder|] == (folder + [base])[..|folder|] == folder;
      } else if |entry| <= |folder| {
        assert folder[..|entry|] == (folder + [base])[..|entry|] == entry;
      } else {
        assert entry == folder + [base];
      }
    }
  }

  /**
   * Not only scheduleTask can put something into a queue folder: so can the copy of a bind mount, if and only
   * if its destination, followed from `in`, leads to a folder above the queue's, to that, or into it.
   */
  lemma {:induction false} CopyReachesQueue(temp: string, dst: string, step: Step)
    requires IsTempName(temp)
    ensures (exists base :: CopyCanMake(temp, dst, TaskFolder(step) + [base])) <==>
      EntryOf(temp, FromIn(dst)).Some? && Touches(EntryOf(temp, FromIn(dst)).value, TaskFolder(step))
  {
    hide HostEntry, EntryOf, FromIn, Touches, IsTempName, TaskFolder;
    HostEntryExact(temp, dst);
    if HostEntry(temp, dst).Some? {
      var entry := HostEntry(temp, dst).value;
      TouchesInside(entry, TaskFolder(step));
      if base :| Touches(entry, TaskFolder(step) + [base]) {
        assert CopyCanMake(temp, dst, TaskFolder(step) + [base]);
      }
      if base :| CopyCanMake(temp, dst, TaskFolder(step) + [base]) {
        assert Touches(entry, TaskFolder(step) + [base]);
      }
    }
  }

  /** A copy that stays in `in` cannot reach any queue. */
  lemma {:induction false} InsideInIsClear(temp: string, dst: string, step: Step, base: string)
    requires HostEntry(temp, dst).Some? && ["in"] <= HostEntry(temp, dst).value
    ensures !CopyCanMake(temp, dst, TaskFolder(step) + [base])
  {
    hide HostEntry;
    var entry := HostEntry(temp, dst).value;
    var place := TaskFolder(step) + [base];
    assert place[0] == "one_off_tasks" && entry[0] == "in" && |"one_off_tasks"| != |"in"|;
  }

  /** A destination that does not climb out of the share and is copied right into the run queue. */
  lemma {:induction false} CopiedIntoRunQueue(temp: string)
    requires IsTempName(temp)
    ensures !ClimbsOut(Parts("../one_off_tasks/run"))
    ensures HostEntry(temp, "../one_off_tasks/run") == Some(TaskFolder(Run))
  {
    hide HostEntry, Parts, ClimbsOut, IsTempName, FromIn;
    assert ".." + "/" + ("one_off_tasks" + "/" + "run") == "../one_off_tasks/run";
    HostEntryExact(temp, "../one_off_tasks/run");
    UpAndDown("one_off_tasks", "run");
    NoDots(["one_off_tasks", "run"]);
  }

  lemma {:induction false} NoDots(c: seq<string>)
    requires AreEntryNames(c)
    ensures LeadingDots(c) == 0 && forall temp :: EntryOf(temp, c) == Some(c)
  {
  }

  lemma {:induction false} UpAndDown(a: string, b: string)
    requires IsEntryName(a) && IsEntryName(b)
    ensures FromIn(".." + "/" + (a + "/" + b)) == [a, b]
  {
    hide Parts;
    PartsOfOne("..");
    PartsOfOne(a);
    PartsOfOne(b);
    PartsOfSlash("..", a + "/" + b);
    PartsOfSlash(a, b);
    ResolveAppend(false, ["in"], [".."], [a] + [b]);
    assert [".."][..0] == [] && ["in"][..0] == [];
    assert Resolve(false, ["in"], [".."]) == [];
    ResolveKeeps(false, [], [a] + [b]);
    assert [] + ([a] + [b]) == [a, b];
  }

  // ----- The folders that a copy makes -----

  /**
   * How the copy of one bind mount goes: whether os.MkdirAll makes the target, how many folders on the way to
   * it are made if it does not, and which folders rsync then brings along, given below the target.
   */
  datatype Copy = Copy(made: bool, onTheWay: nat, brought: set<seq<string>>)

  function Above(path: seq<string>): (r: set<seq<string>>)
    ensures forall q :: q in r <==> q != [] && q <= path
  {
    var r := set k | 0 < k <= |path| :: path[..k];
    assert forall q :: q != [] && q <= path ==> q == path[..|q|] && q in r;
    r
  }

  /** The folders of the share that are there because of the copy. */
  function FoldersMade(temp: string, dst: string, copy: Copy): set<seq<string>> {
    match HostEntry(temp, dst)
    case None => {}
    case Some(entry) =>
      if copy.made then set p, q | p in copy.brought + {[]} && q in Above(entry + p) :: q
      else set q | q in Above(entry) && |q| <= copy.onTheWay && |q| < |entry|
  }

  /** All of them are places that the copy can make. */
  lemma {:induction false} FoldersMadeTouch(temp: string, dst: string, copy: Copy, place: seq<string>)
    requires place in FoldersMade(temp, dst, copy)
    ensures place != [] && CopyCanMake(temp, dst, place)
  {
    hide HostEntry;
    var entry := HostEntry(temp, dst).value;
    if copy.made {
      var p :| p in copy.brought + {[]} && place in Above(entry + p);
      if |place| <= |entry| {
        assert place == (entry + p)[..|place|] == entry[..|place|];
      } else {
        assert entry == (entry + p)[..|entry|] == place[..|entry|];
      }
    }
  }

  /**
   * The copy goes into `in`, or to the root of the share with a folder `in` in the source; a MkdirAll that
   * fails must have come past `in`.
   */
  predicate MakesIn(entry: seq<string>, copy: Copy) {
    if entry != [] then entry[0] == "in" && (copy.made || (copy.onTheWay >= 1 && |entry| > 1))
    else copy.made && exists p :: p in copy.brought && ["in"] <= p
  }

  /** Which copies make the folder `in`, exactly, for every destination. */
  lemma {:induction false} InFolderMade(temp: string, dst: string, copy: Copy)
    requires IsTempName(temp)
    ensures ["in"] in FoldersMade(temp, dst, copy) <==>
      EntryOf(temp, FromIn(dst)).Some? && MakesIn(EntryOf(temp, FromIn(dst)).value, copy)
  {
    hide HostEntry, EntryOf, FromIn, IsTempName;
    HostEntryExact(temp, dst);
    if HostEntry(temp, dst).Some? {
      var entry := HostEntry(temp, dst).value;
      FirstIs(entry);
      if copy.made {
        BroughtIn(entry, copy.brought);
      }
    }
  }

  lemma {:induction false} FirstIs(path: seq<string>)
    ensures ["in"] in Above(path) <==> path != [] && path[0] == "in"
  {
  }

  lemma {:induction false} BroughtIn(entry: seq<string>, brought: set<seq<string>>)
    ensures (exists p :: p in brought + {[]} && ["in"] in Above(entry + p)) <==>
      if entry != [] then entry[0] == "in" else exists p :: p in brought && ["in"] <= p
  {
    forall p ensures ["in"] in Above(entry + p) <==> if entry != [] then entry[0] == "in" else ["in"] <= p {
      FirstIs(entry + p);
      assert entry == [] ==> entry + p == p;
    }
    assert [] in brought + {[]};
    if entry == [] {
      if p :| p in brought + {[]} && ["in"] <= p {
        assert p in brought;
      }
      if p :| p in brought && ["in"] <= p {
        assert p in brought + {[]} && ["in"] in Above(entry + p);
      }
    }
  }
}
