/** Where each file of a task lives on the share, and which names the daemon's `*.sh` glob matches. */
module Naming {
  import opened Decimal
  import opened Tasks

  /** The files one task can have. */
  datatype Kind = EnvFile | TempFile | ScriptFile | ExecutedFile | PidFile | ExitFile | ArchiveFile

  /** A file below the share root: the folders that lead to it and its own name. */
  datatype Location = Location(folder: seq<string>, base: string)

  function TaskFolder(step: Step): seq<string> {
    ["one_off_tasks", StepFolder(step)]
  }

  const TASK_OUTPUT_FOLDER := ["out", "tasks"]
  const STREAM_OUT_FOLDER := ["out", "streamout"]

  function FolderOf(step: Step, kind: Kind): seq<string> {
    if kind == ArchiveFile then STREAM_OUT_FOLDER
    else if kind == PidFile || kind == ExitFile then TASK_OUTPUT_FOLDER
    else TaskFolder(step)
  }

  /** Queue files carry the time prefix, the pid and exit files only the task id. */
  function NamePart(job: Job, kind: Kind): string {
    if kind == ArchiveFile then job.archive
    else if kind == PidFile || kind == ExitFile then job.Id()
    else job.Stem()
  }

  function Suffix(kind: Kind): string {
    match kind
    case EnvFile => ".env"
    case TempFile => ".sh.temp"
    case ScriptFile => ".sh"
    case ExecutedFile => ".sh.executed"
    case PidFile => ".pid"
    case ExitFile => ".exit"
    case ArchiveFile => ""
  }

  function LocationOf(job: Job, kind: Kind): Location {
    Location(FolderOf(job.step, kind), NamePart(job, kind) + Suffix(kind))
  }

  predicate EndsWith(s: string, suffix: string) {
    |suffix| <= |s| && s[|s| - |suffix|..] == suffix
  }

  /** The daemon's pattern for a queue folder: any name that ends in .sh; a star does not match a leading dot. */
  predicate Glob(folder: seq<string>, loc: Location) {
    loc.folder == folder && EndsWith(loc.base, ".sh") && loc.base[0] != '.'
  }

  /** Alphabetical order of names, the order `ls` falls back to between equal times. */
  predicate NameLess(a: string, b: string) {
    if b == [] then false
    else if a == [] then true
    else a[0] < b[0] || (a[0] == b[0] && NameLess(a[1..], b[1..]))
  }

  lemma LastCharacter(stem: string, kind: Kind)
    requires kind != ArchiveFile
    ensures (stem + Suffix(kind))[|stem + Suffix(kind)| - 1] == Suffix(kind)[|Suffix(kind)| - 1]
  {
  }

  lemma FoldersDiffer(s1: Step, k1: Kind, s2: Step, k2: Kind)
    requires FolderOf(s1, k1) == FolderOf(s2, k2)
    ensures k1 == ArchiveFile <==> k2 == ArchiveFile
    ensures k1 == PidFile || k1 == ExitFile <==> k2 == PidFile || k2 == ExitFile
    ensures k1 == ScriptFile || k2 == ScriptFile ==> s1 == s2
  {
    var f1, f2 := FolderOf(s1, k1), FolderOf(s2, k2);
    assert f1[0] == f2[0] && f1[1] == f2[1];
    assert f1[0][0] == f2[0][0] && f1[1][0] == f2[1][0];
    assert |f1[1]| == |f2[1]|;
  }

  /** No half-written or retired name ever matches the glob; a script matches in its own queue only. */
  lemma GlobMatchesScriptsOnly(job: Job, kind: Kind, step: Step)
    ensures Glob(TaskFolder(step), LocationOf(job, kind)) <==> kind == ScriptFile && job.step == step
  {
    var loc := LocationOf(job, kind);
    if kind == ScriptFile {
      assert loc.base[|loc.base| - 3..] == ".sh";
      assert loc.base[0] == PrintNat(job.nanos)[0];
      assert IsDigit(loc.base[0]);
    }
    if loc.folder == TaskFolder(step) {
      FoldersDiffer(job.step, kind, step, ScriptFile);
      LastCharacter(NamePart(job, kind), kind);
      assert EndsWith(loc.base, ".sh") ==> loc.base[|loc.base| - 1] == ".sh"[2];
    }
  }

  lemma SameTail(a: string, b: string, x: string, y: string)
    requires a + x == b + y && |x| == |y|
    ensures a == b && x == y
  {
    assert |a| == |b|;
    assert a == (a + x)[..|a|];
    assert b == (b + y)[..|b|];
    assert x == (a + x)[|a|..];
    assert y == (b + y)[|b|..];
  }

  lemma StemFixesUuid(j1: Job, j2: Job)
    requires |j1.uuid| == |j2.uuid| == UUID_LENGTH
    ensures j1.Stem() == j2.Stem() ==> j1.uuid == j2.uuid
    ensures j1.Id() == j2.Id() ==> j1.uuid == j2.uuid
  {
    if j1.Stem() == j2.Stem() {
      var a1, a2 := PrintNat(j1.nanos) + "_" + (j1.tag + "_"), PrintNat(j2.nanos) + "_" + (j2.tag + "_");
      assert a1 + j1.uuid == j1.Stem();
      assert a2 + j2.uuid == j2.Stem();
      SameTail(a1, a2, j1.uuid, j2.uuid);
    }
    if j1.Id() == j2.Id() {
      SameTail(j1.tag + "_", j2.tag + "_", j1.uuid, j2.uuid);
    }
  }

  /**
   * Two files in one place are the same kind of file, of tasks with the same uuid, or for archives with the
   * same archive.
   */
  lemma LocationsDistinct(j1: Job, k1: Kind, j2: Job, k2: Kind)
    requires |j1.uuid| == |j2.uuid| == UUID_LENGTH
    requires LocationOf(j1, k1) == LocationOf(j2, k2)
    ensures k1 == k2 && if k1 == ArchiveFile then j1.archive == j2.archive else j1.uuid == j2.uuid
  {
    FoldersDiffer(j1.step, k1, j2.step, k2);
    if k1 == ArchiveFile {
      assert j1.archive + "" == j1.archive && j2.archive + "" == j2.archive;
    } else {
      LastCharacter(NamePart(j1, k1), k1);
      LastCharacter(NamePart(j2, k2), k2);
      SameTail(NamePart(j1, k1), NamePart(j2, k2), Suffix(k1), Suffix(k2));
      StemFixesUuid(j1, j2);
    }
  }
}
