/** What mkdir, chmod, rsync and tar do to a tree of files, given their words. */
module Commands {
  import opened Wrappers
  import opened Strings
  import opened Paths

  datatype Node = Folder(mode: nat) | Data(content: string)

  /** All that there is below the root, by its path; the root itself is the empty path. */
  type Tree = map<seq<string>, Node>

  /** Every user's home folder, and tar's format: what it makes of a named tree, and what it finds in an archive. */
  datatype Machine = Machine(homes: string -> seq<string>, pack: (string, Tree) -> string, unpack: string -> Option<Tree>)

  /** rwxr-xr-x, as mkdir makes folders, and rwxrwxrwx. */
  const NEW_MODE: nat := 493
  const OPEN_MODE: nat := 511

  // ----- Paths -----

  function Base(home: seq<string>, path: string): seq<string> {
    if Rooted(path) then [] else home
  }

  /** The place that a path names for somebody who is at home. */
  function PathOf(home: seq<string>, path: string): seq<string> {
    Resolve(true, Base(home, path), Parts(path))
  }

  /** The places that one comes through on a path, its end included. */
  function Walk(home: seq<string>, path: string): set<seq<string>> {
    set k | 0 <= k <= |Parts(path)| :: Resolve(true, Base(home, path), Parts(path)[..k])
  }

  predicate FolderAt(fs: Tree, place: seq<string>) {
    place in fs && fs[place].Folder?
  }

  /** An operand, not an option; rsync takes a colon in front of any slash for the name of a host. */
  predicate IsOperand(word: string) {
    word != "" && word[0] != '-'
  }

  predicate IsLocal(word: string) {
    IndexOf(word, ':') == |word| || IndexOf(word, '/') < IndexOf(word, ':')
  }

  // ----- Trees -----

  function WithFolders(fs: Tree, places: set<seq<string>>): Tree {
    map q | q in fs.Keys + places :: if q in fs then fs[q] else Folder(NEW_MODE)
  }

  /** What is at a place and below it, by the path from there. */
  function Below(fs: Tree, place: seq<string>): Tree {
    var paths := set q | q in fs && place <= q :: q[|place|..];
    map p | p in paths && place + p in fs :: fs[place + p]
  }

  /** Another tree put at this place, over what is there. */
  function Overlay(fs: Tree, sub: Tree, place: seq<string>): Tree {
    map q | q in fs.Keys + (set p | p in sub :: place + p) ::
      if place <= q && q[|place|..] in sub then sub[q[|place|..]] else if q in fs then fs[q] else Folder(NEW_MODE)
  }

  /** No file would come where a folder is, nor a folder where a file is. */
  predicate Fits(fs: Tree, sub: Tree, place: seq<string>) {
    forall p :: p in sub && place + p in fs ==> (sub[p].Folder? <==> fs[place + p].Folder?)
  }

  // ----- The commands; None is a failure -----

  /** `mkdir -p path`. */
  function MakeFolders(fs: Tree, home: seq<string>, path: string): Option<Tree> {
    if !IsOperand(path) || exists q :: q in Walk(home, path) && q in fs && fs[q].Data? then None
    else Some(WithFolders(fs, Walk(home, path)))
  }

  predicate IsOctal(mode: string) {
    mode != "" && forall i :: 0 <= i < |mode| ==> '0' <= mode[i] <= '7'
  }

  function OctalValue(mode: string): nat
    requires forall i :: 0 <= i < |mode| ==> '0' <= mode[i] <= '7'
  {
    if mode == "" then 0
    else 8 * OctalValue(mode[..|mode| - 1]) + (mode[|mode| - 1] as int - '0' as int)
  }

  /** `chmod mode path`; the modes of files are not kept. */
  function ChangeMode(fs: Tree, home: seq<string>, mode: string, path: string): Option<Tree> {
    var place := PathOf(home, path);
    if !IsOctal(mode) || !IsOperand(path) || place !in fs then None
    else Some(if fs[place].Folder? then fs[place := Folder(OctalValue(mode))] else fs)
  }

  /** `rsync -a source target`: with a slash at its end what is in the source is copied, without one the source too. */
  function Synchronise(fs: Tree, home: seq<string>, source: string, target: string): Option<Tree> {
    var from, to := PathOf(home, source), PathOf(home, target);
    if !IsOperand(source) || !IsLocal(source) || !IsOperand(target) || !IsLocal(target) then None
    else
      var place := if source[|source| - 1] == '/' || from == [] then to else to + [from[|from| - 1]];
      if !FolderAt(fs, from) || !FolderAt(fs, to) || !Fits(fs, Below(fs, from), place) then None
      else Some(Overlay(fs, Below(fs, from), place))
  }

  /** `tar -C folder -xf archive`. */
  function Extract(m: Machine, fs: Tree, home: seq<string>, folder: string, archive: string): Option<Tree> {
    var place, file := PathOf(home, folder), PathOf(home, archive);
    if !IsOperand(folder) || !IsOperand(archive) || !FolderAt(fs, place) || file !in fs || fs[file].Folder? then None
    else
      match m.unpack(fs[file].content)
      case None => None
      case Some(sub) => if Fits(fs, sub, place) then Some(Overlay(fs, sub, place)) else None
  }

  /** `tar -cf archive path`. */
  function Archive(m: Machine, fs: Tree, home: seq<string>, archive: string, path: string): Option<Tree> {
    var file, from := PathOf(home, archive), PathOf(home, path);
    if !IsOperand(archive) || !IsOperand(path) || file == [] || !FolderAt(fs, file[..|file| - 1]) || FolderAt(fs, file)
       || from !in fs then None
    else Some(fs[file := Data(m.pack(path, Below(fs, from)))])
  }

  /** One command of a user. */
  function RunCommand(m: Machine, user: string, words: seq<string>, fs: Tree): Option<Tree> {
    var home := m.homes(user);
    if |words| == 3 && words[0] == "mkdir" && words[1] == "-p" then MakeFolders(fs, home, words[2])
    else if |words| == 3 && words[0] == "chmod" then ChangeMode(fs, home, words[1], words[2])
    else if |words| == 4 && words[0] == "rsync" && words[1] == "-a" then Synchronise(fs, home, words[2], words[3])
    else if |words| == 5 && words[0] == "tar" && words[1] == "-C" && words[3] == "-xf" then
      Extract(m, fs, home, words[2], words[4])
    else if |words| == 4 && words[0] == "tar" && words[1] == "-cf" then Archive(m, fs, home, words[2], words[3])
    else None
  }

  /** Commands with their users, one after the other. */
  function RunCommands(m: Machine, commands: seq<(string, seq<string>)>, fs: Tree): Option<Tree> {
    if commands == [] then Some(fs)
    else
      match RunCommand(m, commands[0].0, commands[0].1, fs)
      case None => None
      case Some(fs') => RunCommands(m, commands[1..], fs')
  }

  // ----- Facts -----

  lemma {:induction false} BelowAt(fs: Tree, place: seq<string>, p: seq<string>)
    ensures p in Below(fs, place) <==> place + p in fs
    ensures place + p in fs ==> Below(fs, place)[p] == fs[place + p]
  {
    assert (place + p)[|place|..] == p;
    if place + p in fs {
      assert place <= place + p;
      var q := place + p;
      assert q in fs && place <= q && q[|place|..] == p;
    }
  }

  lemma {:induction false} OverlayAt(fs: Tree, sub: Tree, place: seq<string>, p: seq<string>)
    requires p in sub
    ensures place + p in Overlay(fs, sub, place) && Overlay(fs, sub, place)[place + p] == sub[p]
  {
    assert (place + p)[|place|..] == p;
  }

  /** Two trees agree on a place. */
  predicate Same(fs: Tree, fs': Tree, q: seq<string>) {
    (q in fs <==> q in fs') && (q in fs ==> fs'[q] == fs[q])
  }

  lemma {:induction false} OverlayElsewhere(fs: Tree, sub: Tree, place: seq<string>, q: seq<string>)
    requires !(place <= q) || q[|place|..] !in sub
    ensures Same(fs, Overlay(fs, sub, place), q)
  {
    assert forall p :: p in sub ==> place <= place + p && (place + p)[|place|..] == p;
  }

  lemma {:induction false} EndOfWalk(home: seq<string>, path: string)
    ensures PathOf(home, path) in Walk(home, path)
  {
    assert Parts(path)[..|Parts(path)|] == Parts(path);
  }

  /** A home folder has entry names only. */
  lemma {:induction false} PlaceNormal(home: seq<string>, path: string)
    requires Normal(true, home)
    ensures Normal(true, PathOf(home, path))
  {
    hide Parts, Resolve;
    PartsHaveNoSlash(path);
    ResolveNormal(true, Base(home, path), Parts(path));
  }
}
