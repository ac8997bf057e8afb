/** filepath.Join and filepath.Clean, and how host and container paths name entries of one share. */
module Paths {
  import opened Wrappers
  import opened Strings

  // ----- Splitting and rendering -----

  /** The text between slashes; always at least one part. */
  function Parts(s: string): (r: seq<string>)
    ensures r != []
  {
    var k := IndexOf(s, '/');
    if k == |s| then [s] else [s[..k]] + Parts(s[k + 1..])
  }

  /** One component read by filepath.Clean, on the stack of those kept so far. */
  function OneComponent(rooted: bool, done: seq<string>, part: string): seq<string> {
    if part == "" || part == "." then done
    else if part != ".." then done + [part]
    else if done != [] && done[|done| - 1] != ".." then done[..|done| - 1]
    else if rooted then done
    else done + [part]
  }

  function Resolve(rooted: bool, done: seq<string>, parts: seq<string>): seq<string>
    decreases |parts|
  {
    if parts == [] then done
    else OneComponent(rooted, Resolve(rooted, done, parts[..|parts| - 1]), parts[|parts| - 1])
  }

  predicate Rooted(s: string) {
    s != "" && s[0] == '/'
  }

  function Components(s: string): seq<string> {
    Resolve(Rooted(s), [], Parts(s))
  }

  function Render(rooted: bool, components: seq<string>): string {
    if rooted then "/" + Join(components, "/")
    else if components == [] then "."
    else Join(components, "/")
  }

  /** filepath.Clean. */
  function Clean(s: string): string {
    if s == "" then "." else Render(Rooted(s), Components(s))
  }

  /** filepath.Join: leading empty elements are ignored. */
  function FilePathJoin(elems: seq<string>): string {
    if elems == [] then ""
    else if elems[0] == "" then FilePathJoin(elems[1..])
    else Clean(Join(elems, "/"))
  }

  // ----- Normal component lists -----

  predicate IsEntryName(part: string) {
    part != "" && part != "." && part != ".." && '/' !in part
  }

  /** Entry names only, behind some leading `..` if the path is not rooted. */
  predicate Normal(rooted: bool, c: seq<string>) {
    forall k :: 0 <= k < |c| ==>
      IsEntryName(c[k]) || (!rooted && c[k] == ".." && forall j :: 0 <= j < k ==> c[j] == "..")
  }

  predicate NoSlashes(c: seq<string>) {
    forall k :: 0 <= k < |c| ==> '/' !in c[k]
  }

  lemma {:induction false} PartsHaveNoSlash(s: string)
    ensures NoSlashes(Parts(s))
    decreases |s|
  {
    var k := IndexOf(s, '/');
    IndexFromIsFirst(s, '/', 0);
    if k < |s| {
      PartsHaveNoSlash(s[k + 1..]);
    }
  }

  lemma {:induction false} StepNormal(rooted: bool, done: seq<string>, part: string)
    requires Normal(rooted, done) && '/' !in part
    ensures Normal(rooted, OneComponent(rooted, done, part))
  {
    var c := OneComponent(rooted, done, part);
    if part == ".." && |c| > |done| && done != [] {
      assert !IsEntryName(done[|done| - 1]);
    }
  }

  lemma {:induction false} ResolveNormal(rooted: bool, done: seq<string>, parts: seq<string>)
    requires Normal(rooted, done) && NoSlashes(parts)
    ensures Normal(rooted, Resolve(rooted, done, parts))
    decreases |parts|
  {
    if parts != [] {
      ResolveNormal(rooted, done, parts[..|parts| - 1]);
      StepNormal(rooted, Resolve(rooted, done, parts[..|parts| - 1]), parts[|parts| - 1]);
    }
  }

  /** Normal components are kept as they are. */
  lemma {:induction false} ResolveKeeps(rooted: bool, done: seq<string>, c: seq<string>)
    requires Normal(rooted, done + c)
    ensures Resolve(rooted, done, c) == done + c
    decreases |c|
  {
    if c != [] {
      var c' := c[..|c| - 1];
      assert (done + c)[..|done + c| - 1] == done + c';
      assert forall k :: 0 <= k < |done + c'| ==> (done + c')[k] == (done + c)[k];
      ResolveKeeps(rooted, done, c');
      assert (done + c)[|done + c| - 1] == c[|c| - 1];
      assert done + c == done + c' + [c[|c| - 1]];
    }
  }

  lemma {:induction false} ResolveAppend(rooted: bool, done: seq<string>, a: seq<string>, b: seq<string>)
    ensures Resolve(rooted, done, a + b) == Resolve(rooted, Resolve(rooted, done, a), b)
    decreases |b|
  {
    if b == [] {
      assert a + b == a;
    } else {
      ResolveAppend(rooted, done, a, b[..|b| - 1]);
      assert (a + b)[..|a + b| - 1] == a + b[..|b| - 1];
    }
  }

  /** Cleaning a relative part first changes nothing below a root: clean(root ++ clean(p)) = clean(root ++ p). */
  lemma {:induction false} ResolveCleaned(rooted: bool, root: seq<string>, parts: seq<string>)
    requires Normal(rooted, root) && NoSlashes(parts)
    ensures Resolve(rooted, root, Resolve(false, [], parts)) == Resolve(rooted, root, parts)
    decreases |parts|
  {
    if parts != [] {
      var p, x := parts[..|parts| - 1], parts[|parts| - 1];
      var q := Resolve(false, [], p);
      ResolveCleaned(rooted, root, p);
      ResolveNormal(false, [], p);
      StepAfterCleaned(rooted, root, q, x);
    }
  }

  lemma {:induction false} StepAfterCleaned(rooted: bool, root: seq<string>, q: seq<string>, x: string)
    requires Normal(rooted, root) && Normal(false, q)
    ensures Resolve(rooted, root, OneComponent(false, q, x)) == OneComponent(rooted, Resolve(rooted, root, q), x)
  {
    var q' := OneComponent(false, q, x);
    if |q'| > |q| {
      assert q'[..|q'| - 1] == q;
    } else if |q'| < |q| {
      var below := Resolve(rooted, root, q');
      assert IsEntryName(q[|q| - 1]);
      assert Resolve(rooted, root, q) == below + [q[|q| - 1]];
      assert (below + [q[|q| - 1]])[..|below|] == below;
    }
  }

  // ----- Back from text to components -----

  lemma {:induction false} PartsOfOne(s: string)
    requires '/' !in s
    ensures Parts(s) == [s]
  {
    IndexFromIsFirst(s, '/', 0);
  }

  lemma {:induction false} FirstSlash(a: string, b: string)
    ensures var k := IndexOf(a, '/');
            var s := a + "/" + b;
            && IndexOf(s, '/') == k && s[..k] == a[..k]
            && (k == |a| ==> s[k + 1..] == b && a[..k] == a)
            && (k < |a| ==> s[k + 1..] == a[k + 1..] + "/" + b)
  {
    var s := a + "/" + b;
    IndexFromIsFirst(a, '/', 0);
    IndexFromIsFirst(s, '/', 0);
    assert s[|a|] == '/' && forall m :: 0 <= m < |a| ==> s[m] == a[m];
  }

  lemma {:induction false} PartsOfSlash(a: string, b: string)
    ensures Parts(a + "/" + b) == Parts(a) + Parts(b)
    decreases |a|
  {
    var k := IndexOf(a, '/');
    FirstSlash(a, b);
    if k < |a| {
      PartsOfSlash(a[k + 1..], b);
      assert [a[..k]] + (Parts(a[k + 1..]) + Parts(b)) == [a[..k]] + Parts(a[k + 1..]) + Parts(b);
    }
  }

  lemma {:induction false} PartsOfJoin(c: seq<string>)
    requires c != [] && NoSlashes(c)
    ensures Parts(Join(c, "/")) == c
    decreases |c|
  {
    PartsOfOne(c[0]);
    if |c| > 1 {
      PartsOfJoin(c[1..]);
      PartsOfSlash(c[0], Join(c[1..], "/"));
      assert c == [c[0]] + c[1..];
    } else {
      assert c == [c[0]];
    }
  }

  /** The text of a component list, read part by part, resolves to the list. */
  lemma {:induction false} JoinedResolves(rooted: bool, c: seq<string>)
    requires Normal(rooted, c)
    ensures Resolve(rooted, [], Parts(Join(c, "/"))) == c
    ensures c != [] ==> Join(c, "/") != "" && !Rooted(Join(c, "/"))
  {
    if c == [] {
      PartsOfOne("");
      assert Resolve(rooted, [], [""]) == Resolve(rooted, [], []);
    } else {
      assert NoSlashes(c);
      PartsOfJoin(c);
      ResolveKeeps(rooted, [], c);
      assert [] + c == c;
      assert c[0] != "" && c[0][0] != '/';
    }
  }

  lemma {:induction false} BehindRoot(text: string)
    ensures Resolve(true, [], Parts("/" + text)) == Resolve(true, [], Parts(text))
  {
    PartsOfOne("");
    PartsOfSlash("", text);
    assert "" + "/" + text == "/" + text;
    ResolveAppend(true, [], [""], Parts(text));
    assert Resolve(true, [], [""]) == Resolve(true, [], []);
  }

  lemma {:induction false} RenderedComponents(rooted: bool, c: seq<string>)
    requires Normal(rooted, c)
    ensures var s := Render(rooted, c); s != "" && Rooted(s) == rooted && Components(s) == c
  {
    JoinedResolves(rooted, c);
    if rooted {
      BehindRoot(Join(c, "/"));
    } else if c == [] {
      PartsOfOne(".");
      assert Resolve(false, [], ["."]) == Resolve(false, [], []);
    }
  }

  /** Cleaning is idempotent. */
  lemma {:induction false} CleanIdempotent(s: string)
    ensures Clean(Clean(s)) == Clean(s)
  {
    if s == "" {
      PartsOfOne(".");
    } else {
      PartsHaveNoSlash(s);
      ResolveNormal(Rooted(s), [], Parts(s));
      RenderedComponents(Rooted(s), Components(s));
    }
  }

  // ----- Joining -----

  function AllParts(elems: seq<string>): seq<string> {
    if elems == [] then [] else Parts(elems[0]) + AllParts(elems[1..])
  }

  lemma {:induction false} PartsOfElems(elems: seq<string>)
    requires elems != []
    ensures Parts(Join(elems, "/")) == AllParts(elems)
    decreases |elems|
  {
    if |elems| > 1 {
      PartsOfElems(elems[1..]);
      PartsOfSlash(elems[0], Join(elems[1..], "/"));
    } else {
      assert AllParts(elems[1..]) == [];
    }
  }

  lemma {:induction false} AllPartsNoSlash(elems: seq<string>)
    ensures NoSlashes(AllParts(elems))
  {
    if elems != [] {
      PartsHaveNoSlash(elems[0]);
      AllPartsNoSlash(elems[1..]);
    }
  }

  /** A join is rooted if its first element is, and its components are those of all elements resolved in order. */
  lemma {:induction false} JoinComponents(elems: seq<string>)
    requires elems != [] && elems[0] != ""
    ensures var joined := FilePathJoin(elems);
            && joined != "" && Rooted(joined) == Rooted(elems[0])
            && Components(joined) == Resolve(Rooted(elems[0]), [], AllParts(elems))
            && joined == Render(Rooted(elems[0]), Components(joined))
            && Normal(Rooted(elems[0]), Components(joined))
  {
    var text := Join(elems, "/");
    var rooted := Rooted(elems[0]);
    assert text != "" && text[0] == elems[0][0];
    PartsOfElems(elems);
    AllPartsNoSlash(elems);
    ResolveNormal(rooted, [], AllParts(elems));
    RenderedComponents(rooted, Components(text));
  }

  /** The entry below a mounted root that a path names, if it names one. */
  function EntryBelow(root: string, path: string): Option<seq<string>> {
    if Components(root) <= Components(path) then Some(Components(path)[|Components(root)|..]) else None
  }

  // ----- The paths of the program -----

  const SWAP_ROOT := "/swaproot"
  const SWAP_IN := "./in"
  const SWAP_OUT := "./out"

  /** Where ioutil.TempDir mounts the share on the host. */
  function MountedPath(name: string): string {
    "/tmp/" + name
  }

  /** A name that ioutil.TempDir makes. */
  predicate IsTempName(name: string) {
    IsEntryName(name) && At(name, 0, "folder_to_azure_")
  }

  predicate IsRoot(root: string) {
    Rooted(root) && Normal(true, Components(root))
  }

  lemma {:induction false} SwapRootIsRoot()
    ensures IsRoot(SWAP_ROOT) && Components(SWAP_ROOT) == ["swaproot"] && Normal(true, ["swaproot"])
  {
    hide Components;
    assert Join(["swaproot"], "/") == "swaproot";
    RenderedComponents(true, ["swaproot"]);
    assert "/" + "swaproot" == SWAP_ROOT;
  }

  lemma {:induction false} MountedPathIsRoot(name: string)
    requires IsEntryName(name)
    ensures IsRoot(MountedPath(name)) && Components(MountedPath(name)) == ["tmp", name] && Normal(true, ["tmp", name])
  {
    hide Components;
    assert ["tmp", name][1..] == [name];
    assert Join(["tmp", name], "/") == "tmp" + "/" + name;
    RenderedComponents(true, ["tmp", name]);
    assert "/" + ("tmp" + "/" + name) == "/tmp/" + name;
  }

  lemma {:induction false} RootsOfShare(name: string)
    requires IsTempName(name)
    ensures IsRoot(SWAP_ROOT) && Components(SWAP_ROOT) == ["swaproot"] && Normal(true, ["swaproot"])
    ensures IsRoot(MountedPath(name)) && Components(MountedPath(name)) == ["tmp", name] && Normal(true, ["tmp", name])
    ensures name != "swaproot"
  {
    hide Components, IsRoot, MountedPath, Normal;
    SwapRootIsRoot();
    MountedPathIsRoot(name);
    AtTail(name, 0, "folder_to_azure_");
  }

  /** Below a root, elements that resolve to entry names name exactly that entry. */
  lemma {:induction false} NamesEntry(root: string, elems: seq<string>, entry: seq<string>)
    requires IsRoot(root) && Resolve(false, [], AllParts(elems)) == entry
    requires forall k :: 0 <= k < |entry| ==> IsEntryName(entry[k])
    ensures var path := FilePathJoin([root] + elems);
            && IsRoot(path) && Components(path) == Components(root) + entry && path == Render(true, Components(path))
            && EntryBelow(root, path) == Some(entry)
  {
    JoinComponents([root] + elems);
    assert ([root] + elems)[1..] == elems;
    ResolveAppend(true, [], Parts(root), AllParts(elems));
    AllPartsNoSlash(elems);
    ResolveCleaned(true, Components(root), AllParts(elems));
    ResolveKeeps(true, Components(root), entry);
  }
}
