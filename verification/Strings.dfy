/** String helpers of the Go and shell texts. */
module Strings {
  /** v stands in s at position i. */
  predicate At(s: string, i: nat, v: string) {
    i + |v| <= |s| && s[i..i + |v|] == v
  }

  /** strings.Join. */
  function Join(parts: seq<string>, sep: string): string {
    if parts == [] then ""
    else if |parts| == 1 then parts[0]
    else parts[0] + sep + Join(parts[1..], sep)
  }

  function IndexFrom(s: string, c: char, i: nat): (k: nat)
    requires i <= |s|
    ensures i <= k <= |s|
    decreases |s| - i
  {
    if i == |s| || s[i] == c then i else IndexFrom(s, c, i + 1)
  }

  /** strings.Index for one character; the length if it does not occur. */
  function IndexOf(s: string, c: char): nat {
    IndexFrom(s, c, 0)
  }

  lemma {:induction false} IndexFromIsFirst(s: string, c: char, i: nat)
    requires i <= |s|
    ensures var k := IndexFrom(s, c, i);
            && (k < |s| ==> s[k] == c)
            && forall m :: i <= m < k ==> s[m] != c
    decreases |s| - i
  {
    if i < |s| && s[i] != c {
      IndexFromIsFirst(s, c, i + 1);
    }
  }

  lemma {:induction false} AtTail(s: string, i: nat, v: string)
    requires At(s, i, v) && v != ""
    ensures s[i] == v[0] && At(s, i + 1, v[1..]) && v == [v[0]] + v[1..]
  {
    assert s[i..i + |v|][0] == v[0];
    assert s[i + 1..i + |v|] == s[i..i + |v|][1..];
  }

  lemma {:induction false} AtParts(s: string, i: nat, a: string, b: string)
    requires At(s, i, a + b)
    ensures At(s, i, a) && At(s, i + |a|, b)
  {
    assert s[i..i + |a|] == s[i..i + |a + b|][..|a|] == a;
    assert s[i + |a|..i + |a| + |b|] == s[i..i + |a + b|][|a|..] == b;
  }

  lemma {:induction false} AtJoined(s: string, i: nat, a: string, b: string)
    requires At(s, i, a) && At(s, i + |a|, b)
    ensures At(s, i, a + b)
  {
    assert s[i..i + |a + b|] == s[i..i + |a|] + s[i + |a|..i + |a| + |b|];
  }

  lemma {:induction false} SamePrefix(a: string, x: string, y: string)
    ensures a + x == a + y <==> x == y
  {
    assert (a + x)[|a|..] == x && (a + y)[|a|..] == y;
  }

  // ----- Counting white space -----

  predicate IsWhite(c: char) {
    c == ' ' || c == '\t' || c == '\n'
  }

  /** White characters of s between positions i and j. */
  function White(s: string, i: nat, j: nat): nat
    requires i <= j <= |s|
    decreases j - i
  {
    if i == j then 0 else (if IsWhite(s[i]) then 1 else 0) + White(s, i + 1, j)
  }

  function WhiteIn(s: string): nat {
    White(s, 0, |s|)
  }

  lemma {:induction false} WhiteSplit(s: string, i: nat, k: nat, j: nat)
    requires i <= k <= j <= |s|
    ensures White(s, i, j) == White(s, i, k) + White(s, k, j)
    decreases k - i
  {
    if i < k {
      WhiteSplit(s, i + 1, k, j);
    }
  }

  lemma {:induction false} WhiteSame(s: string, i: nat, t: string, k: nat, n: nat)
    requires i + n <= |s| && k + n <= |t| && s[i..i + n] == t[k..k + n]
    ensures White(s, i, i + n) == White(t, k, k + n)
    decreases n
  {
    if n > 0 {
      assert s[i..i + n][0] == t[k..k + n][0];
      assert s[i + 1..i + n] == s[i..i + n][1..] && t[k + 1..k + n] == t[k..k + n][1..];
      WhiteSame(s, i + 1, t, k + 1, n - 1);
    }
  }

  lemma {:induction false} WhiteAt(s: string, i: nat, v: string)
    requires At(s, i, v)
    ensures White(s, i, i + |v|) == WhiteIn(v)
  {
    assert v[0..0 + |v|] == v;
    WhiteSame(s, i, v, 0, |v|);
  }

  lemma {:induction false} WhiteConcat(a: string, b: string)
    ensures WhiteIn(a + b) == WhiteIn(a) + WhiteIn(b)
  {
    WhiteSplit(a + b, 0, |a|, |a + b|);
    assert (a + b)[0..0 + |a|] == a[0..0 + |a|] && (a + b)[|a|..|a| + |b|] == b[0..0 + |b|];
    WhiteSame(a + b, 0, a, 0, |a|);
    WhiteSame(a + b, |a|, b, 0, |b|);
  }

  lemma {:induction false} WhiteOne(c: char)
    ensures WhiteIn([c]) == if IsWhite(c) then 1 else 0
  {
    assert White([c], 1, 1) == 0;
  }
}
