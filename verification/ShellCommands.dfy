/**
 * Reading the words of one simple command, up to the operator, the newline or the redirection that ends
 * them, and when a line of written words is read back word for word.
 */
module ShellCommands {
  import opened Wrappers
  import opened Decimal
  import opened Strings
  import opened ShellLexer
  import opened ShellWords

  /** The words after quote removal, and the position behind the last of them. */
  datatype Command = Command(words: seq<string>, end: nat)

  /** A redirection operator, with or without the number of a file descriptor in front of it. */
  predicate StartsRedirection(s: string, i: nat)
    requires i <= |s|
    decreases |s| - i
  {
    i < |s| && (s[i] == '<' || s[i] == '>' || (IsDigit(s[i]) && StartsRedirection(s, i + 1)))
  }

  predicate NoMoreWords(s: string, i: nat)
    requires i <= |s|
  {
    i == |s| || ClassOf(s[i]) == Operator || StartsRedirection(s, i)
  }

  function InFront(l: Lexed, r: Option<Command>): Option<Command> {
    match r
    case None => None
    case Some(c) => Some(Command([l.word] + c.words, if c.words == [] then l.end else c.end))
  }

  function ReadWords(s: string, i: nat): (r: Option<Command>)
    requires i <= |s|
    ensures r.Some? ==> i <= r.value.end <= |s|
    decreases |s| - i
  {
    if NoMoreWords(s, i) then Some(Command([], i))
    else if ClassOf(s[i]) == Blank then ReadWords(s, i + 1)
    else
      match LexWord(s, i, Bare)
      case None => None
      case Some(l) => InFront(l, ReadWords(s, l.end))
  }

  // ----- Command position -----

  predicate IsNameChar(c: char) {
    'a' <= c <= 'z' || 'A' <= c <= 'Z' || c == '_' || IsDigit(c)
  }

  /** A shell variable name. */
  predicate IsName(s: string) {
    s != "" && !IsDigit(s[0]) && forall i :: 0 <= i < |s| ==> IsNameChar(s[i])
  }

  lemma {:induction false} NameIsPlain(name: string)
    requires IsName(name)
    ensures name != "" && AllPlain(name) && '\'' !in name
  {
  }

  /**
   * The reserved words that are written in plain characters: those of section 2.4 of IEEE Std 1003.1-2017,
   * Shell Command Language, and the ones that bash adds to them.
   */
  const RESERVED: seq<string> := ["!", "}", "case", "do", "done", "elif", "else", "esac", "fi", "for", "if", "in",
                                  "then", "until", "while", "coproc", "function", "select", "time"]

  function PlainEnd(s: string, i: nat): (k: nat)
    requires i <= |s|
    ensures i <= k <= |s|
    decreases |s| - i
  {
    if i == |s| || ClassOf(s[i]) != Plain then i else PlainEnd(s, i + 1)
  }

  /** `name=value`, or `name+=value`, which bash reads as an assignment as well. */
  predicate IsAssignment(word: string) {
    var k := IndexOf(word, '=');
    k < |word| && (IsName(word[..k]) || (k > 0 && word[k - 1] == '+' && IsName(word[..k - 1])))
  }

  /** In front of a command name the shell takes an assignment or a reserved word for something else. */
  predicate StartsOtherwise(s: string, i: nat)
    requires i <= |s|
  {
    var k := PlainEnd(s, i);
    IsAssignment(s[i..k]) || (s[i..k] in RESERVED && (k == |s| || IsDelimiter(s[k])))
  }

  /** The words of a simple command without assignments. */
  function ReadCommand(s: string, i: nat): (r: Option<Command>)
    requires i <= |s|
    ensures r.Some? ==> i <= r.value.end <= |s|
    decreases |s| - i
  {
    if i < |s| && ClassOf(s[i]) == Blank then ReadCommand(s, i + 1)
    else if StartsOtherwise(s, i) then None
    else ReadWords(s, i)
  }

  predicate IsCommandName(word: string) {
    word != "" && AllPlain(word) && !IsAssignment(word) && word !in RESERVED
  }

  lemma {:induction false} UnreservedName(name: string)
    requires AllPlain(name) && name != "" && '=' !in name && name !in RESERVED
    ensures IsCommandName(name)
  {
    IndexFromIsFirst(name, '=', 0);
  }

  lemma {:induction false} CommandIsWords(s: string, i: nat)
    requires i <= |s| && ReadCommand(s, i).Some?
    ensures ReadWords(s, i) == ReadCommand(s, i)
    decreases |s| - i
  {
    if i < |s| && ClassOf(s[i]) == Blank {
      assert !StartsRedirection(s, i);
      CommandIsWords(s, i + 1);
    }
  }

  lemma {:induction false} PlainRun(s: string, i: nat, word: string)
    requires At(s, i, word) && AllPlain(word) && EndsHere(s, i + |word|)
    ensures PlainEnd(s, i) == i + |word|
    decreases |word|
  {
    if word != "" {
      AtTail(s, i, word);
      PlainRun(s, i + 1, word[1..]);
    }
  }

  /** A plain first word is a command name or starts something else. */
  lemma {:induction false} CommandPosition(s: string, i: nat, word: string)
    requires word != "" && At(s, i, word) && AllPlain(word) && EndsHere(s, i + |word|)
    ensures ReadCommand(s, i) == if IsCommandName(word) then ReadWords(s, i) else None
  {
    PlainRun(s, i, word);
    AtTail(s, i, word);
    assert s[i..i + |word|] == word;
  }

  // ----- Lines of written words -----

  function Texts(items: seq<Written>): seq<string> {
    if items == [] then [] else [items[0].Text()] + Texts(items[1..])
  }

  function Values(items: seq<Written>): (r: seq<string>)
    ensures |r| == |items|
  {
    if items == [] then [] else [items[0].value] + Values(items[1..])
  }

  function Line(items: seq<Written>): string {
    Join(Texts(items), " ")
  }

  predicate AllSafe(items: seq<Written>) {
    items == [] || (items[0].Safe() && AllSafe(items[1..]))
  }

  /** The texts of the items stand in s one blank apart, from position i to position end. */
  predicate LineAt(s: string, i: nat, items: seq<Written>, end: nat)
    requires items != []
    decreases |items|
  {
    var next := i + |items[0].Text()|;
    && At(s, i, items[0].Text())
    && EndsHere(s, next)
    && if |items| == 1 then end == next
       else next < |s| && s[next] == ' ' && LineAt(s, next + 1, items[1..], end)
  }

  lemma {:induction false} LineSplit(items: seq<Written>)
    requires items != []
    ensures Line(items) == if |items| == 1 then items[0].Text() else items[0].Text() + (" " + Line(items[1..]))
  {
    hide Written.Text;
    var texts := Texts(items[1..]);
    assert Texts(items) == [items[0].Text()] + texts;
    assert |texts| == |items[1..]| by { TextsLength(items[1..]); }
    assert Texts(items)[1..] == texts;
    if |items| > 1 {
      assert items[0].Text() + " " + Line(items[1..]) == items[0].Text() + (" " + Line(items[1..]));
    }
  }

  lemma {:induction false} TextsLength(items: seq<Written>)
    ensures |Texts(items)| == |items|
  {
    if items != [] {
      TextsLength(items[1..]);
    }
  }

  lemma {:induction false} LineIsAt(s: string, i: nat, items: seq<Written>)
    requires items != [] && At(s, i, Line(items)) && EndsHere(s, i + |Line(items)|)
    ensures LineAt(s, i, items, i + |Line(items)|)
    decreases |items|
  {
    hide Written.Text, Line, At;
    LineSplit(items);
    if |items| > 1 {
      var rest := Line(items[1..]);
      var next := i + |items[0].Text()|;
      AtParts(s, i, items[0].Text(), " " + rest);
      AtTail(s, next, " " + rest);
      assert (" " + rest)[1..] == rest;
      LineIsAt(s, next + 1, items[1..]);
    }
  }

  lemma {:induction false} LineEnds(s: string, i: nat, items: seq<Written>, end: nat)
    requires items != [] && LineAt(s, i, items, end)
    ensures i <= end <= |s| && EndsHere(s, end)
    decreases |items|
  {
    if |items| > 1 {
      LineEnds(s, i + |items[0].Text()| + 1, items[1..], end);
    }
  }

  // ----- White space between words -----

  /** The blanks that the reader skips in front of words. */
  function Skips(s: string, i: nat): nat
    requires i <= |s| && ReadWords(s, i).Some?
    decreases |s| - i
  {
    if ReadWords(s, i).value.words == [] then 0
    else if ClassOf(s[i]) == Blank then 1 + Skips(s, i + 1)
    else Skips(s, LexWord(s, i, Bare).value.end)
  }

  function WhiteOfAll(words: seq<string>): nat {
    if words == [] then 0 else WhiteIn(words[0]) + WhiteOfAll(words[1..])
  }

  lemma {:induction false} WhiteOfWords(s: string, i: nat)
    requires i <= |s| && ReadWords(s, i).Some? && ReadWords(s, i).value.words != []
    ensures White(s, i, ReadWords(s, i).value.end) == WhiteOfAll(ReadWords(s, i).value.words) + Skips(s, i)
    decreases |s| - i
  {
    if ClassOf(s[i]) == Blank {
      WhiteOfWords(s, i + 1);
    } else {
      var l := LexWord(s, i, Bare).value;
      var rest := ReadWords(s, l.end).value;
      WhiteSurvives(s, i, Bare);
      assert ([l.word] + rest.words)[1..] == rest.words;
      if rest.words != [] {
        WhiteOfWords(s, l.end);
        WhiteSplit(s, i, l.end, rest.end);
      }
    }
  }

  lemma {:induction false} SkipsBetween(s: string, i: nat)
    requires i <= |s| && ReadWords(s, i).Some? && ReadWords(s, i).value.words != []
    ensures Skips(s, i) >= |ReadWords(s, i).value.words| - 1
    decreases |s| - i
  {
    if ClassOf(s[i]) == Blank {
      SkipsBetween(s, i + 1);
    } else {
      var l := LexWord(s, i, Bare).value;
      WordEndsAtDelimiter(s, i, Bare);
      if ReadWords(s, l.end).value.words != [] {
        SkipsBetween(s, l.end + 1);
      }
    }
  }

  lemma {:induction false} WhiteOfLine(s: string, i: nat, items: seq<Written>, end: nat)
    requires items != [] && LineAt(s, i, items, end)
    ensures i <= end <= |s| && White(s, i, end) == WhiteOfAll(Values(items)) + |items| - 1
    decreases |items|
  {
    hide Written.Text, WhiteIn;
    var next := i + |items[0].Text()|;
    SameWhite(items[0]);
    WhiteAt(s, i, items[0].Text());
    assert Values(items)[1..] == Values(items[1..]);
    if |items| > 1 {
      WhiteOfLine(s, next + 1, items[1..], end);
      WhiteSplit(s, i, next, end);
    }
  }

  // ----- Reading a line back, exactly -----

  lemma {:induction false} PlainNoRedirection(s: string, i: nat, p: string)
    requires At(s, i, p) && AllPlain(p)
    requires i + |p| == |s| || (s[i + |p|] != '<' && s[i + |p|] != '>' && !IsDigit(s[i + |p|]))
    ensures !StartsRedirection(s, i)
    decreases |p|
  {
    if p != "" {
      AtTail(s, i, p);
      PlainNoRedirection(s, i + 1, p[1..]);
    }
  }

  lemma {:induction false} SafeNoRedirection(s: string, i: nat, w: Written)
    requires w.Safe() && w.Text() != "" && At(s, i, w.Text()) && EndsHere(s, i + |w.Text()|)
    ensures !StartsRedirection(s, i)
  {
    hide At, AllPlain, DoubleSafe;
    AtTail(s, i, w.Text());
    match w
    case Raw(x) => PlainNoRedirection(s, i, x);
    case Quoted(_) =>
    case Argument(x) => ArgumentNoRedirection(s, i, x);
  }

  lemma {:induction false} PairNoRedirection(s: string, i: nat, k: string, v: string)
    requires AllPlain(k) && At(s, i, Pair(k, v))
    ensures !StartsRedirection(s, i)
  {
    hide At, AllPlain, StartsRedirection, Pair;
    PairPlaces(s, i, k, v);
    PlainNoRedirection(s, i, k);
  }

  lemma {:induction false} PlainWordNoRedirection(s: string, i: nat, x: string)
    requires AllPlain(x) && At(s, i, x) && EndsHere(s, i + |x|)
    ensures !StartsRedirection(s, i)
  {
    hide At, AllPlain, StartsRedirection;
    PlainNoRedirection(s, i, x);
  }

  lemma {:induction false} ArgumentNoRedirection(s: string, i: nat, x: string)
    requires SafeArg(x) && At(s, i, ProcessedArg(x)) && EndsHere(s, i + |ProcessedArg(x)|)
    ensures !StartsRedirection(s, i)
  {
    hide At, AllPlain, DoubleSafe, IndexOf, EndsHere;
    if x == "" {
      AtTail(s, i, ProcessedArg(x));
    } else if '=' in x {
      hide ProcessedArg, StartsRedirection;
      ArgSplit(x);
      PairNoRedirection(s, i, x[..IndexOf(x, '=')], x[IndexOf(x, '=') + 1..]);
    } else {
      hide ProcessedArg, StartsRedirection;
      NoEquals(x);
      assert x[..|x|] == x;
      PlainWordNoRedirection(s, i, x);
    }
  }

  /** A word that was read back in front of the rest of its line, when nothing but its text stood there. */
  lemma {:induction false} FirstWordReads(s: string, i: nat, w: Written)
    requires w.Safe() && At(s, i, w.Text()) && EndsHere(s, i + |w.Text()|)
    ensures ReadWords(s, i) == InFront(Lexed(w.value, i + |w.Text()|), ReadWords(s, i + |w.Text()|))
  {
    assert w.Text() != "";
    WordExact(s, i, w);
    SafeNoRedirection(s, i, w);
  }

  lemma {:induction false} SafeLineReads(s: string, i: nat, items: seq<Written>, end: nat)
    requires items != [] && LineAt(s, i, items, end) && AllSafe(items) && end <= |s|
    requires ReadWords(s, end).Some? && ReadWords(s, end).value.words == []
    ensures ReadWords(s, i) == Some(Command(Values(items), end))
    decreases |items|
  {
    hide Written.Text, Written.Safe, ReadWords;
    FirstWordReads(s, i, items[0]);
    if |items| > 1 {
      var next := i + |items[0].Text()|;
      SafeLineReads(s, next + 1, items[1..], end);
      BlankSkipped(s, next);
    }
  }

  lemma {:induction false} BlankSkipped(s: string, i: nat)
    requires i < |s| && s[i] == ' '
    ensures ReadWords(s, i) == ReadWords(s, i + 1)
  {
  }

  /** If the words come back from exactly the place of the line, no blank was skipped in front of the first. */
  lemma {:induction false} NoBlankInFront(s: string, i: nat, items: seq<Written>, end: nat)
    requires items != [] && LineAt(s, i, items, end) && i <= |s|
    requires ReadWords(s, i) == Some(Command(Values(items), end))
    ensures i < |s| && ClassOf(s[i]) != Blank && !NoMoreWords(s, i)
  {
    WhiteOfLine(s, i, items, end);
    WhiteOfWords(s, i);
    if ClassOf(s[i]) == Blank {
      SkipsBetween(s, i + 1);
    }
  }

  lemma {:induction false} FirstWordSafe(s: string, i: nat, items: seq<Written>, end: nat)
    requires items != [] && LineAt(s, i, items, end) && i <= |s|
    requires ReadWords(s, i) == Some(Command(Values(items), end))
    ensures items[0].Safe()
  {
    hide Written.Text, Written.Safe, LexWord;
    NoBlankInFront(s, i, items, end);
    assert items[0].Text() != "";
    assert ReadWords(s, i).value.words[0] == LexWord(s, i, Bare).value.word;
    WordExact(s, i, items[0]);
  }

  lemma {:induction false} ReadLineIsSafe(s: string, i: nat, items: seq<Written>, end: nat)
    requires items != [] && LineAt(s, i, items, end) && i <= |s|
    requires ReadWords(s, i) == Some(Command(Values(items), end))
    ensures AllSafe(items)
    decreases |items|
  {
    hide Written.Text, Written.Safe, ReadWords;
    FirstWordSafe(s, i, items, end);
    if |items| > 1 {
      var next := i + |items[0].Text()|;
      FirstWordReads(s, i, items[0]);
      BlankSkipped(s, next);
      InFrontOnly(Lexed(items[0].value, next), ReadWords(s, next + 1), Values(items[1..]), end);
      ReadLineIsSafe(s, next + 1, items[1..], end);
    }
  }

  lemma {:induction false} InFrontOnly(l: Lexed, r: Option<Command>, words: seq<string>, end: nat)
    requires words != []
    ensures InFront(l, r) == Some(Command([l.word] + words, end)) <==> r == Some(Command(words, end))
  {
    if r.Some? {
      assert ([l.word] + r.value.words)[1..] == r.value.words;
      assert ([l.word] + words)[1..] == words;
    }
  }

  /**
   * A line of words, written in any of the three ways and followed by something that ends the command, is
   * read back word for word if and only if every word is safe for its way of writing.
   */
  lemma {:induction false} LineExact(s: string, i: nat, items: seq<Written>, end: nat)
    requires items != [] && LineAt(s, i, items, end) && i <= end <= |s|
    requires ReadWords(s, end).Some? && ReadWords(s, end).value.words == []
    ensures ReadWords(s, i) == Some(Command(Values(items), end)) <==> AllSafe(items)
  {
    if AllSafe(items) {
      SafeLineReads(s, i, items, end);
    } else if ReadWords(s, i) == Some(Command(Values(items), end)) {
      ReadLineIsSafe(s, i, items, end);
    }
  }

  lemma {:induction false} OneAt(s: string, i: nat, w: Written)
    requires At(s, i, w.Text()) && EndsHere(s, i + |w.Text()|)
    ensures LineAt(s, i, [w], i + |w.Text()|) && Values([w]) == [w.value] && (AllSafe([w]) <==> w.Safe())
  {
    hide Written.Text, Written.Safe, At;
  }

  lemma {:induction false} OneMoreAt(s: string, i: nat, w: Written, items: seq<Written>, end: nat)
    requires items != [] && At(s, i, w.Text()) && At(s, i + |w.Text()|, " ")
    requires LineAt(s, i + |w.Text()| + 1, items, end)
    ensures LineAt(s, i, [w] + items, end)
    ensures Values([w] + items) == [w.value] + Values(items) && (AllSafe([w] + items) <==> w.Safe() && AllSafe(items))
  {
    hide Written.Text, Written.Safe;
    assert ([w] + items)[1..] == items;
    AtTail(s, i + |w.Text()|, " ");
  }
}
