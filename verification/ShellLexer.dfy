/**
 * The part of shell token recognition that the generated texts use: IEEE Std 1003.1-2017, Shell Command
 * Language, sections 2.2.1 to 2.2.3 (escape character, single-quotes, double-quotes) and 2.3 (token
 * recognition). Expansions, comments inside a line and line continuations are outside the subset and make
 * the reader give up.
 */
module ShellLexer {
  import opened Wrappers
  import opened Strings

  datatype Class = Blank | Operator | SingleQuote | DoubleQuote | Backslash | Expansion | Plain

  /** What a character does outside quotes. */
  function ClassOf(c: char): Class {
    if c == ' ' || c == '\t' then Blank
    else if c == '\n' || c == '&' || c == '|' || c == ';' || c == '<' || c == '>' || c == '(' || c == ')' then Operator
    else if c == '\'' then SingleQuote
    else if c == '"' then DoubleQuote
    else if c == '\\' then Backslash
    else if c == '$' || c == '`' || c == '*' || c == '?' || c == '[' || c == '#' || c == '~' || c == '{' then Expansion
    else Plain
  }

  predicate IsDelimiter(c: char) {
    ClassOf(c) == Blank || ClassOf(c) == Operator
  }

  predicate AllPlain(s: string) {
    forall i :: 0 <= i < |s| ==> ClassOf(s[i]) == Plain
  }

  /** The characters that a backslash escapes inside double-quotes. */
  predicate Escapable(c: char) {
    c == '$' || c == '`' || c == '"' || c == '\\'
  }

  datatype Mode = Bare | Single | Double

  /** A word after quote removal, and the position behind it. */
  datatype Lexed = Lexed(word: string, end: nat)

  function Prepend(w: string, r: Option<Lexed>): Option<Lexed> {
    match r
    case None => None
    case Some(l) => Some(Lexed(w + l.word, l.end))
  }

  /** What the next character does: end the word, leave the subset, or use up some input and put out some text. */
  datatype Move = Stop | GiveUp | Take(out: string, used: nat, next: Mode)

  function BareMove(s: string, i: nat): Move
    requires i < |s|
  {
    match ClassOf(s[i])
    case Blank => Stop
    case Operator => Stop
    case SingleQuote => Take("", 1, Single)
    case DoubleQuote => Take("", 1, Double)
    case Backslash => if i + 1 == |s| || s[i + 1] == '\n' then GiveUp else Take([s[i + 1]], 2, Bare)
    case Expansion => GiveUp
    case Plain => Take([s[i]], 1, Bare)
  }

  function DoubleMove(s: string, i: nat): Move
    requires i < |s|
  {
    if s[i] == '"' then Take("", 1, Bare)
    else if s[i] == '$' || s[i] == '`' then GiveUp
    else if s[i] == '\\' then
      if i + 1 == |s| || s[i + 1] == '\n' then GiveUp
      else if Escapable(s[i + 1]) then Take([s[i + 1]], 2, Double)
      else Take([s[i]], 1, Double)
    else Take([s[i]], 1, Double)
  }

  function NextMove(s: string, i: nat, m: Mode): (move: Move)
    requires i <= |s|
    ensures move.Take? ==> 1 <= move.used <= 2 && i + move.used <= |s| && |move.out| <= 1
    ensures move.Stop? ==> m == Bare && (i == |s| || IsDelimiter(s[i]))
    ensures m == Bare && i < |s| && IsDelimiter(s[i]) ==> move.Stop?
  {
    if i == |s| then if m == Bare then Stop else GiveUp
    else
      match m
      case Bare => BareMove(s, i)
      case Single => if s[i] == '\'' then Take("", 1, Bare) else Take([s[i]], 1, Single)
      case Double => DoubleMove(s, i)
  }

  /** Reads from position i to the end of the current word; None if a quote stays open or the text leaves the subset. */
  function LexWord(s: string, i: nat, m: Mode): (r: Option<Lexed>)
    requires i <= |s|
    ensures r.Some? ==> i <= r.value.end <= |s|
    ensures r.Some? && i < |s| && !(m == Bare && IsDelimiter(s[i])) ==> i < r.value.end
    decreases |s| - i
  {
    match NextMove(s, i, m)
    case Stop => Some(Lexed("", i))
    case GiveUp => None
    case Take(out, used, next) => Prepend(out, LexWord(s, i + used, next))
  }

  /** How many characters quote removal took out of the word. */
  function Cost(s: string, i: nat, m: Mode): int
    requires i <= |s| && LexWord(s, i, m).Some?
  {
    LexWord(s, i, m).value.end - i - |LexWord(s, i, m).value.word|
  }

  // ----- What quote removal does -----

  /** It only removes, and from a quoted word at least the closing quote. */
  lemma {:induction false} NeverLonger(s: string, i: nat, m: Mode)
    requires i <= |s| && LexWord(s, i, m).Some?
    ensures Cost(s, i, m) >= if m == Bare then 0 else 1
    decreases |s| - i
  {
    var move := NextMove(s, i, m);
    if move.Take? {
      NeverLonger(s, i + move.used, move.next);
    }
  }

  lemma {:induction false} WordEndsAtDelimiter(s: string, i: nat, m: Mode)
    requires i <= |s| && LexWord(s, i, m).Some?
    ensures var end := LexWord(s, i, m).value.end; end == |s| || IsDelimiter(s[end])
    decreases |s| - i
  {
    var move := NextMove(s, i, m);
    if move.Take? {
      WordEndsAtDelimiter(s, i + move.used, move.next);
    }
  }

  /** A bare move that removes nothing is a plain character. */
  lemma {:induction false} FreeMoveIsPlain(s: string, i: nat)
    requires i <= |s| && NextMove(s, i, Bare).Take? && LexWord(s, i, Bare).Some? && Cost(s, i, Bare) == 0
    ensures ClassOf(s[i]) == Plain && NextMove(s, i, Bare) == Take([s[i]], 1, Bare)
    ensures LexWord(s, i + 1, Bare).Some? && Cost(s, i + 1, Bare) == 0
    ensures LexWord(s, i, Bare) == Prepend([s[i]], LexWord(s, i + 1, Bare))
  {
    var move := NextMove(s, i, Bare);
    NeverLonger(s, i + move.used, move.next);
  }

  /** A word from which nothing was removed was written in plain characters. */
  lemma {:induction false} FreeIsPlain(s: string, i: nat)
    requires i <= |s| && LexWord(s, i, Bare).Some? && Cost(s, i, Bare) == 0
    ensures AllPlain(LexWord(s, i, Bare).value.word)
    decreases |s| - i
  {
    if NextMove(s, i, Bare).Take? {
      FreeMoveIsPlain(s, i);
      FreeIsPlain(s, i + 1);
    }
  }

  /** White characters are never removed: the word has as many as the text it was read from. */
  lemma {:induction false} WhiteSurvives(s: string, i: nat, m: Mode)
    requires i <= |s| && LexWord(s, i, m).Some?
    ensures WhiteIn(LexWord(s, i, m).value.word) == White(s, i, LexWord(s, i, m).value.end)
    decreases |s| - i
  {
    var move := NextMove(s, i, m);
    if move.Take? {
      var rest := LexWord(s, i + move.used, move.next).value;
      WhiteSurvives(s, i + move.used, move.next);
      WhiteSplit(s, i, i + move.used, rest.end);
      WhiteConcat(move.out, rest.word);
      WhiteOfMove(s, i, m);
    }
  }

  lemma {:induction false} WhiteOfMove(s: string, i: nat, m: Mode)
    requires i <= |s| && NextMove(s, i, m).Take?
    ensures White(s, i, i + NextMove(s, i, m).used) == WhiteIn(NextMove(s, i, m).out)
  {
    var move := NextMove(s, i, m);
    assert White(s, i + 1, i + 1) == 0;
    assert move.used == 2 ==> White(s, i + 2, i + 2) == 0;
    if move.out != "" {
      WhiteOne(move.out[0]);
      assert move.out == [move.out[0]];
    }
  }

  // ----- Reading back what was written -----

  lemma {:induction false} PrependTwice(a: string, b: string, r: Option<Lexed>)
    ensures Prepend(a, Prepend(b, r)) == Prepend(a + b, r)
  {
    if r.Some? {
      assert a + (b + r.value.word) == a + b + r.value.word;
    }
  }

  lemma {:induction false} PrependNothing(r: Option<Lexed>)
    ensures Prepend("", r) == r
  {
    if r.Some? {
      assert "" + r.value.word == r.value.word;
    }
  }

  lemma {:induction false} PlainReads(s: string, i: nat, p: string)
    requires At(s, i, p) && AllPlain(p)
    ensures LexWord(s, i, Bare) == Prepend(p, LexWord(s, i + |p|, Bare))
    decreases |p|
  {
    if p == "" {
      PrependNothing(LexWord(s, i, Bare));
    } else {
      AtTail(s, i, p);
      PlainReads(s, i + 1, p[1..]);
      PrependTwice([p[0]], p[1..], LexWord(s, i + |p|, Bare));
    }
  }

  lemma {:induction false} SingleReads(s: string, i: nat, v: string)
    requires At(s, i, v) && '\'' !in v && i + |v| < |s| && s[i + |v|] == '\''
    ensures LexWord(s, i, Single) == Prepend(v, LexWord(s, i + |v| + 1, Bare))
    decreases |v|
  {
    if v != "" {
      AtTail(s, i, v);
      SingleReads(s, i + 1, v[1..]);
      PrependTwice([v[0]], v[1..], LexWord(s, i + |v| + 1, Bare));
    }
  }

  /**
   * Text that keeps its value between double-quotes: nothing expands, and no backslash meets an escapable
   * character, a newline or the end.
   */
  predicate DoubleSafe(v: string) {
    if v == "" then true
    else if v[0] == '"' || v[0] == '$' || v[0] == '`' then false
    else if v[0] == '\\' then |v| >= 2 && v[1] != '\n' && !Escapable(v[1]) && DoubleSafe(v[1..])
    else DoubleSafe(v[1..])
  }

  lemma {:induction false} DoubleReads(s: string, i: nat, v: string)
    requires At(s, i, v) && DoubleSafe(v) && i + |v| < |s| && s[i + |v|] == '"'
    ensures LexWord(s, i, Double) == Prepend(v, LexWord(s, i + |v| + 1, Bare))
    decreases |v|
  {
    if v != "" {
      AtTail(s, i, v);
      if |v| >= 2 { AtTail(s, i + 1, v[1..]); }
      DoubleReads(s, i + 1, v[1..]);
      PrependTwice([v[0]], v[1..], LexWord(s, i + |v| + 1, Bare));
    }
  }

  // ----- When single-quoting is faithful, exactly -----

  /** Behind position i there is only white space or the end. */
  predicate EndsHere(s: string, i: nat) {
    i == |s| || (i < |s| && IsWhite(s[i]))
  }

  /** A word that has no more white space than the text that ends here has not gone beyond that text. */
  lemma {:induction false} EndsInside(s: string, i: nat, m: Mode, t: string)
    requires At(s, i, t) && EndsHere(s, i + |t|) && LexWord(s, i, m).Some?
    requires WhiteIn(LexWord(s, i, m).value.word) <= WhiteIn(t)
    ensures LexWord(s, i, m).value.end <= i + |t|
  {
    var end := LexWord(s, i, m).value.end;
    if end > i + |t| {
      WhiteSurvives(s, i, m);
      WhiteSplit(s, i, i + |t|, end);
      WhiteAt(s, i, t);
    }
  }

  /** The text behind an inner quote cannot come back: that quote and the closing one are both lost. */
  lemma {:induction false} InnerQuoteLost(s: string, i: nat, b: string)
    requires At(s, i, b + "'") && EndsHere(s, i + |b| + 1) && LexWord(s, i, Bare).Some?
    ensures LexWord(s, i, Bare).value.word != "'" + b
  {
    var l := LexWord(s, i, Bare).value;
    if l.word == "'" + b {
      WhiteConcat("'", b);
      WhiteConcat(b, "'");
      EndsInside(s, i, Bare, b + "'");
      NeverLonger(s, i, Bare);
      FreeIsPlain(s, i);
    }
  }

  lemma {:induction false} QuotedTextLost(s: string, i: nat, v: string)
    requires At(s, i, v + "'") && '\'' in v && EndsHere(s, i + |v| + 1) && LexWord(s, i, Single).Some?
    ensures LexWord(s, i, Single).value.word != v
    decreases |v|
  {
    AtTail(s, i, v + "'");
    assert (v + "'")[1..] == v[1..] + "'" && v == [v[0]] + v[1..];
    if v[0] == '\'' {
      PrependNothing(LexWord(s, i + 1, Bare));
      InnerQuoteLost(s, i + 1, v[1..]);
    } else {
      QuotedTextLost(s, i + 1, v[1..]);
      SamePrefix([v[0]], LexWord(s, i + 1, Single).value.word, v[1..]);
    }
  }

  /**
   * Behind an opening single quote, a text and the closing quote read as that text if and only if it has no
   * single quote.
   */
  lemma {:induction false} SingleQuoteExact(s: string, i: nat, v: string)
    requires At(s, i, v + "'") && EndsHere(s, i + |v| + 1)
    ensures var r := LexWord(s, i, Single);
            && (r.Some? && r.value.word == v <==> '\'' !in v)
            && ('\'' !in v ==> r == Some(Lexed(v, i + |v| + 1)))
  {
    if '\'' !in v {
      AtParts(s, i, v, "'");
      AtTail(s, i + |v|, "'");
      SingleReads(s, i, v);
      assert LexWord(s, i + |v| + 1, Bare) == Some(Lexed("", i + |v| + 1));
      assert v + "" == v;
    } else if LexWord(s, i, Single).Some? {
      QuotedTextLost(s, i, v);
    }
  }
}
