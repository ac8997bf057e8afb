/**
 * The three ways in which the generated texts write a word (as it is, through getProcessedArgs, and between
 * single-quotes), and when each of them is read back as the value it was written for.
 */
module ShellWords {
  import opened Wrappers
  import opened Strings
  import opened ShellLexer

  /** One turn of the loop in getProcessedArgs. */
  function ProcessedArg(arg: string): string {
    if arg == "" then "\"\""
    else if '=' in arg then
      var k := IndexOf(arg, '=');
      if k < |arg| then arg[..k] + ("=\"" + (arg[k + 1..] + "\"")) else arg
    else arg
  }

  /** Plain text, or plain text up to the first `=` and text that double-quotes preserve behind it. */
  predicate SafeArg(arg: string) {
    var k := IndexOf(arg, '=');
    AllPlain(arg[..k]) && (k < |arg| ==> DoubleSafe(arg[k + 1..]))
  }

  datatype Written = Raw(value: string) | Argument(value: string) | Quoted(value: string)
  {
    function Text(): string {
      match this
      case Raw(_) => value
      case Argument(_) => ProcessedArg(value)
      case Quoted(_) => "'" + (value + "'")
    }

    predicate Safe() {
      match this
      case Raw(_) => value != "" && AllPlain(value)
      case Argument(_) => SafeArg(value)
      case Quoted(_) => '\'' !in value
    }
  }

  lemma {:induction false} ArgSplit(arg: string)
    requires '=' in arg
    ensures var k := IndexOf(arg, '=');
            && k < |arg| && arg[k] == '='
            && arg == arg[..k] + ("=" + arg[k + 1..])
            && ProcessedArg(arg) == arg[..k] + ("=\"" + (arg[k + 1..] + "\""))
  {
    IndexFromIsFirst(arg, '=', 0);
  }

  lemma {:induction false} NoEquals(arg: string)
    requires '=' !in arg
    ensures IndexOf(arg, '=') == |arg| && (arg != "" ==> ProcessedArg(arg) == arg)
  {
    IndexFromIsFirst(arg, '=', 0);
  }

  // ----- Words from which little was removed -----

  /** With at most one character removed, a double-quote in the text must have been escaped. */
  lemma {:induction false} CheapBare(s: string, i: nat, p: nat)
    requires i <= p && i <= |s| && LexWord(s, i, Bare).Some? && Cost(s, i, Bare) <= 1
    requires p < LexWord(s, i, Bare).value.end && s[p] == '"'
    ensures i < p && s[p - 1] == '\\'
    decreases |s| - i
  {
    var move := NextMove(s, i, Bare);
    NeverLonger(s, i + move.used, move.next);
    if i + move.used <= p {
      CheapBare(s, i + move.used, p);
    }
  }

  /** Behind an opening quote, a word that loses only the closing quote does not begin with that quote. */
  lemma {:induction false} CheapQuotedStart(s: string, i: nat, m: Mode)
    requires m != Bare && i <= |s| && LexWord(s, i, m).Some? && Cost(s, i, m) <= 1
    ensures var word := LexWord(s, i, m).value.word;
            word != "" ==> word[0] != if m == Single then '\'' else '"'
  {
    var move := NextMove(s, i, m);
    NeverLonger(s, i + move.used, move.next);
    if move.next == Bare {
      FreeIsPlain(s, i + 1);
      PrependNothing(LexWord(s, i + 1, Bare));
    }
  }

  /** Between double-quotes, text that loses only the closing quote is safe, and the reader stops right behind it. */
  lemma {:induction false} CheapDouble(s: string, i: nat, v: string)
    requires At(s, i, v + "\"") && LexWord(s, i, Double).Some?
    requires LexWord(s, i, Double).value.word == v && Cost(s, i, Double) <= 1
    ensures DoubleSafe(v)
    decreases |v|
  {
    AtTail(s, i, v + "\"");
    if v != "" {
      CheapQuotedStart(s, i, Double);
      var move := NextMove(s, i, Double);
      NeverLonger(s, i + move.used, move.next);
      var v' := v[1..];
      assert v == [v[0]] + v' && (v + "\"")[1..] == v' + "\"";
      AtTail(s, i + 1, v' + "\"");
      assert v' != "" ==> (v' + "\"")[0] == v'[0];
      SamePrefix([v[0]], LexWord(s, i + 1, Double).value.word, v');
      CheapDouble(s, i + 1, v');
    }
  }

  // ----- Arguments with an equals sign -----

  /** The text that getProcessedArgs makes of the argument k=v. */
  function Pair(k: string, v: string): string {
    k + ("=\"" + (v + "\""))
  }

  lemma {:induction false} PairPlaces(s: string, i: nat, k: string, v: string)
    requires At(s, i, Pair(k, v))
    ensures var q := i + |k| + 1;
            && At(s, i, k) && s[q - 1] == '=' && s[q] == '"' && At(s, q + 1, v + "\"")
            && At(s, q + 1, v) && s[q + 1 + |v|] == '"' && i + |Pair(k, v)| == q + 2 + |v|
  {
    hide At;
    var q := i + |k| + 1;
    AtParts(s, i, k, "=\"" + (v + "\""));
    AtParts(s, i + |k|, "=\"", v + "\"");
    AtParts(s, q + 1, v, "\"");
    AtTail(s, q + 1 + |v|, "\"");
    AtTail(s, i + |k|, "=\"");
    AtTail(s, q, "=\""[1..]);
  }

  /**
   * A backslash at the start of the key is not read back: the opening quote behind the key would have to be
   * escaped.
   */
  lemma {:induction false} EscapedKey(s: string, i: nat, q: nat)
    requires i + 1 < q < |s| && s[i] == '\\' && s[q - 1] == '=' && s[q] == '"'
    requires LexWord(s, i, Bare).Some? && Cost(s, i, Bare) <= 2 && i + |LexWord(s, i, Bare).value.word| >= q
    ensures LexWord(s, i, Bare).value.word[0] != '\\'
  {
    var l := LexWord(s, i, Bare).value;
    assert NextMove(s, i, Bare) == Take([s[i + 1]], 2, Bare);
    assert s[i + 1] == l.word[0];
    if s[i + 1] == '\\' {
      NeverLonger(s, i + 2, Bare);
      CheapBare(s, i + 2, q);
    }
  }

  /** If the text of k=v is read back as k=v with only two characters removed, its key begins with a plain character. */
  lemma {:induction false} KeyStartsPlain(s: string, i: nat, k: string, v: string)
    requires k != "" && At(s, i, Pair(k, v)) && LexWord(s, i, Bare).Some? && Cost(s, i, Bare) <= 2
    requires LexWord(s, i, Bare).value.word == k + ("=" + v)
    ensures ClassOf(k[0]) == Plain
  {
    AtTail(s, i, Pair(k, v));
    var move := NextMove(s, i, Bare);
    var word := LexWord(s, i, Bare).value.word;
    assert word[0] == k[0] == s[i];
    match ClassOf(s[i])
    case SingleQuote =>
      PrependNothing(LexWord(s, i + 1, Single));
      CheapQuotedStart(s, i + 1, Single);
    case DoubleQuote =>
      PrependNothing(LexWord(s, i + 1, Double));
      CheapQuotedStart(s, i + 1, Double);
    case Backslash =>
      PairPlaces(s, i, k, v);
      EscapedKey(s, i, i + |k| + 1);
    case _ =>
  }

  lemma {:induction false} PairExact(s: string, i: nat, k: string, v: string)
    requires At(s, i, Pair(k, v)) && LexWord(s, i, Bare).Some? && Cost(s, i, Bare) <= 2
    requires LexWord(s, i, Bare).value.word == k + ("=" + v)
    ensures AllPlain(k) && DoubleSafe(v)
    decreases |k|
  {
    if k == "" {
      PairPlaces(s, i, k, v);
      BehindEquals(s, i);
      assert k + ("=" + v) == "=" + v;
      SamePrefix("=", LexWord(s, i + 2, Double).value.word, v);
      CheapDouble(s, i + 2, v);
    } else {
      AtTail(s, i, Pair(k, v));
      KeyStartsPlain(s, i, k, v);
      var k' := k[1..];
      assert k == [k[0]] + k' && Pair(k, v)[0] == k[0] && Pair(k, v)[1..] == Pair(k', v);
      assert k + ("=" + v) == [k[0]] + (k' + ("=" + v));
      SamePrefix([k[0]], LexWord(s, i + 1, Bare).value.word, k' + ("=" + v));
      PairExact(s, i + 1, k', v);
    }
  }

  lemma {:induction false} BehindEquals(s: string, i: nat)
    requires i + 1 < |s| && s[i] == '=' && s[i + 1] == '"'
    ensures LexWord(s, i, Bare) == Prepend("=", LexWord(s, i + 2, Double))
  {
    PrependNothing(LexWord(s, i + 2, Double));
  }

  lemma {:induction false} ThreePieces(k: string, v: string, end: nat)
    ensures Prepend(k, Prepend("=", Prepend(v, Some(Lexed("", end))))) == Some(Lexed(k + ("=" + v), end))
  {
    assert v + "" == v;
  }

  lemma {:induction false} PiecesRead(s: string, i: nat, k: string, v: string)
    requires At(s, i, k) && AllPlain(k) && DoubleSafe(v)
    requires var q := i + |k|; q + 1 < |s| && s[q] == '=' && s[q + 1] == '"' && At(s, q + 2, v)
    requires var end := i + |k| + |v| + 3; EndsHere(s, end) && s[end - 1] == '"'
    ensures LexWord(s, i, Bare) == Some(Lexed(k + ("=" + v), i + |k| + |v| + 3))
  {
    hide At, AllPlain, DoubleSafe;
    var q := i + |k|;
    var end := q + |v| + 3;
    PlainReads(s, i, k);
    BehindEquals(s, q);
    DoubleReads(s, q + 2, v);
    assert LexWord(s, end, Bare) == Some(Lexed("", end));
    ThreePieces(k, v, end);
  }

  lemma {:induction false} PairReads(s: string, i: nat, k: string, v: string)
    requires At(s, i, Pair(k, v)) && AllPlain(k) && DoubleSafe(v) && EndsHere(s, i + |Pair(k, v)|)
    ensures LexWord(s, i, Bare) == Some(Lexed(k + ("=" + v), i + |Pair(k, v)|))
  {
    PairPlaces(s, i, k, v);
    PiecesRead(s, i, k, v);
  }

  // ----- Every way of writing, exactly -----

  lemma {:induction false} SameWhite(w: Written)
    ensures WhiteIn(w.Text()) == WhiteIn(w.value)
  {
    match w
    case Raw(_) =>
    case Argument(x) =>
      if x == "" {
        WhiteOne('"');
        WhiteConcat("\"", "\"");
        assert "\"\"" == "\"" + "\"";
      } else if '=' in x {
        ArgSplit(x);
        var k := IndexOf(x, '=');
        WhitePair(x[..k], x[k + 1..]);
      } else {
        NoEquals(x);
      }
    case Quoted(v) =>
      WhiteOne('\'');
      WhiteConcat(v, "'");
      WhiteConcat("'", v + "'");
  }

  lemma {:induction false} WhitePair(k: string, v: string)
    ensures WhiteIn(Pair(k, v)) == WhiteIn(k + ("=" + v))
  {
    WhiteOne('=');
    WhiteOne('"');
    WhiteConcat(k, "=" + v);
    WhiteConcat("=", v);
    WhiteConcat(k, "=\"" + (v + "\""));
    WhiteConcat("=\"", v + "\"");
    WhiteConcat(v, "\"");
    WhiteConcat("=", "\"");
    assert "=\"" == "=" + "\"";
  }

  /** What is read back at the place of the text. */
  predicate ReadsBack(s: string, i: nat, w: Written)
    requires i <= |s|
  {
    LexWord(s, i, Bare).Some? && LexWord(s, i, Bare).value.word == w.value
  }

  lemma {:induction false} RawExact(s: string, i: nat, x: string)
    requires x != "" && At(s, i, x) && EndsHere(s, i + |x|)
    ensures ReadsBack(s, i, Raw(x)) <==> AllPlain(x)
    ensures AllPlain(x) ==> LexWord(s, i, Bare) == Some(Lexed(x, i + |x|))
  {
    if AllPlain(x) {
      PlainReads(s, i, x);
      assert LexWord(s, i + |x|, Bare) == Some(Lexed("", i + |x|));
      assert x + "" == x;
    } else if ReadsBack(s, i, Raw(x)) {
      EndsInside(s, i, Bare, x);
      NeverLonger(s, i, Bare);
      FreeIsPlain(s, i);
    }
  }

  lemma {:induction false} QuotedExact(s: string, i: nat, v: string)
    requires At(s, i, "'" + (v + "'")) && EndsHere(s, i + |v| + 2)
    ensures ReadsBack(s, i, Quoted(v)) <==> '\'' !in v
    ensures '\'' !in v ==> LexWord(s, i, Bare) == Some(Lexed(v, i + |v| + 2))
  {
    AtTail(s, i, "'" + (v + "'"));
    assert ("'" + (v + "'"))[1..] == v + "'";
    SingleQuoteExact(s, i + 1, v);
    PrependNothing(LexWord(s, i + 1, Single));
  }

  lemma {:induction false} PairReadsBack(s: string, i: nat, k: string, v: string)
    requires At(s, i, Pair(k, v)) && EndsHere(s, i + |Pair(k, v)|)
    ensures var r := LexWord(s, i, Bare);
            && (r.Some? && r.value.word == k + ("=" + v) <==> AllPlain(k) && DoubleSafe(v))
            && (AllPlain(k) && DoubleSafe(v) ==> r == Some(Lexed(k + ("=" + v), i + |Pair(k, v)|)))
  {
    var r := LexWord(s, i, Bare);
    if AllPlain(k) && DoubleSafe(v) {
      PairReads(s, i, k, v);
    } else if r.Some? && r.value.word == k + ("=" + v) {
      WhitePair(k, v);
      EndsInside(s, i, Bare, Pair(k, v));
      PairExact(s, i, k, v);
    }
  }

  lemma {:induction false} EmptyReads(s: string, i: nat)
    requires At(s, i, "\"\"") && EndsHere(s, i + 2)
    ensures LexWord(s, i, Bare) == Some(Lexed("", i + 2))
  {
    AtTail(s, i, "\"\"");
    AtTail(s, i + 1, "\"\""[1..]);
    PrependNothing(LexWord(s, i + 1, Double));
    PrependNothing(LexWord(s, i + 2, Bare));
    assert LexWord(s, i + 2, Bare) == Some(Lexed("", i + 2));
  }

  lemma {:induction false} PairArgumentExact(s: string, i: nat, x: string)
    requires '=' in x && At(s, i, ProcessedArg(x)) && EndsHere(s, i + |ProcessedArg(x)|)
    ensures ReadsBack(s, i, Argument(x)) <==> SafeArg(x)
    ensures SafeArg(x) ==> LexWord(s, i, Bare) == Some(Lexed(x, i + |ProcessedArg(x)|))
  {
    hide LexWord, At, EndsHere, AllPlain, DoubleSafe;
    ArgSplit(x);
    PairReadsBack(s, i, x[..IndexOf(x, '=')], x[IndexOf(x, '=') + 1..]);
  }

  lemma {:induction false} ArgumentExact(s: string, i: nat, x: string)
    requires At(s, i, ProcessedArg(x)) && EndsHere(s, i + |ProcessedArg(x)|)
    ensures ReadsBack(s, i, Argument(x)) <==> SafeArg(x)
    ensures SafeArg(x) ==> LexWord(s, i, Bare) == Some(Lexed(x, i + |ProcessedArg(x)|))
  {
    if x == "" {
      EmptyReads(s, i);
    } else if '=' in x {
      PairArgumentExact(s, i, x);
    } else {
      NoEquals(x);
      RawExact(s, i, x);
      assert x[..|x|] == x;
    }
  }

  /**
   * However a word is written, it is read back at its place if and only if it is safe for that way of
   * writing, and the reader then stops exactly behind it.
   */
  lemma {:induction false} WordExact(s: string, i: nat, w: Written)
    requires w.Text() != "" && At(s, i, w.Text()) && EndsHere(s, i + |w.Text()|)
    ensures ReadsBack(s, i, w) <==> w.Safe()
    ensures w.Safe() ==> LexWord(s, i, Bare) == Some(Lexed(w.value, i + |w.Text()|))
  {
    match w
    case Raw(x) => RawExact(s, i, x);
    case Argument(x) => ArgumentExact(s, i, x);
    case Quoted(v) => QuotedExact(s, i, v);
  }
}
