/** The env file of a task: how writeEnvFile prints it, and what a shell that sources it gets back. */
module EnvFile {
  import opened Wrappers
  import opened Strings
  import opened ShellLexer
  import opened ShellWords
  import opened ShellCommands

  const HEADER := "#!/bin/bash\n"

  // ----- The printer -----

  /** One turn of the loop in getProcessedEnvs. */
  function ProcessedEnv(env: string): string {
    var k := IndexOf(env, '=');
    if k < |env| then "export " + (env[..k] + ("='" + (env[k + 1..] + "'"))) else "export " + env
  }

  function ProcessedEnvs(envs: seq<string>): (r: seq<string>)
    ensures |r| == |envs| && forall k :: 0 <= k < |envs| ==> r[k] == ProcessedEnv(envs[k])
  {
    if envs == [] then [] else [ProcessedEnv(envs[0])] + ProcessedEnvs(envs[1..])
  }

  /** getProcessedEnvs, which fills a slice of the same length. */
  method GetProcessedEnvs(envs: seq<string>) returns (processed: array<string>)
    ensures fresh(processed) && processed[..] == ProcessedEnvs(envs)
  {
    processed := new string[|envs|](_ => "");
    for i := 0 to |envs|
      invariant forall k :: 0 <= k < i ==> processed[k] == ProcessedEnv(envs[k])
    {
      var firstEqualIndex := IndexOf(envs[i], '=');
      if firstEqualIndex < |envs[i]| {
        processed[i] := "export " + (envs[i][..firstEqualIndex] + ("='" + (envs[i][firstEqualIndex + 1..] + "'")));
      } else {
        processed[i] := "export " + envs[i];
      }
    }
  }

  /** What writeEnvFile writes. */
  function EnvText(envs: seq<string>): string {
    HEADER + Join(ProcessedEnvs(envs), "\n")
  }

  // ----- The reader -----

  /** An operand that `export` accepts: a name, or a name and a value. */
  predicate Exportable(word: string) {
    IsName(word[..IndexOf(word, '=')])
  }

  function AndThen(word: string, rest: Option<seq<string>>): Option<seq<string>> {
    match rest
    case None => None
    case Some(words) => Some([word] + words)
  }

  /** The operands of a text that consists of `export` commands with one operand each, one a line. */
  function ReadExports(s: string, i: nat): Option<seq<string>>
    requires i <= |s|
    decreases |s| - i
  {
    if i == |s| then Some([])
    else
      match ReadWords(s, i)
      case None => None
      case Some(c) =>
        if |c.words| != 2 || c.words[0] != "export" || !Exportable(c.words[1]) then None
        else if c.end == |s| then Some([c.words[1]])
        else if s[c.end] == '\n' then AndThen(c.words[1], ReadExports(s, c.end + 1))
        else None
  }

  /** Sourcing a file: its first line is a comment. */
  function Source(text: string): Option<seq<string>> {
    var k := IndexOf(text, '\n');
    if text == "" || text[0] != '#' then ReadExports(text, 0)
    else if k == |text| then Some([])
    else ReadExports(text, k + 1)
  }

  // ----- One line -----

  /** An entry that survives: a proper name, and no single quote in the value. */
  predicate SafeEnv(env: string) {
    Exportable(env) && '\'' !in env
  }

  predicate EndsLine(s: string, i: nat) {
    i == |s| || (i < |s| && s[i] == '\n')
  }

  lemma {:induction false} AssignedPlaces(s: string, i: nat, name: string, value: string)
    requires At(s, i, name + ("='" + (value + "'")))
    ensures var q := i + |name|;
            && At(s, i, name) && q + 1 < |s| && s[q] == '=' && s[q + 1] == '\'' && At(s, q + 2, value + "'")
  {
    var q := i + |name|;
    AtParts(s, i, name, "='" + (value + "'"));
    AtParts(s, q, "='", value + "'");
    AtTail(s, q, "='");
    AtTail(s, q + 1, "='"[1..]);
  }

  lemma {:induction false} AssignedValue(s: string, q: nat)
    requires q + 1 < |s| && s[q] == '=' && s[q + 1] == '\''
    ensures LexWord(s, q, Bare) == Prepend("=", LexWord(s, q + 2, Single))
  {
    PrependNothing(LexWord(s, q + 2, Single));
  }

  /** `name='value'` is read back as name=value if and only if the value has no single quote. */
  lemma {:induction false} AssignedExact(s: string, i: nat, name: string, value: string)
    requires IsName(name) && At(s, i, name + ("='" + (value + "'")))
    requires EndsHere(s, i + |name| + |value| + 3)
    ensures var r := LexWord(s, i, Bare);
            && (r.Some? && r.value.word == name + ("=" + value) <==> '\'' !in value)
            && ('\'' !in value ==> r == Some(Lexed(name + ("=" + value), i + |name| + |value| + 3)))
  {
    hide LexWord, IsName;
    var q := i + |name|;
    NameIsPlain(name);
    AssignedPlaces(s, i, name, value);
    PlainReads(s, i, name);
    AssignedValue(s, q);
    SingleQuoteExact(s, q + 2, value);
    var inner := LexWord(s, q + 2, Single);
    PrependTwice(name, "=", inner);
    assert name + ("=" + value) == name + "=" + value;
    if inner.Some? {
      SamePrefix(name + "=", inner.value.word, value);
    }
  }

  lemma {:induction false} EnvSplit(env: string)
    requires '=' in env
    ensures var k := IndexOf(env, '=');
            && k < |env| && env == env[..k] + ("=" + env[k + 1..])
            && ProcessedEnv(env) == "export " + (env[..k] + ("='" + (env[k + 1..] + "'")))
            && ('\'' in env <==> '\'' in env[..k] || '\'' in env[k + 1..])
  {
    IndexFromIsFirst(env, '=', 0);
    var k := IndexOf(env, '=');
    assert env[k] == '=';
    assert env == env[..k] + ("=" + env[k + 1..]);
  }

  lemma {:induction false} EnvWithoutValue(env: string)
    requires '=' !in env
    ensures IndexOf(env, '=') == |env| && ProcessedEnv(env) == "export " + env && env[..|env|] == env
  {
    IndexFromIsFirst(env, '=', 0);
  }

  /** The operand of an exported entry, at its place. */
  lemma {:induction false} OperandExact(s: string, i: nat, env: string)
    requires Exportable(env) && At(s, i, ProcessedEnv(env)) && EndsHere(s, i + |ProcessedEnv(env)|)
    ensures var r := LexWord(s, i + 7, Bare);
            && (r.Some? && r.value.word == env <==> '\'' !in env)
            && ('\'' !in env ==> r == Some(Lexed(env, i + |ProcessedEnv(env)|)))
    ensures At(s, i, "export ") && At(s, i + 7, env[..IndexOf(env, '=')])
  {
    hide LexWord, IsName, At, EndsHere, ProcessedEnv, IndexOf;
    if '=' in env {
      EnvSplit(env);
      var k := IndexOf(env, '=');
      AssignedOperand(s, i, env[..k], env[k + 1..]);
    } else {
      EnvWithoutValue(env);
      BareOperand(s, i, env);
    }
  }

  lemma {:induction false} AssignedOperand(s: string, i: nat, name: string, value: string)
    requires IsName(name) && At(s, i, "export " + (name + ("='" + (value + "'"))))
    requires EndsHere(s, i + |"export " + (name + ("='" + (value + "'")))|)
    ensures At(s, i, "export ") && At(s, i + 7, name)
    ensures |name| + |value| + 10 == |"export " + (name + ("='" + (value + "'")))|
    ensures var r := LexWord(s, i + 7, Bare);
            && (r.Some? && r.value.word == name + ("=" + value) <==> '\'' !in name + ("=" + value))
            && ('\'' !in name + ("=" + value) ==> r == Some(Lexed(name + ("=" + value), i + |name| + |value| + 10)))
  {
    hide LexWord, At, EndsHere, AllPlain;
    NameIsPlain(name);
    AtParts(s, i, "export ", name + ("='" + (value + "'")));
    AssignedPlaces(s, i + 7, name, value);
    AssignedExact(s, i + 7, name, value);
  }

  lemma {:induction false} BareOperand(s: string, i: nat, name: string)
    requires IsName(name) && At(s, i, "export " + name) && EndsHere(s, i + |"export " + name|)
    ensures At(s, i, "export ") && At(s, i + 7, name) && '\'' !in name
    ensures LexWord(s, i + 7, Bare) == Some(Lexed(name, i + |"export " + name|))
  {
    hide LexWord, At, EndsHere;
    NameIsPlain(name);
    AtParts(s, i, "export ", name);
    RawExact(s, i + 7, name);
  }

  lemma {:induction false} ExportReads(s: string, i: nat)
    requires At(s, i, "export ")
    ensures ReadWords(s, i) == InFront(Lexed("export", i + 6), ReadWords(s, i + 7))
  {
    AtParts(s, i, "export", " ");
    AtTail(s, i + 6, " ");
    FirstWordReads(s, i, Raw("export"));
    BlankSkipped(s, i + 6);
  }

  lemma {:induction false} NameStartsWord(s: string, i: nat, name: string)
    requires IsName(name) && At(s, i, name)
    ensures i < |s| && !NoMoreWords(s, i) && ClassOf(s[i]) != Blank
  {
    AtTail(s, i, name);
    NameIsPlain(name);
  }

  /** An entry's line is read as `export` and the entry if and only if the value has no single quote. */
  lemma {:induction false} EntryExact(s: string, i: nat, env: string)
    requires Exportable(env) && At(s, i, ProcessedEnv(env)) && EndsLine(s, i + |ProcessedEnv(env)|)
    ensures var r := ReadWords(s, i);
            && (r.Some? && r.value.words == ["export", env] <==> '\'' !in env)
            && ('\'' !in env ==> r == Some(Command(["export", env], i + |ProcessedEnv(env)|)))
  {
    hide LexWord, IsName, ProcessedEnv;
    OperandExact(s, i, env);
    ExportReads(s, i);
    NameStartsWord(s, i + 7, env[..IndexOf(env, '=')]);
    var r := LexWord(s, i + 7, Bare);
    if r.Some? {
      TwoWords("export", r.value, i + 6, ReadWords(s, r.value.end), env);
    }
  }

  lemma {:induction false} TwoWords(first: string, l: Lexed, end: nat, rest: Option<Command>, word: string)
    ensures var r := InFront(Lexed(first, end), InFront(l, rest));
            && (r.Some? && r.value.words == [first, word] ==> l.word == word)
            && (rest.Some? && rest.value.words == [] ==> r == Some(Command([first, l.word], l.end)))
  {
    assert [l.word] + [] == [l.word] && [first] + [l.word] == [first, l.word];
    if rest.Some? {
      assert ([first] + ([l.word] + rest.value.words))[1] == l.word;
    }
  }

  // ----- The whole file -----

  predicate AllSafeEnvs(envs: seq<string>) {
    forall k :: 0 <= k < |envs| ==> SafeEnv(envs[k])
  }

  /** The entries stand in s one newline apart, from position i to the end. */
  predicate EntriesAt(s: string, i: nat, envs: seq<string>)
    requires envs != []
    decreases |envs|
  {
    var next := i + |ProcessedEnv(envs[0])|;
    && At(s, i, ProcessedEnv(envs[0]))
    && if |envs| == 1 then next == |s| else next < |s| && s[next] == '\n' && EntriesAt(s, next + 1, envs[1..])
  }

  lemma {:induction false} EntriesAreAt(s: string, i: nat, envs: seq<string>)
    requires envs != [] && At(s, i, Join(ProcessedEnvs(envs), "\n")) && i + |Join(ProcessedEnvs(envs), "\n")| == |s|
    ensures EntriesAt(s, i, envs)
    decreases |envs|
  {
    hide ProcessedEnv;
    if |envs| > 1 {
      var first, rest := ProcessedEnv(envs[0]), Join(ProcessedEnvs(envs[1..]), "\n");
      assert ProcessedEnvs(envs)[1..] == ProcessedEnvs(envs[1..]);
      assert first + "\n" + rest == first + ("\n" + rest);
      AtParts(s, i, first, "\n" + rest);
      AtTail(s, i + |first|, "\n" + rest);
      assert ("\n" + rest)[1..] == rest;
      EntriesAreAt(s, i + |first| + 1, envs[1..]);
    }
  }

  lemma {:induction false} AndThenOnly(word: string, rest: Option<seq<string>>, words: seq<string>)
    ensures AndThen(word, rest) == Some([word] + words) <==> rest == Some(words)
  {
    if rest.Some? {
      assert ([word] + rest.value)[1..] == rest.value && ([word] + words)[1..] == words;
    }
  }

  lemma {:induction false} SafeEnvsSplit(envs: seq<string>)
    requires envs != []
    ensures AllSafeEnvs(envs) <==> SafeEnv(envs[0]) && AllSafeEnvs(envs[1..])
  {
    assert forall k :: 1 <= k < |envs| ==> envs[k] == envs[1..][k - 1];
  }

  lemma {:induction false} FirstExport(s: string, i: nat, env: string, rest: seq<string>)
    requires i < |s| && ReadExports(s, i) == Some([env] + rest)
    ensures Exportable(env) && ReadWords(s, i).Some? && ReadWords(s, i).value.words == ["export", env]
  {
    var words := ReadWords(s, i).value.words;
    assert ([env] + rest)[0] == env;
    assert words == [words[0], words[1]];
  }

  lemma {:induction false} EntriesExact(s: string, i: nat, envs: seq<string>)
    requires envs != [] && i <= |s| && EntriesAt(s, i, envs)
    ensures ReadExports(s, i) == Some(envs) <==> AllSafeEnvs(envs)
    decreases |envs|
  {
    hide ProcessedEnv, Exportable, ReadWords, AllSafeEnvs;
    var next := i + |ProcessedEnv(envs[0])|;
    assert envs == [envs[0]] + envs[1..];
    SafeEnvsSplit(envs);
    EntryNotEmpty(envs[0]);
    AtTail(s, i, ProcessedEnv(envs[0]));
    if ReadExports(s, i) == Some(envs) {
      FirstExport(s, i, envs[0], envs[1..]);
    }
    if Exportable(envs[0]) {
      EntryExact(s, i, envs[0]);
      if |envs| > 1 {
        EntriesExact(s, next + 1, envs[1..]);
        AndThenOnly(envs[0], ReadExports(s, next + 1), envs[1..]);
      } else {
        assert envs[1..] == [] && envs == [envs[0]];
        NoEnvsSafe();
      }
    }
  }

  lemma {:induction false} NoEnvsSafe()
    ensures AllSafeEnvs([])
  {
  }

  lemma {:induction false} EntryNotEmpty(env: string)
    ensures ProcessedEnv(env) != ""
  {
  }

  /**
   * The env file gives back the very list it was written for if and only if every entry has a proper name
   * and no single quote: newlines, blanks, `=`, `$` and double-quotes in values all survive.
   */
  lemma {:induction false} EnvFileExact(envs: seq<string>)
    ensures Source(EnvText(envs)) == Some(envs) <==> AllSafeEnvs(envs)
  {
    var text, body := EnvText(envs), Join(ProcessedEnvs(envs), "\n");
    HeaderEnds(body);
    if envs != [] {
      EntriesAreAt(text, |HEADER|, envs);
      EntriesExact(text, |HEADER|, envs);
    }
  }

  lemma {:induction false} HeaderEnds(body: string)
    ensures At(HEADER + body, |HEADER|, body)
    ensures Source(HEADER + body) == ReadExports(HEADER + body, |HEADER|)
  {
    var text := HEADER + body;
    assert text[|HEADER|..] == body;
    IndexFromIsFirst(text, '\n', 0);
    assert HEADER[11] == '\n' && text[11] == '\n';
    forall m | 0 <= m < 11 ensures text[m] != '\n' {
      assert text[m] == HEADER[m];
    }
  }

  /** On the safe domain the printed file determines the list. */
  lemma {:induction false} EnvTextInjective(envs1: seq<string>, envs2: seq<string>)
    requires AllSafeEnvs(envs1) && AllSafeEnvs(envs2) && EnvText(envs1) == EnvText(envs2)
    ensures envs1 == envs2
  {
    EnvFileExact(envs1);
    EnvFileExact(envs2);
  }

  // ----- What the sourced entries define -----

  function NameOf(env: string): string {
    env[..IndexOf(env, '=')]
  }

  predicate Assigns(env: string, name: string, value: string) {
    env == name + ("=" + value) && '=' !in name
  }

  /** Running the `export` commands in order; an entry without `=` gives no value. */
  function Variables(envs: seq<string>): map<string, string> {
    if envs == [] then map[]
    else
      var env := envs[|envs| - 1];
      var k := IndexOf(env, '=');
      if k < |env| then Variables(envs[..|envs| - 1])[env[..k] := env[k + 1..]] else Variables(envs[..|envs| - 1])
  }

  lemma {:induction false} AssignsSplits(env: string, name: string, value: string)
    ensures Assigns(env, name, value) <==>
      IndexOf(env, '=') < |env| && env[..IndexOf(env, '=')] == name && env[IndexOf(env, '=') + 1..] == value
  {
    var k := IndexOf(env, '=');
    IndexFromIsFirst(env, '=', 0);
    if Assigns(env, name, value) {
      assert env[|name|] == '=';
      assert forall m :: 0 <= m < |name| ==> env[m] == name[m];
      assert k == |name|;
    }
    if k < |env| {
      assert env == env[..k] + ("=" + env[k + 1..]);
      assert forall m :: 0 <= m < k ==> env[..k][m] == env[m];
    }
  }

  /** Entry k assigns the variable, and no later entry does. */
  ghost predicate LastAssigned(envs: seq<string>, k: nat, name: string, value: string) {
    && k < |envs| && Assigns(envs[k], name, value)
    && forall j, other :: k < j < |envs| ==> !Assigns(envs[j], name, other)
  }

  /** The last assignment of a variable is the one whose value it has. */
  lemma {:induction false} LastAssignmentWins(envs: seq<string>, k: nat, name: string, value: string)
    requires LastAssigned(envs, k, name, value)
    ensures name in Variables(envs) && Variables(envs)[name] == value
  {
    var n := |envs| - 1;
    var last := envs[n];
    AssignsSplits(last, name, last[if IndexOf(last, '=') < |last| then IndexOf(last, '=') + 1 else 0..]);
    if k == n {
      AssignsSplits(last, name, value);
    } else {
      LastAssignmentWins(envs[..n], k, name, value);
    }
  }

  /** And a variable has no value but from its last assignment. */
  lemma {:induction false} ValueHasAssignment(envs: seq<string>, name: string) returns (k: nat)
    requires name in Variables(envs)
    ensures LastAssigned(envs, k, name, Variables(envs)[name])
  {
    var n := |envs| - 1;
    var last := envs[n];
    if IndexOf(last, '=') < |last| && NameOf(last) == name {
      k := n;
      AssignsSplits(last, name, Variables(envs)[name]);
    } else {
      k := ValueHasAssignment(envs[..n], name);
      forall other ensures !Assigns(last, name, other) {
        AssignsSplits(last, name, other);
      }
    }
  }
}
