/** Every safe task's script does what it was meant to do, run by the reader of bash on its text alone. */
module ScriptRun {
  import opened Wrappers
  import opened Decimal
  import opened Strings
  import opened Tasks
  import opened ShellLexer
  import opened ShellCommands
  import opened EnvFile
  import opened TaskScript
  import opened Bash

  // ----- Reading the tail -----

  lemma {:induction false} BlankToken(rest: string)
    ensures Tokens(" " + rest) == Tokens(rest)
  {
    assert (" " + rest)[1..] == rest;
  }

  lemma {:induction false} OperatorToken(c: char, rest: string)
    requires c == '\n' || c == '&' || c == '>'
    ensures Tokens([c] + rest)
            == Cons(if c == '\n' then Newline else if c == '&' then Amp else Great, Tokens(rest))
  {
    assert ([c] + rest)[1..] == rest;
  }

  lemma {:induction false} RunStops(text: string, rest: string)
    requires AllRun(text) && (rest == "" || !IsRunChar(rest[0]))
    ensures RunLength(text + rest) == |text|
  {
    if text != "" {
      assert (text + rest)[1..] == text[1..] + rest;
      RunStops(text[1..], rest);
    } else {
      assert text + rest == rest;
    }
  }

  lemma {:induction false} WordToken(text: string, rest: string)
    requires text != "" && AllRun(text) && (rest == "" || rest[0] == ' ' || rest[0] == '\n')
    ensures Tokens(text + rest) == Cons(Word(text), Tokens(rest))
  {
    RunStops(text, rest);
    assert (text + rest)[0] == text[0];
    assert (text + rest)[..|text|] == text && (text + rest)[|text|..] == rest;
    NotOperator(text[0]);
  }

  lemma {:induction false} NotOperator(c: char)
    requires IsRunChar(c)
    ensures ClassOf(c) != Blank && c != '\n' && c != '&' && c != '>'
  {
  }

  lemma {:induction false} DescriptorToken(text: string, rest: string)
    requires text != "" && AllDigits(text)
    ensures Tokens(text + (">" + rest)) == Cons(Descriptor(text), Cons(Great, Tokens(rest)))
  {
    DigitsRun(text);
    RunStops(text, ">" + rest);
    var s := text + (">" + rest);
    assert s[0] == text[0] && s[..|text|] == text && s[|text|..] == ">" + rest;
    NotOperator(text[0]);
    OperatorToken('>', rest);
  }

  lemma {:induction false} DigitsRun(text: string)
    requires AllDigits(text)
    ensures AllRun(text)
  {
  }

  lemma {:induction false} PlainRunText(text: string)
    requires AllPlain(text)
    ensures AllRun(text)
  {
  }

  // ----- The lines of the tail, as tokens -----

  lemma {:induction false} RunWords()
    ensures AllRun("export") && AllRun("CMD_PID=$!") && AllRun("echo") && AllRun("$CMD_PID") && AllRun("wait")
    ensures AllRun("$?")
  {
  }

  lemma {:induction false} ErrorTokens(err: string, rest: string)
    requires err != "" && AllPlain(err)
    ensures Tokens(" 2>" + (err + (" & " + rest)))
            == Cons(Descriptor("2"), Cons(Great, Cons(Word(err), Cons(Amp, Tokens(rest)))))
  {
    hide Tokens, AllPlain, AllRun;
    PlainRunText(err);
    var behind := err + (" & " + rest);
    assert " 2>" + behind == " " + ("2" + (">" + behind));
    BlankToken("2" + (">" + behind));
    DescriptorToken("2", behind);
    WordToken(err, " & " + rest);
    assert " & " + rest == " " + (['&'] + (" " + rest));
    BlankToken(['&'] + (" " + rest));
    OperatorToken('&', " " + rest);
    BlankToken(rest);
  }

  lemma {:induction false} TwoWordTokens(first: string, second: string, rest: string)
    requires first != "" && second != "" && AllRun(first) && AllRun(second)
    requires rest == "" || rest[0] == ' ' || rest[0] == '\n'
    ensures Tokens(first + (" " + (second + rest))) == Cons(Word(first), Cons(Word(second), Tokens(rest)))
  {
    hide Tokens, AllRun;
    WordToken(first, " " + (second + rest));
    BlankToken(second + rest);
    WordToken(second, rest);
  }

  lemma {:induction false} TargetTokens(path: string, rest: string)
    requires path != "" && AllPlain(path) && (rest == "" || rest[0] == '\n')
    ensures Tokens(" > " + (path + rest)) == Cons(Great, Cons(Word(path), Tokens(rest)))
  {
    hide Tokens, AllPlain, AllRun;
    PlainRunText(path);
    assert " > " + (path + rest) == " " + (['>'] + (" " + (path + rest)));
    BlankToken(['>'] + (" " + (path + rest)));
    OperatorToken('>', " " + (path + rest));
    BlankToken(path + rest);
    WordToken(path, rest);
  }

  function PidTokens(pid: string): seq<Token> {
    [Word("echo"), Word("$CMD_PID"), Great, Word(pid), Newline]
  }

  function ExitTokens(exit: string): seq<Token> {
    [Word("echo"), Word("$?"), Great, Word(exit)]
  }

  lemma {:induction false} ExitLine(exit: string)
    requires exit != "" && AllPlain(exit)
    ensures Tokens("echo $? > " + exit) == Some(ExitTokens(exit))
  {
    hide Tokens, AllPlain, AllRun;
    RunWords();
    assert exit + "" == exit;
    assert "echo $? > " + exit == "echo" + (" " + ("$?" + (" > " + (exit + ""))));
    TwoWordTokens("echo", "$?", " > " + (exit + ""));
    TargetTokens(exit, "");
    NoTokens();
    assert [Word("echo")] + ([Word("$?")] + ([Great] + ([Word(exit)] + []))) == ExitTokens(exit);
  }

  lemma {:induction false} NoTokens()
    ensures Tokens("") == Some([])
  {
  }

  lemma {:induction false} WaitLine(rest: string)
    requires Tokens(rest).Some?
    ensures Tokens("wait $CMD_PID\n" + rest) == Some([Word("wait"), Word("$CMD_PID"), Newline] + Tokens(rest).value)
  {
    hide Tokens, AllRun;
    RunWords();
    assert "wait $CMD_PID\n" + rest == "wait" + (" " + ("$CMD_PID" + (['\n'] + rest)));
    TwoWordTokens("wait", "$CMD_PID", ['\n'] + rest);
    OperatorToken('\n', rest);
    ThreeCons(Word("wait"), Word("$CMD_PID"), Newline, Tokens(rest));
  }

  lemma {:induction false} ThreeCons(a: Token, b: Token, c: Token, rest: Option<seq<Token>>)
    requires rest.Some?
    ensures Cons(a, Cons(b, Cons(c, rest))) == Some([a, b, c] + rest.value)
  {
    assert [a] + ([b] + ([c] + rest.value)) == [a, b, c] + rest.value;
  }

  lemma {:induction false} PidLine(pid: string, rest: string)
    requires pid != "" && AllPlain(pid) && Tokens(rest).Some?
    ensures Tokens("echo $CMD_PID > " + (pid + ("\n" + rest))) == Some(PidTokens(pid) + Tokens(rest).value)
  {
    hide Tokens, AllPlain, AllRun;
    RunWords();
    var behind := pid + (['\n'] + rest);
    assert "echo $CMD_PID > " + behind == "echo" + (" " + ("$CMD_PID" + (" > " + behind)));
    TwoWordTokens("echo", "$CMD_PID", " > " + behind);
    TargetTokens(pid, ['\n'] + rest);
    OperatorToken('\n', rest);
    ThreeCons(Great, Word(pid), Newline, Tokens(rest));
    var tokens := Tokens(rest).value;
    assert [Word("echo")] + ([Word("$CMD_PID")] + ([Great, Word(pid), Newline] + tokens)) == PidTokens(pid) + tokens;
  }

  lemma {:induction false} BackgroundLine(err: string, rest: string)
    requires err != "" && AllPlain(err) && Tokens(rest).Some?
    ensures Tokens(" 2>" + (err + (" & export CMD_PID=$!\n" + rest)))
            == Some([Descriptor("2"), Great, Word(err), Amp]
                    + ([Word("export"), Word("CMD_PID=$!"), Newline] + Tokens(rest).value))
  {
    hide Tokens, AllPlain, AllRun;
    RunWords();
    var line := "export" + (" " + ("CMD_PID=$!" + (['\n'] + rest)));
    assert " & export CMD_PID=$!\n" + rest == " & " + line;
    ErrorTokens(err, line);
    TwoWordTokens("export", "CMD_PID=$!", ['\n'] + rest);
    OperatorToken('\n', rest);
    ThreeCons(Word("export"), Word("CMD_PID=$!"), Newline, Tokens(rest));
    ThreeCons(Great, Word(err), Amp, Tokens(line));
    var tokens := Tokens(line).value;
    assert [Descriptor("2")] + ([Great, Word(err), Amp] + tokens) == [Descriptor("2"), Great, Word(err), Amp] + tokens;
  }

  /** All paths are there. */
  predicate NamedFiles(files: Files) {
    PlainFiles(files) && files.err != "" && files.pid != "" && files.exit != ""
  }

  function TailTokens(files: Files): seq<Token> {
    [Descriptor("2"), Great, Word(files.err), Amp]
    + ([Word("export"), Word("CMD_PID=$!"), Newline]
       + (PidTokens(files.pid) + ([Word("wait"), Word("$CMD_PID"), Newline] + ExitTokens(files.exit))))
  }

  lemma {:induction false} TailRead(files: Files)
    requires NamedFiles(files)
    ensures Tokens(Tail(files)) == Some(TailTokens(files)) && Tokens(" " + Tail(files)) == Some(TailTokens(files))
  {
    hide Tokens, AllPlain;
    var last := "echo $? > " + files.exit;
    var third := "wait $CMD_PID\n" + last;
    var second := "echo $CMD_PID > " + (files.pid + ("\n" + third));
    ExitLine(files.exit);
    WaitLine(last);
    PidLine(files.pid, third);
    BackgroundLine(files.err, second);
    TailSplit(files);
    BlankToken(Tail(files));
  }

  lemma {:induction false} TailSplit(files: Files)
    ensures Tail(files) == " 2>" + (files.err + (" & export CMD_PID=$!\n" + ("echo $CMD_PID > "
                           + (files.pid + ("\n" + ("wait $CMD_PID\n" + ("echo $? > " + files.exit)))))))
  {
    var e := files.exit;
    assert "\nwait $CMD_PID\necho $? > " + e == "\n" + ("wait $CMD_PID\n" + ("echo $? > " + e));
    var p := files.pid + ("\n" + ("wait $CMD_PID\n" + ("echo $? > " + e)));
    assert " & export CMD_PID=$!\necho $CMD_PID > " + p == " & export CMD_PID=$!\n" + ("echo $CMD_PID > " + p);
  }

  // ----- The tail as commands -----

  lemma {:induction false} TextTerm(text: string)
    requires AllPlain(text)
    ensures ReadTerm(text) == Some(Text(text))
  {
    IndexFromIsFirst(text, '$', 0);
  }

  lemma {:induction false} ParamTerm(before: string, name: string)
    requires AllPlain(before) && (name == "!" || name == "?" || IsName(name))
    ensures ReadTerm(before + ("$" + name)) == Some(Param(before, name))
  {
    var text := before + ("$" + name);
    IndexFromIsFirst(text, '$', 0);
    assert text[|before|] == '$' && forall m :: 0 <= m < |before| ==> text[m] == before[m];
    assert text[..|before|] == before && text[|before| + 1..] == name;
  }

  lemma {:induction false} TailTerms()
    ensures ReadTerm("export") == Some(Text("export")) && ReadTerm("CMD_PID=$!") == Some(Param("CMD_PID=", "!"))
    ensures ReadTerm("echo") == Some(Text("echo")) && ReadTerm("$CMD_PID") == Some(Param("", "CMD_PID"))
    ensures ReadTerm("wait") == Some(Text("wait")) && ReadTerm("$?") == Some(Param("", "?"))
  {
    hide ReadTerm;
    PlainTailWords();
    TextTerm("export");
    TextTerm("echo");
    TextTerm("wait");
    ParamTerm("CMD_PID=", "!");
    ParamTerm("", "CMD_PID");
    ParamTerm("", "?");
    assert "CMD_PID=" + ("$" + "!") == "CMD_PID=$!" && "" + ("$" + "CMD_PID") == "$CMD_PID" && "" + ("$" + "?") == "$?";
  }

  lemma {:induction false} PlainTailWords()
    ensures AllPlain("export") && AllPlain("echo") && AllPlain("wait") && AllPlain("CMD_PID=") && AllPlain("")
    ensures IsName("CMD_PID")
  {
  }

  lemma {:induction false} ReadWordToken(text: string, term: Term, rest: seq<Token>, begun: Simple)
    requires ReadTerm(text) == Some(term)
    ensures ReadSimple([Word(text)] + rest, begun) == ReadSimple(rest, begun.(words := begun.words + [term]))
  {
    assert ([Word(text)] + rest)[1..] == rest;
  }

  lemma {:induction false} ReadTarget(path: string, rest: seq<Token>, begun: Simple)
    requires AllPlain(path)
    ensures ReadSimple([Great] + ([Word(path)] + rest), begun)
            == ReadSimple(rest, begun.(redirects := begun.redirects + [("1", Text(path))]))
  {
    hide AllPlain, ReadTerm;
    TextTerm(path);
    assert ([Great] + ([Word(path)] + rest))[1..] == [Word(path)] + rest;
    assert ([Word(path)] + rest)[1..] == rest;
  }

  lemma {:induction false} ReadErrorTarget(path: string, rest: seq<Token>, begun: Simple)
    requires AllPlain(path) && begun != NOTHING
    ensures ReadSimple([Descriptor("2"), Great, Word(path), Amp] + rest, begun)
            == InFrontOf(begun.(redirects := begun.redirects + [("2", Text(path))], background := true),
                         ReadSimple(rest, NOTHING))
  {
    hide AllPlain, ReadTerm;
    TextTerm(path);
    var tokens := [Descriptor("2"), Great, Word(path), Amp] + rest;
    assert tokens[2..] == [Word(path), Amp] + rest && tokens[1] == Great;
    assert ([Word(path), Amp] + rest)[1..] == [Amp] + rest;
    assert ([Amp] + rest)[1..] == rest;
    var redirected := begun.(redirects := begun.redirects + [("2", Text(path))]);
    assert ReadSimple(tokens, begun) == ReadRedirect([Word(path), Amp] + rest, "2", begun);
    assert ReadRedirect([Word(path), Amp] + rest, "2", begun) == ReadSimple([Amp] + rest, redirected);
  }

  lemma {:induction false} ReadLineEnd(rest: seq<Token>, begun: Simple)
    requires begun != NOTHING
    ensures ReadSimple([Newline] + rest, begun) == InFrontOf(begun, ReadSimple(rest, NOTHING))
  {
    assert ([Newline] + rest)[1..] == rest;
  }

  /** A line of two words. */
  lemma {:induction false} ReadPair(a: string, ta: Term, b: string, tb: Term, rest: seq<Token>)
    requires ReadTerm(a) == Some(ta) && ReadTerm(b) == Some(tb)
    ensures ReadSimple([Word(a), Word(b), Newline] + rest, NOTHING)
            == InFrontOf(Simple([ta, tb], [], false), ReadSimple(rest, NOTHING))
  {
    hide ReadSimple, ReadTerm;
    assert [Word(a), Word(b), Newline] + rest == [Word(a)] + ([Word(b)] + ([Newline] + rest));
    ReadWordToken(a, ta, [Word(b)] + ([Newline] + rest), NOTHING);
    ReadWordToken(b, tb, [Newline] + rest, Simple([ta], [], false));
    assert [ta] + [tb] == [ta, tb] && [] + [ta] == [ta];
    ReadLineEnd(rest, Simple([ta, tb], [], false));
  }

  lemma {:induction false} ReadEcho(b: string, tb: Term, path: string, rest: seq<Token>)
    requires ReadTerm(b) == Some(tb) && AllPlain(path)
    ensures ReadSimple([Word("echo"), Word(b), Great, Word(path)] + rest, NOTHING)
            == ReadSimple(rest, Simple([Text("echo"), tb], [("1", Text(path))], false))
  {
    hide ReadSimple, ReadTerm, AllPlain;
    TailTerms();
    var behind := [Great] + ([Word(path)] + rest);
    assert [Word("echo"), Word(b), Great, Word(path)] + rest == [Word("echo")] + ([Word(b)] + behind);
    ReadWordToken("echo", Text("echo"), [Word(b)] + behind, NOTHING);
    ReadWordToken(b, tb, behind, Simple([Text("echo")], [], false));
    assert [] + [Text("echo")] == [Text("echo")] && [Text("echo")] + [tb] == [Text("echo"), tb];
    ReadTarget(path, rest, Simple([Text("echo"), tb], [], false));
    assert [] + [("1", Text(path))] == [("1", Text(path))];
  }

  const KEEP_PID := Simple([Text("export"), Param("CMD_PID=", "!")], [], false)
  const WAIT := Simple([Text("wait"), Param("", "CMD_PID")], [], false)

  function Start(words: seq<string>, err: string): Simple {
    Simple(Terms(words), [("2", Text(err))], true)
  }

  function Echo(name: string, path: string): Simple {
    Simple([Text("echo"), Param("", name)], [("1", Text(path))], false)
  }

  function TailCommands(words: seq<string>, files: Files): seq<Simple> {
    [Start(words, files.err), KEEP_PID, Echo("CMD_PID", files.pid), WAIT, Echo("?", files.exit)]
  }

  lemma {:induction false} TailParsed(words: seq<string>, files: Files)
    requires PlainFiles(files) && words != []
    ensures ReadSimple(TailTokens(files), Simple(Terms(words), [], false)) == Some(TailCommands(words, files))
  {
    hide ReadSimple, ReadTerm, AllPlain;
    TailTerms();
    var begun := Simple(Terms(words), [], false);
    var exitLine := ExitTokens(files.exit);
    var waitLine := [Word("wait"), Word("$CMD_PID"), Newline] + exitLine;
    var pidLine := PidTokens(files.pid) + waitLine;
    ReadErrorTarget(files.err, [Word("export"), Word("CMD_PID=$!"), Newline] + pidLine, begun);
    assert [] + [("2", Text(files.err))] == [("2", Text(files.err))];
    ReadPair("export", Text("export"), "CMD_PID=$!", Param("CMD_PID=", "!"), pidLine);
    assert pidLine == [Word("echo"), Word("$CMD_PID"), Great, Word(files.pid)] + ([Newline] + waitLine);
    ReadEcho("$CMD_PID", Param("", "CMD_PID"), files.pid, [Newline] + waitLine);
    ReadLineEnd(waitLine, Echo("CMD_PID", files.pid));
    ReadPair("wait", Text("wait"), "$CMD_PID", Param("", "CMD_PID"), exitLine);
    assert exitLine == [Word("echo"), Word("$?"), Great, Word(files.exit)] + [];
    ReadEcho("$?", Param("", "?"), files.exit, []);
    EndOfTokens(Echo("?", files.exit));
    assert [Start(words, files.err)] + ([KEEP_PID] + ([Echo("CMD_PID", files.pid)] + ([WAIT] + [Echo("?", files.exit)])))
        == TailCommands(words, files);
  }

  lemma {:induction false} EndOfTokens(begun: Simple)
    requires begun != NOTHING
    ensures ReadSimple([], begun) == Some([begun])
  {
  }

  // ----- What the commands do -----

  lemma {:induction false} TermValues(sh: Shell, words: seq<string>)
    ensures Expanded(sh, Terms(words)) == Some(words)
  {
    if words != [] {
      TermValues(sh, words[1..]);
      assert Terms(words)[1..] == Terms(words[1..]);
      assert [words[0]] + words[1..] == words;
    }
  }

  lemma {:induction false} TwoValues(sh: Shell, a: Term, b: Term)
    requires Value(sh, a).Some? && Value(sh, b).Some?
    ensures Expanded(sh, [a, b]) == Some([Value(sh, a).value, Value(sh, b).value])
  {
    assert [a, b][1..] == [b] && [b][1..] == [];
    assert Expanded(sh, []) == Some([]);
    assert [Value(sh, b).value] + [] == [Value(sh, b).value];
    assert Expanded(sh, [b]) == Some([Value(sh, b).value]);
    assert [Value(sh, a).value] + [Value(sh, b).value] == [Value(sh, a).value, Value(sh, b).value];
  }

  lemma {:induction false} RunStart(sh: Shell, words: seq<string>, err: string, pid: ProcId, code: Status)
    requires words != []
    ensures RunOne(sh, Start(words, err), pid, code)
            == Some(Shell(sh.vars, Some(PrintNat(pid)), "0", sh.done + [Started(words, err, sh.vars)]))
  {
    TermValues(sh, words);
  }

  lemma {:induction false} RunExport(sh: Shell, words: seq<Term>, name: string, value: string, pid: ProcId, code: Status)
    requires Expanded(sh, words) == Some(["export", name + ("=" + value)]) && IsName(name)
    ensures RunOne(sh, Simple(words, [], false), pid, code) == Some(sh.(vars := sh.vars[name := value], status := "0"))
  {
    var word := name + ("=" + value);
    IndexFromIsFirst(word, '=', 0);
    assert word[|name|] == '=' && forall m :: 0 <= m < |name| ==> word[m] == name[m] != '=';
    assert word[..|name|] == name && word[|name| + 1..] == value;
    assert "export" != "echo" by { assert "export"[1] != "echo"[1]; }
  }

  lemma {:induction false} RunEcho(sh: Shell, name: string, path: string, pid: ProcId, code: Status)
    requires Value(sh, Param("", name)).Some?
    ensures var text := Value(sh, Param("", name)).value;
            RunOne(sh, Echo(name, path), pid, code) == Some(Done(sh, Wrote(path, text + "\n"), "0"))
  {
    var text := Value(sh, Param("", name)).value;
    TwoValues(sh, Text("echo"), Param("", name));
    assert ["echo", text][1..] == [text] && Join([text], " ") == text;
  }

  lemma {:induction false} RunSource(sh: Shell, path: string, pid: ProcId, code: Status)
    ensures RunOne(sh, Simple(Terms(["source", path]), [], false), pid, code) == Some(Done(sh, Sourced(path), "0"))
  {
    TermValues(sh, ["source", path]);
    assert "source"[0] != "echo"[0] && "source"[0] != "export"[0];
  }

  lemma {:induction false} RunWait(sh: Shell, pid: ProcId, code: Status)
    requires "CMD_PID" in sh.vars && sh.last == Some(sh.vars["CMD_PID"])
    ensures RunOne(sh, WAIT, pid, code) == Some(Done(sh, Waited(sh.vars["CMD_PID"]), PrintNat(code)))
  {
    TwoValues(sh, Text("wait"), Param("", "CMD_PID"));
    assert "" + sh.vars["CMD_PID"] == sh.vars["CMD_PID"];
    assert "wait"[0] != "echo"[0] && "wait"[0] != "export"[0] && "wait"[0] != "source"[0];
    assert "CMD_PID" != "!" && "CMD_PID" != "?" by { assert |"CMD_PID"| != |"!"|; }
  }

  lemma {:induction false} OneMore(sh: Shell, command: Simple, sh': Shell, rest: seq<Simple>, pid: ProcId, code: Status)
    requires RunOne(sh, command, pid, code) == Some(sh')
    ensures RunAll(sh, [command] + rest, pid, code) == RunAll(sh', rest, pid, code)
  {
    assert ([command] + rest)[1..] == rest;
  }

  function HomeOf(user: string): string {
    "/home/" + user + "/app"
  }

  /** The variables when the command is started. */
  function Exported(user: string): map<string, string> {
    map["HOME" := HomeOf(user), "APP_ROOT" := HomeOf(user)]
  }

  lemma {:induction false} SetupNames()
    ensures IsName("HOME") && IsName("APP_ROOT") && IsName("CMD_PID")
  {
  }

  lemma {:induction false} SetupRuns(user: string, env: string, pid: ProcId, code: Status)
    ensures forall rest :: RunAll(FRESH, Lines(SetupWords(user, env)) + rest, pid, code)
                           == RunAll(Shell(Exported(user), None, "0", [Sourced(env)]), rest, pid, code)
  {
    hide RunOne, RunAll;
    SetupNames();
    var setup := SetupWords(user, env);
    var first, second, third := Lines(setup)[0], Lines(setup)[1], Lines(setup)[2];
    var sh1 := FRESH.(vars := map["HOME" := HomeOf(user)]);
    var sh2 := Done(sh1, Sourced(env), "0");
    assert Home(user) == "HOME" + ("=" + HomeOf(user)) && AppRoot(user) == "APP_ROOT" + ("=" + HomeOf(user));
    TermValues(FRESH, setup[0]);
    RunExport(FRESH, first.words, "HOME", HomeOf(user), pid, code);
    RunSource(sh1, env, pid, code);
    TermValues(sh2, setup[2]);
    RunExport(sh2, third.words, "APP_ROOT", HomeOf(user), pid, code);
    var sh3 := sh2.(vars := sh2.vars["APP_ROOT" := HomeOf(user)], status := "0");
    assert sh3 == Shell(Exported(user), None, "0", [Sourced(env)]);
    forall rest
      ensures RunAll(FRESH, Lines(setup) + rest, pid, code) == RunAll(sh3, rest, pid, code)
    {
      assert Lines(setup) + rest == [first] + ([second] + ([third] + rest));
      OneMore(FRESH, first, sh1, [second] + ([third] + rest), pid, code);
      OneMore(sh1, second, sh2, [third] + rest, pid, code);
      OneMore(sh2, third, sh3, rest, pid, code);
    }
  }

  lemma {:induction false} TailRuns(sh: Shell, words: seq<string>, files: Files, pid: ProcId, code: Status)
    requires words != []
    ensures var r := RunAll(sh, TailCommands(words, files), pid, code);
            && r.Some?
            && r.value.done == sh.done + [Started(words, files.err, sh.vars), Wrote(files.pid, PrintNat(pid) + "\n"),
                                          Waited(PrintNat(pid)), Wrote(files.exit, PrintNat(code) + "\n")]
  {
    hide RunOne, RunAll;
    SetupNames();
    var commands := TailCommands(words, files);
    var sh1 := Shell(sh.vars, Some(PrintNat(pid)), "0", sh.done + [Started(words, files.err, sh.vars)]);
    RunStart(sh, words, files.err, pid, code);
    TwoValues(sh1, Text("export"), Param("CMD_PID=", "!"));
    assert "CMD_PID=" + PrintNat(pid) == "CMD_PID" + ("=" + PrintNat(pid));
    RunExport(sh1, KEEP_PID.words, "CMD_PID", PrintNat(pid), pid, code);
    var sh2 := sh1.(vars := sh1.vars["CMD_PID" := PrintNat(pid)], status := "0");
    KnownParameters(sh2);
    RunEcho(sh2, "CMD_PID", files.pid, pid, code);
    var sh3 := Done(sh2, Wrote(files.pid, PrintNat(pid) + "\n"), "0");
    RunWait(sh3, pid, code);
    var sh4 := Done(sh3, Waited(PrintNat(pid)), PrintNat(code));
    KnownParameters(sh4);
    RunEcho(sh4, "?", files.exit, pid, code);
    var sh5 := Done(sh4, Wrote(files.exit, PrintNat(code) + "\n"), "0");
    var rest := [Echo("?", files.exit)];
    assert commands == [Start(words, files.err)] + ([KEEP_PID] + ([Echo("CMD_PID", files.pid)] + ([WAIT] + (rest + []))));
    var echoes := [Echo("CMD_PID", files.pid)] + ([WAIT] + (rest + []));
    OneMore(sh, Start(words, files.err), sh1, [KEEP_PID] + echoes, pid, code);
    OneMore(sh1, KEEP_PID, sh2, [Echo("CMD_PID", files.pid)] + ([WAIT] + (rest + [])), pid, code);
    OneMore(sh2, Echo("CMD_PID", files.pid), sh3, [WAIT] + (rest + []), pid, code);
    OneMore(sh3, WAIT, sh4, rest + [], pid, code);
    OneMore(sh4, Echo("?", files.exit), sh5, [], pid, code);
    AllRun0(sh5, pid, code);
  }

  lemma {:induction false} KnownParameters(sh: Shell)
    ensures "CMD_PID" in sh.vars ==> Value(sh, Param("", "CMD_PID")) == Some(sh.vars["CMD_PID"])
    ensures Value(sh, Param("", "?")) == Some(sh.status)
  {
    assert "" + sh.status == sh.status;
    assert |"CMD_PID"| != |"!"| && |"CMD_PID"| != |"?"| && "?"[0] != "!"[0];
    if "CMD_PID" in sh.vars {
      assert "" + sh.vars["CMD_PID"] == sh.vars["CMD_PID"];
    }
  }

  lemma {:induction false} AllRun0(sh: Shell, pid: ProcId, code: Status)
    ensures RunAll(sh, [], pid, code) == Some(sh)
  {
  }

  // ----- The whole script -----

  /** What the script of this task ought to do. */
  function MeantEffects(task: RunTask, files: Files, pid: ProcId, code: Status): seq<Effect> {
    [Sourced(files.env), Started([task.path] + task.args, files.err, Exported(task.user)),
     Wrote(files.pid, PrintNat(pid) + "\n"), Waited(PrintNat(pid)), Wrote(files.exit, PrintNat(code) + "\n")]
  }

  lemma {:induction false} BodyRuns(task: RunTask, files: Files, pid: ProcId, code: Status)
    requires NamedFiles(files) && ReadBody(Body(task, files)) == Some(Meant(task, files))
    ensures RunBody(Body(task, files), pid, code) == Some(MeantEffects(task, files, pid, code))
  {
    hide ReadBody, Body, Tokens, ReadSimple, RunAll, Tail, TailTokens, TailCommands, NamedFiles, SetupWords, Exported;
    hide PlainFiles;
    var parsed := Meant(task, files);
    var words := [task.path] + task.args;
    TailRead(files);
    assert "" + Tail(files) == Tail(files);
    assert PlainFiles(files) by { NamedArePlain(files); }
    TailParsed(words, files);
    SetupRuns(task.user, files.env, pid, code);
    var sh := Shell(Exported(task.user), None, "0", [Sourced(files.env)]);
    TailRuns(sh, words, files, pid, code);
    assert [Sourced(files.env)] + [Started(words, files.err, Exported(task.user)), Wrote(files.pid, PrintNat(pid) + "\n"),
                                   Waited(PrintNat(pid)), Wrote(files.exit, PrintNat(code) + "\n")]
        == MeantEffects(task, files, pid, code);
  }

  lemma {:induction false} NamedArePlain(files: Files)
    requires NamedFiles(files)
    ensures PlainFiles(files)
  {
  }

  lemma {:induction false} SuRead(user: string, body: string)
    ensures ReadSu(OuterWords(user, body)) == Some((if user == "" then "root" else user, body))
  {
    if user == "" {
      assert OuterWords(user, body) == ["su", "-", "-c", body];
    } else {
      assert OuterWords(user, body) == ["su", "-", user, "-c", body];
    }
  }

  lemma {:induction false} OuterEnd(user: string, body: string)
    ensures var script := HEADER + OuterText(user, body);
            && |script| > |HEADER| && IndexOf(script, '\n') == |HEADER| - 1 && script[..|HEADER| - 1] == "#!/bin/bash"
            && OnlyWhite(script[|script| - 2..])
  {
    hide IndexOf;
    var script := HEADER + OuterText(user, body);
    HeaderLine(OuterText(user, body));
    assert script[..11] == HEADER[..11] == "#!/bin/bash";
    assert script == HEADER + ("su - " + user + " -c '" + body) + "'\n\t";
    assert script[|script| - 2..] == "\n\t";
  }

  lemma {:induction false} HeaderLine(rest: string)
    ensures IndexOf(HEADER + rest, '\n') == |HEADER| - 1
  {
    var script := HEADER + rest;
    IndexFromIsFirst(script, '\n', 0);
    assert script[11] == HEADER[11] == '\n';
    assert forall m :: 0 <= m < 11 ==> script[m] == HEADER[m] && HEADER[m] != '\n';
  }

  /**
   * Every safe task's script does exactly this, for every pid its command gets and every status it ends with:
   * as the task's user it sets HOME, sources the env file, sets APP_ROOT, starts the path with exactly the
   * arguments in the background with its errors in the error file, writes the pid of that process into the
   * pid file, waits for that very process, and writes its status into the exit file.
   */
  lemma {:induction false} ScriptDoes(task: RunTask, files: Files, pid: ProcId, code: Status)
    requires NamedFiles(files) && SafeTask(task)
    ensures RunScript(ScriptText(task, files), pid, code)
            == Some((if task.user == "" then "root" else task.user,
                     [Sourced(files.env),
                      Started([task.path] + task.args, files.err,
                              map["HOME" := "/home/" + task.user + "/app", "APP_ROOT" := "/home/" + task.user + "/app"]),
                      Wrote(files.pid, PrintNat(pid) + "\n"),
                      Waited(PrintNat(pid)),
                      Wrote(files.exit, PrintNat(code) + "\n")]))
  {
    hide SafeTask, NamedFiles, PlainFiles, Body, RunBody, ReadWords, ReadBody, OuterText, OuterWords, Meant, OnlyWhite;
    NamedArePlain(files);
    ScriptExact(task, files);
    var body := Body(task, files);
    OuterEnd(task.user, body);
    SuRead(task.user, body);
    BodyRuns(task, files, pid, code);
  }
}
