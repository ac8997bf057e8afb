/**
 * The script that scheduleTask writes, and what the two shells that run it read: the outer one that starts
 * `su -c`, and the inner one that is given the body.
 */
module TaskScript {
  import opened Wrappers
  import opened Strings
  import opened ShellLexer
  import opened ShellWords
  import opened ShellCommands
  import opened EnvFile
  import opened Tasks

  // ----- The printer -----

  function ProcessedArgs(args: seq<string>): (r: seq<string>)
    ensures |r| == |args| && forall k :: 0 <= k < |args| ==> r[k] == ProcessedArg(args[k])
  {
    if args == [] then [] else [ProcessedArg(args[0])] + ProcessedArgs(args[1..])
  }

  /** getProcessedArgs, which fills a slice of the same length. */
  method GetProcessedArgs(args: seq<string>) returns (processed: array<string>)
    ensures fresh(processed) && processed[..] == ProcessedArgs(args)
  {
    processed := new string[|args|](_ => "");
    for i := 0 to |args|
      invariant forall k :: 0 <= k < i ==> processed[k] == ProcessedArg(args[k])
    {
      if args[i] == "" {
        processed[i] := "\"\"";
      } else {
        var firstEqualIndex := IndexOf(args[i], '=');
        IndexFromIsFirst(args[i], '=', 0);
        if firstEqualIndex < |args[i]| {
          processed[i] := args[i][..firstEqualIndex] + ("=\"" + (args[i][firstEqualIndex + 1..] + "\""));
        } else {
          processed[i] := args[i];
        }
      }
    }
  }

  /** The container paths that the script mentions. */
  datatype Files = Files(env: string, err: string, pid: string, exit: string)

  function Home(user: string): string {
    "HOME=/home/" + user + "/app"
  }

  function AppRoot(user: string): string {
    "APP_ROOT=/home/" + user + "/app"
  }

  function Setup(user: string, env: string): string {
    "export " + (Home(user) + ("\nsource " + (env + ("\nexport " + (AppRoot(user) + "\n")))))
  }

  /** The words of the command: the path as it is, then the processed arguments. */
  function CommandText(task: RunTask): string {
    task.path + " " + Join(ProcessedArgs(task.args), " ")
  }

  function RestOfTail(files: Files): string {
    files.err + (" & export CMD_PID=$!\necho $CMD_PID > " + (files.pid + ("\nwait $CMD_PID\necho $? > " + files.exit)))
  }

  /** The part of the body behind the arguments: it redirects stderr, and records the pid and the status. */
  function Tail(files: Files): string {
    " 2>" + RestOfTail(files)
  }

  /** What `su -c` is given. */
  function Body(task: RunTask, files: Files): string {
    Setup(task.user, files.env) + (CommandText(task) + Tail(files))
  }

  function OuterText(user: string, body: string): string {
    "su - " + user + " -c '" + body + "'\n\t"
  }

  /** The whole script. */
  function ScriptText(task: RunTask, files: Files): string {
    HEADER + OuterText(task.user, Body(task, files))
  }

  // ----- The readers -----

  /** Commands that fill a line each, and where the next line begins. */
  function ReadLines(s: string, i: nat, n: nat): (r: Option<(seq<seq<string>>, nat)>)
    requires i <= |s|
    ensures r.Some? ==> i <= r.value.1 <= |s|
    decreases n
  {
    if n == 0 then Some(([], i))
    else
      match ReadCommand(s, i)
      case None => None
      case Some(c) =>
        if c.end == |s| || s[c.end] != '\n' then None
        else
          match ReadLines(s, c.end + 1, n - 1)
          case None => None
          case Some((lines, next)) => Some(([c.words] + lines, next))
  }

  /** What a body amounts to: three preparing commands, the words of the command, and all that follows them. */
  datatype Parsed = Parsed(setup: seq<seq<string>>, words: seq<string>, tail: string)

  function ReadBody(body: string): Option<Parsed> {
    match ReadLines(body, 0, 3)
    case None => None
    case Some((setup, next)) =>
      match ReadCommand(body, next)
      case None => None
      case Some(c) => Some(Parsed(setup, c.words, body[c.end..]))
  }

  // ----- What should be read -----

  /** An empty user leaves no word behind: `su -` then means root. */
  function OuterWords(user: string, body: string): seq<string> {
    ["su", "-"] + ((if user == "" then [] else [user]) + ["-c", body])
  }

  function SetupWords(user: string, env: string): seq<seq<string>> {
    [["export", Home(user)], ["source", env], ["export", AppRoot(user)]]
  }

  function Meant(task: RunTask, files: Files): Parsed {
    Parsed(SetupWords(task.user, files.env), [task.path] + task.args,
           (if task.args == [] then " " else "") + Tail(files))
  }

  /** The container paths are plain text, as they are for plain tags and uuids. */
  predicate PlainFiles(files: Files) {
    && files.env != "" && AllPlain(files.env) && AllPlain(files.err) && AllPlain(files.pid) && AllPlain(files.exit)
  }

  predicate SafeTask(task: RunTask) {
    && AllPlain(task.user)
    && IsCommandName(task.path)
    && forall k :: 0 <= k < |task.args| ==> SafeArg(task.args[k]) && '\'' !in task.args[k]
  }

  // ----- The outer level -----

  /** Where the words of the outer command stand. */
  lemma {:induction false} OuterPlaces(s: string, i: nat, user: string, body: string)
    requires At(s, i, OuterText(user, body))
    ensures var u := i + 5 + |user|;
            var end := u + 6 + |body|;
            && At(s, i, "su") && At(s, i + 2, " ") && At(s, i + 3, "-") && At(s, i + 4, " ") && At(s, i + 5, user)
            && At(s, u, " ") && At(s, u + 1, "-c") && At(s, u + 3, " ") && At(s, u + 4, "'" + (body + "'"))
            && At(s, end, "\n")
  {
    var u := i + 5 + |user|;
    hide At;
    AtParts(s, i, "su - " + user + " -c '" + body, "'\n\t");
    AtParts(s, i, "su - " + user + " -c '", body);
    AtParts(s, i, "su - " + user, " -c '");
    AtParts(s, i, "su - ", user);
    assert "su - " == "su" + (" " + ("-" + " "));
    AtParts(s, i, "su", " " + ("-" + " "));
    AtParts(s, i + 2, " ", "-" + " ");
    AtParts(s, i + 3, "-", " ");
    assert " -c '" == " " + ("-c" + (" " + "'"));
    AtParts(s, u, " ", "-c" + (" " + "'"));
    AtParts(s, u + 1, "-c", " " + "'");
    AtParts(s, u + 3, " ", "'");
    assert "'\n\t" == "'" + ("\n" + "\t");
    AtParts(s, u + 5 + |body|, "'", "\n" + "\t");
    AtParts(s, u + 6 + |body|, "\n", "\t");
    AtJoined(s, u + 5, body, "'");
    AtJoined(s, u + 4, "'", body + "'");
  }

  /** A fixed plain word and the blank behind it are read away. */
  lemma {:induction false} FixedWord(s: string, i: nat, word: string)
    requires word != "" && AllPlain(word) && At(s, i, word) && At(s, i + |word|, " ")
    ensures ReadWords(s, i) == InFront(Lexed(word, i + |word|), ReadWords(s, i + |word| + 1))
  {
    hide ReadWords;
    AtTail(s, i + |word|, " ");
    FirstWordReads(s, i, Raw(word));
    BlankSkipped(s, i + |word|);
  }

  lemma {:induction false} CommandFlag(s: string, i: nat, body: string)
    requires At(s, i, "-c") && At(s, i + 2, " ") && At(s, i + 3, "'" + (body + "'")) && At(s, i + 5 + |body|, "\n")
    ensures LineAt(s, i, [Raw("-c")] + [Quoted(body)], i + 5 + |body|)
    ensures Values([Raw("-c")] + [Quoted(body)]) == ["-c", body]
    ensures AllSafe([Raw("-c")] + [Quoted(body)]) <==> '\'' !in body
    ensures ReadWords(s, i + 5 + |body|) == Some(Command([], i + 5 + |body|))
  {
    hide At, LineAt, Values, AllSafe;
    AtTail(s, i + 5 + |body|, "\n");
    OneAt(s, i + 3, Quoted(body));
    OneMoreAt(s, i, Raw("-c"), [Quoted(body)], i + 5 + |body|);
    assert ["-c"] + [body] == ["-c", body];
  }

  /**
   * Whoever reads the script's one command finds `su - user -c` and exactly the body if and only if the user
   * is plain or empty and the body has no single quote.
   */
  lemma {:induction false} OuterExact(s: string, i: nat, user: string, body: string)
    requires At(s, i, OuterText(user, body))
    ensures ReadWords(s, i) == Some(Command(OuterWords(user, body), i + 11 + |user| + |body|))
            <==> AllPlain(user) && '\'' !in body
  {
    hide At, OuterText, ReadWords, LineAt, Values, AllSafe;
    var u := i + 5 + |user|;
    var end := u + 6 + |body|;
    OuterPlaces(s, i, user, body);
    FixedWord(s, i, "su");
    FixedWord(s, i + 3, "-");
    CommandFlag(s, u + 1, body);
    var last := [Raw("-c")] + [Quoted(body)];
    var words := (if user == "" then [] else [user]) + ["-c", body];
    if user == "" {
      AtTail(s, u, " ");
      BlankSkipped(s, u);
      LineExact(s, u + 1, last, end);
      assert words == ["-c", body];
    } else {
      OneMoreAt(s, i + 5, Raw(user), last, end);
      LineExact(s, i + 5, [Raw(user)] + last, end);
    }
    InFrontOnly(Lexed("-", i + 4), ReadWords(s, i + 5), words, end);
    InFrontOnly(Lexed("su", i + 2), InFront(Lexed("-", i + 4), ReadWords(s, i + 5)), ["-"] + words, end);
    assert ["su"] + (["-"] + words) == OuterWords(user, body);
  }

  // ----- The inner level: three lines of preparation -----

  lemma {:induction false} SetupCommands()
    ensures IsCommandName("export") && IsCommandName("source")
  {
    hide AllPlain, IsCommandName;
    PlainCommands();
    UnreservedCommands();
    UnreservedName("export");
    UnreservedName("source");
  }

  lemma {:induction false} PlainCommands()
    ensures AllPlain("export") && AllPlain("source") && '=' !in "export" && '=' !in "source"
  {
  }

  lemma {:induction false} UnreservedCommands()
    ensures "export" !in RESERVED && "source" !in RESERVED
  {
    assert forall k :: 0 <= k < |RESERVED| && RESERVED[k][0] == 'e' ==> |RESERVED[k]| == 4;
    assert forall k :: 0 <= k < |RESERVED| && RESERVED[k][0] == 's' ==> RESERVED[k][1] == 'e';
  }

  lemma {:induction false} TwoWordLine(s: string, i: nat, name: string, word: string)
    requires IsCommandName(name) && word != "" && AllPlain(word)
    requires At(s, i, name) && At(s, i + |name|, " ") && At(s, i + |name| + 1, word)
    requires At(s, i + |name| + 1 + |word|, "\n")
    ensures var end := i + |name| + 1 + |word|;
            end < |s| && s[end] == '\n' && ReadCommand(s, i) == Some(Command([name, word], end))
  {
    hide At, LineAt, Values, AllSafe, ReadWords;
    var end := i + |name| + 1 + |word|;
    AtTail(s, i + |name|, " ");
    AtTail(s, end, "\n");
    OneAt(s, i + |name| + 1, Raw(word));
    OneMoreAt(s, i, Raw(name), [Raw(word)], end);
    NewlineEnds(s, end);
    LineExact(s, i, [Raw(name)] + [Raw(word)], end);
    CommandPosition(s, i, name);
    assert [name] + [word] == [name, word];
  }

  lemma {:induction false} NewlineEnds(s: string, i: nat)
    requires i < |s| && s[i] == '\n'
    ensures ReadWords(s, i) == Some(Command([], i))
  {
  }

  lemma {:induction false} SetupPlaces(s: string, i: nat, user: string, env: string)
    requires At(s, i, Setup(user, env))
    ensures var p2 := i + 23 + |user|;
            var p3 := p2 + 8 + |env|;
            && At(s, i, "export") && At(s, i + 6, " ") && At(s, i + 7, Home(user)) && At(s, p2 - 1, "\n")
            && At(s, p2, "source") && At(s, p2 + 6, " ") && At(s, p2 + 7, env) && At(s, p3 - 1, "\n")
            && At(s, p3, "export") && At(s, p3 + 6, " ") && At(s, p3 + 7, AppRoot(user))
            && At(s, p3 + 26 + |user|, "\n")
            && |Setup(user, env)| == 58 + 2 * |user| + |env|
  {
    hide At, Home, AppRoot;
    HomeLengths(user);
    var p2 := i + 23 + |user|;
    var p3 := p2 + 8 + |env|;
    var part3 := AppRoot(user) + "\n";
    var part2 := env + ("\nexport " + part3);
    AtParts(s, i, "export ", Home(user) + ("\nsource " + part2));
    AtParts(s, i + 7, Home(user), "\nsource " + part2);
    AtParts(s, p2 - 1, "\nsource ", part2);
    AtParts(s, p2 + 7, env, "\nexport " + part3);
    AtParts(s, p3 - 1, "\nexport ", part3);
    AtParts(s, p3 + 7, AppRoot(user), "\n");
    SplitLiterals(s, i, p2, p3);
  }

  lemma {:induction false} HomeLengths(user: string)
    ensures |Home(user)| == 15 + |user| && |AppRoot(user)| == 19 + |user|
  {
  }

  lemma {:induction false} SplitLiterals(s: string, p1: nat, p2: nat, p3: nat)
    requires p2 > 0 && p3 > 0 && At(s, p1, "export ") && At(s, p2 - 1, "\nsource ") && At(s, p3 - 1, "\nexport ")
    ensures At(s, p1, "export") && At(s, p1 + 6, " ")
    ensures At(s, p2 - 1, "\n") && At(s, p2, "source") && At(s, p2 + 6, " ")
    ensures At(s, p3 - 1, "\n") && At(s, p3, "export") && At(s, p3 + 6, " ")
  {
    hide At;
    assert "export " == "export" + " ";
    AtParts(s, p1, "export", " ");
    assert "\nsource " == "\n" + ("source" + " ");
    AtParts(s, p2 - 1, "\n", "source" + " ");
    AtParts(s, p2, "source", " ");
    assert "\nexport " == "\n" + ("export" + " ");
    AtParts(s, p3 - 1, "\n", "export" + " ");
    AtParts(s, p3, "export", " ");
  }

  lemma {:induction false} OneMoreLine(s: string, i: nat, n: nat, words: seq<string>, end: nat,
                                       lines: seq<seq<string>>, next: nat)
    requires i <= |s| && end < |s| && s[end] == '\n' && ReadCommand(s, i) == Some(Command(words, end))
    requires ReadLines(s, end + 1, n) == Some((lines, next))
    ensures ReadLines(s, i, n + 1) == Some(([words] + lines, next))
  {
    hide ReadCommand;
  }

  lemma {:induction false} PlainHome(user: string)
    requires AllPlain(user)
    ensures AllPlain(Home(user)) && AllPlain(AppRoot(user))
  {
  }

  lemma {:induction false} SetupReads(s: string, i: nat, user: string, env: string)
    requires At(s, i, Setup(user, env)) && AllPlain(user) && env != "" && AllPlain(env)
    ensures ReadLines(s, i, 3) == Some((SetupWords(user, env), i + |Setup(user, env)|))
  {
    hide At, Setup, ReadCommand, AllPlain, IsCommandName, ReadLines;
    var p2 := i + 23 + |user|;
    var p3 := p2 + 8 + |env|;
    var p4 := p3 + 27 + |user|;
    SetupPlaces(s, i, user, env);
    PlainHome(user);
    SetupCommands();
    TwoWordLine(s, i, "export", Home(user));
    TwoWordLine(s, p2, "source", env);
    TwoWordLine(s, p3, "export", AppRoot(user));
    var third := [["export", AppRoot(user)]];
    var second := [["source", env]];
    var first := [["export", Home(user)]];
    NoLines(s, p4);
    OneMoreLine(s, p3, 0, third[0], p4 - 1, [], p4);
    assert third + [] == third;
    OneMoreLine(s, p2, 1, second[0], p3 - 1, third, p4);
    OneMoreLine(s, i, 2, first[0], p2 - 1, second + third, p4);
    assert first + (second + third) == SetupWords(user, env);
  }

  lemma {:induction false} NoLines(s: string, i: nat)
    requires i <= |s|
    ensures ReadLines(s, i, 0) == Some(([], i))
  {
  }

  // ----- The inner level: the command -----

  function ArgItems(args: seq<string>): seq<Written> {
    if args == [] then [] else [Argument(args[0])] + ArgItems(args[1..])
  }

  predicate SafeArgs(args: seq<string>) {
    forall k :: 0 <= k < |args| ==> SafeArg(args[k])
  }

  lemma {:induction false} ArgItemsAre(args: seq<string>)
    ensures |ArgItems(args)| == |args| && Texts(ArgItems(args)) == ProcessedArgs(args) && Values(ArgItems(args)) == args
    ensures AllSafe(ArgItems(args)) <==> SafeArgs(args)
  {
    hide SafeArg, ProcessedArg;
    if args != [] {
      var items := ArgItems(args);
      ArgItemsAre(args[1..]);
      assert items[1..] == ArgItems(args[1..]);
      assert args == [args[0]] + args[1..];
      assert forall k :: 1 <= k < |args| ==> args[k] == args[1..][k - 1];
    }
  }

  function CommandItems(task: RunTask): seq<Written> {
    [Raw(task.path)] + ArgItems(task.args)
  }

  lemma {:induction false} NoArgsSafe()
    ensures SafeArgs([])
  {
  }

  lemma {:induction false} RawText(value: string)
    ensures Raw(value).Text() == value
  {
  }

  /** Where the words of a command line end: without arguments, before the blank behind the path. */
  function WordsEnd(task: RunTask): nat {
    if task.args == [] then |task.path| else |CommandText(task)|
  }

  lemma {:induction false} PathPlaces(s: string, p: nat, task: RunTask, tail: string)
    requires At(s, p, CommandText(task) + tail)
    ensures At(s, p, task.path) && At(s, p + |task.path|, " ") && EndsHere(s, p + |task.path|)
    ensures At(s, p + |task.path| + 1, Join(ProcessedArgs(task.args), " ")) && At(s, p + |CommandText(task)|, tail)
  {
    hide At;
    var args := Join(ProcessedArgs(task.args), " ");
    AtParts(s, p, CommandText(task), tail);
    AtParts(s, p, task.path + " ", args);
    AtParts(s, p, task.path, " ");
    AtTail(s, p + |task.path|, " ");
  }

  lemma {:induction false} CommandPlaces(s: string, p: nat, task: RunTask, tail: string)
    requires At(s, p, CommandText(task) + tail) && tail != "" && tail[0] == ' '
    ensures LineAt(s, p, CommandItems(task), p + WordsEnd(task))
    ensures Values(CommandItems(task)) == [task.path] + task.args
    ensures AllSafe(CommandItems(task)) <==> Raw(task.path).Safe() && SafeArgs(task.args)
    ensures p + WordsEnd(task) <= |s|
    ensures At(s, p + WordsEnd(task), (if task.args == [] then " " else "") + tail)
  {
    hide At, SafeArgs, LineAt, Values, AllSafe, Written.Text, Join, ProcessedArgs;
    RawText(task.path);
    ArgItemsAre(task.args);
    PathPlaces(s, p, task, tail);
    AtTail(s, p + |CommandText(task)|, tail);
    if task.args == [] {
      OneAt(s, p, Raw(task.path));
      NoArgsSafe();
      assert CommandItems(task) == [Raw(task.path)] && [task.path] + task.args == [task.path];
      assert |Join(ProcessedArgs(task.args), " ")| == 0 by { NoArgsText(); }
      AtJoined(s, p + |task.path|, " ", tail);
    } else {
      ArgsPlace(s, p + |task.path| + 1, task.args);
      OneMoreAt(s, p, Raw(task.path), ArgItems(task.args), p + WordsEnd(task));
      assert "" + tail == tail;
    }
  }

  lemma {:induction false} NoArgsText()
    ensures Join(ProcessedArgs([]), " ") == ""
  {
  }

  lemma {:induction false} ArgsPlace(s: string, p: nat, args: seq<string>)
    requires args != [] && At(s, p, Join(ProcessedArgs(args), " ")) && EndsHere(s, p + |Join(ProcessedArgs(args), " ")|)
    ensures LineAt(s, p, ArgItems(args), p + |Join(ProcessedArgs(args), " ")|)
  {
    hide At, LineAt, EndsHere, Texts, ProcessedArgs;
    ArgItemsAre(args);
    LineIsAt(s, p, ArgItems(args));
  }

  /** Behind one or two blanks, the redirection of stderr ends the words. */
  lemma {:induction false} RedirectionEnds(s: string, q: nat, blanks: string, rest: string)
    requires (blanks == "" || blanks == " ") && At(s, q, blanks + (" 2>" + rest))
    ensures ReadWords(s, q).Some? && ReadWords(s, q).value.words == [] && q <= |s|
  {
    var r := q + |blanks|;
    AtParts(s, q, blanks, " 2>" + rest);
    AtParts(s, r, " 2>", rest);
    AtTail(s, r, " 2>");
    AtTail(s, r + 1, " 2>"[1..]);
    AtTail(s, r + 2, " 2>"[1..][1..]);
    BlankSkipped(s, r);
    assert NoMoreWords(s, r + 1);
    if blanks == " " {
      AtTail(s, q, blanks);
      BlankSkipped(s, q);
    }
  }

  /**
   * The inner shell finds the path and exactly the arguments, empty ones and `k=v with blanks` included, and
   * stops in front of the redirection, if and only if the path is a plain command name and every argument is
   * safe.
   */
  lemma {:induction false} CommandExact(s: string, p: nat, task: RunTask, rest: string)
    requires At(s, p, CommandText(task) + (" 2>" + rest)) && p <= |s|
    ensures p + WordsEnd(task) <= |s|
    ensures At(s, p + WordsEnd(task), (if task.args == [] then " " else "") + (" 2>" + rest))
    ensures ReadCommand(s, p) == Some(Command([task.path] + task.args, p + WordsEnd(task)))
            <==> IsCommandName(task.path) && SafeArgs(task.args)
  {
    hide At, SafeArgs, LineAt, Values, AllSafe;
    hide ReadWords, IsCommandName, CommandItems, WordsEnd, ReadCommand, CommandText;
    var q := p + WordsEnd(task);
    CommandPlaces(s, p, task, " 2>" + rest);
    RedirectionEnds(s, q, if task.args == [] then " " else "", rest);
    assert CommandItems(task) != [] by { ItemsNotEmpty(task); }
    LineExact(s, p, CommandItems(task), q);
    var meant := Some(Command([task.path] + task.args, q));
    if ReadCommand(s, p) == meant {
      CommandIsWords(s, p);
    }
    if Raw(task.path).Safe() {
      PathPlaces(s, p, task, " 2>" + rest);
      CommandPosition(s, p, task.path);
      NameIsSafe(task.path);
    } else {
      NameIsSafe(task.path);
    }
  }

  lemma {:induction false} ItemsNotEmpty(task: RunTask)
    ensures CommandItems(task) != []
  {
  }

  lemma {:induction false} NameIsSafe(path: string)
    ensures IsCommandName(path) ==> Raw(path).Safe()
  {
  }

  // ----- Both levels -----

  lemma {:induction false} BodyPlaces(task: RunTask, files: Files)
    ensures var p := |Setup(task.user, files.env)|;
            var body := Body(task, files);
            && At(body, 0, Setup(task.user, files.env))
            && At(body, p, CommandText(task) + (" 2>" + RestOfTail(files)))
            && |body| == p + |CommandText(task)| + |Tail(files)|
  {
    hide Setup, CommandText, RestOfTail;
    var body := Body(task, files);
    assert body[0..|body|] == body;
    AtParts(body, 0, Setup(task.user, files.env), CommandText(task) + Tail(files));
  }

  /** The body of a plain user is read in two parts: the setup, and the command behind it. */
  lemma {:induction false} BodyExact(task: RunTask, files: Files)
    requires PlainFiles(files) && AllPlain(task.user)
    ensures ReadBody(Body(task, files)) == Some(Meant(task, files)) <==> IsCommandName(task.path) && SafeArgs(task.args)
  {
    hide Setup, SafeArgs, IsCommandName, CommandText, ReadLines;
    hide ReadCommand, WordsEnd, AllPlain, SetupWords, RestOfTail, Body;
    var body := Body(task, files);
    var p := |Setup(task.user, files.env)|;
    BodyPlaces(task, files);
    SetupReads(body, 0, task.user, files.env);
    CommandExact(body, p, task, RestOfTail(files));
    var q := p + WordsEnd(task);
    var tail := (if task.args == [] then " " else "") + Tail(files);
    TailIsRest(task, files);
    assert body[q..] == tail;
    var r := ReadCommand(body, p);
    if r.Some? && body[r.value.end..] == tail {
      assert r.value.end == q;
    }
  }

  lemma {:induction false} TailIsRest(task: RunTask, files: Files)
    ensures var tail := (if task.args == [] then " " else "") + Tail(files);
            |Setup(task.user, files.env)| + WordsEnd(task) + |tail| == |Body(task, files)|
  {
    hide Setup, RestOfTail;
  }

  lemma {:induction false} QuoteInArg(arg: string)
    ensures '\'' in ProcessedArg(arg) <==> '\'' in arg
  {
    if '=' in arg {
      ArgSplit(arg);
    } else {
      NoEquals(arg);
    }
  }

  predicate NoQuotes(args: seq<string>) {
    forall k :: 0 <= k < |args| ==> '\'' !in args[k]
  }

  lemma {:induction false} QuoteInArgs(args: seq<string>)
    ensures '\'' !in Join(ProcessedArgs(args), " ") <==> NoQuotes(args)
  {
    hide ProcessedArg;
    if args != [] {
      QuoteInArg(args[0]);
      QuoteInArgs(args[1..]);
      assert ProcessedArgs(args)[1..] == ProcessedArgs(args[1..]);
      assert forall k :: 1 <= k < |args| ==> args[k] == args[1..][k - 1];
    }
  }

  lemma {:induction false} PlainHasNoQuote(s: string)
    requires AllPlain(s)
    ensures '\'' !in s
  {
  }

  lemma {:induction false} QuoteInSetup(user: string, env: string)
    requires '\'' !in user && '\'' !in env
    ensures '\'' !in Setup(user, env)
  {
  }

  lemma {:induction false} QuoteInTail(files: Files)
    requires PlainFiles(files)
    ensures '\'' !in Tail(files)
  {
    hide AllPlain;
    PlainHasNoQuote(files.err);
    PlainHasNoQuote(files.pid);
    PlainHasNoQuote(files.exit);
  }

  lemma {:induction false} QuoteInBody(task: RunTask, files: Files)
    requires PlainFiles(files) && AllPlain(task.user) && AllPlain(task.path)
    ensures '\'' !in Body(task, files) <==> NoQuotes(task.args)
  {
    hide AllPlain, NoQuotes, Setup, Tail;
    PlainHasNoQuote(task.user);
    PlainHasNoQuote(task.path);
    PlainHasNoQuote(files.env);
    QuoteInSetup(task.user, files.env);
    QuoteInTail(files);
    QuoteInArgs(task.args);
  }

  /**
   * The two-level round trip. The outer shell hands `su -c` exactly the body that was written, and the inner
   * shell reads there the export and source commands, then exactly the path and the arguments, then the
   * redirection and the recording of pid and status untouched, if and only if: the user is plain text or
   * empty, the path is a plain command name, and each argument has no single quote and is plain up to its
   * first `=` and free of expansion behind it.
   */
  lemma {:induction false} ScriptExact(task: RunTask, files: Files)
    requires PlainFiles(files)
    ensures var script, body := ScriptText(task, files), Body(task, files);
            && ReadWords(script, |HEADER|) == Some(Command(OuterWords(task.user, body), |script| - 2))
            && ReadBody(body) == Some(Meant(task, files))
            <==> SafeTask(task)
  {
    hide AllPlain, SafeArg, IsCommandName, Body, ReadWords, ReadBody, Meant, OuterText, OuterWords;
    var script, body := ScriptText(task, files), Body(task, files);
    assert script[0..|script|] == script;
    AtParts(script, 0, HEADER, OuterText(task.user, body));
    OuterLength(task.user, body);
    OuterExact(script, |HEADER|, task.user, body);
    if AllPlain(task.user) {
      BodyExact(task, files);
      if IsCommandName(task.path) {
        NamePlain(task.path);
        QuoteInBody(task, files);
      }
    }
  }

  lemma {:induction false} OuterLength(user: string, body: string)
    ensures |OuterText(user, body)| == 13 + |user| + |body|
  {
  }

  lemma {:induction false} NamePlain(name: string)
    requires IsCommandName(name)
    ensures AllPlain(name)
  {
  }
}
