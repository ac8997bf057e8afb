/**
 * What bash does with a task's script, from its text alone: which commands it comes to, what their parameters
 * stand for at that moment, and what they write where. The reading is independent of how the text was printed.
 */
module Bash {
  import opened Wrappers
  import opened Decimal
  import opened Strings
  import opened Tasks
  import opened ShellLexer
  import opened ShellCommands
  import opened TaskScript

  // ----- Tokens -----

  datatype Token = Word(text: string) | Descriptor(text: string) | Amp | Great | Newline

  /** Plain text, and what special parameters are written with. */
  predicate IsRunChar(c: char) {
    ClassOf(c) == Plain || c == '$' || c == '?'
  }

  predicate AllRun(s: string) {
    forall i :: 0 <= i < |s| ==> IsRunChar(s[i])
  }

  function RunLength(s: string): (n: nat)
    ensures n <= |s|
  {
    if s == "" || !IsRunChar(s[0]) then 0 else 1 + RunLength(s[1..])
  }

  function Cons(token: Token, rest: Option<seq<Token>>): Option<seq<Token>> {
    match rest
    case None => None
    case Some(tokens) => Some([token] + tokens)
  }

  /** The tokens of unquoted text; digits directly in front of `>` are the number of a file descriptor. */
  function Tokens(s: string): Option<seq<Token>> {
    if s == "" then Some([])
    else if ClassOf(s[0]) == Blank then Tokens(s[1..])
    else if s[0] == '\n' then Cons(Newline, Tokens(s[1..]))
    else if s[0] == '&' then Cons(Amp, Tokens(s[1..]))
    else if s[0] == '>' then Cons(Great, Tokens(s[1..]))
    else if !IsRunChar(s[0]) then None
    else
      var n := RunLength(s);
      var token := if n < |s| && s[n] == '>' && AllDigits(s[..n]) then Descriptor(s[..n]) else Word(s[..n]);
      Cons(token, Tokens(s[n..]))
  }

  // ----- Simple commands -----

  /** A word: plain text, or plain text with one parameter behind it. */
  datatype Term = Text(text: string) | Param(before: string, name: string)

  function ReadTerm(text: string): Option<Term> {
    var k := IndexOf(text, '$');
    if k == |text| then if AllPlain(text) then Some(Text(text)) else None
    else
      var name := text[k + 1..];
      if AllPlain(text[..k]) && (name == "!" || name == "?" || IsName(name)) then Some(Param(text[..k], name)) else None
  }

  /** The words of a command, its output redirections by descriptor, and whether it runs in the background. */
  datatype Simple = Simple(words: seq<Term>, redirects: seq<(string, Term)>, background: bool)

  const NOTHING := Simple([], [], false)

  function InFrontOf(first: Simple, rest: Option<seq<Simple>>): Option<seq<Simple>> {
    match rest
    case None => None
    case Some(commands) => Some([first] + commands)
  }

  /** The commands that these tokens make, the first of which has begun already. */
  function ReadSimple(tokens: seq<Token>, begun: Simple): Option<seq<Simple>>
    decreases |tokens|
  {
    if tokens == [] then Some(if begun == NOTHING then [] else [begun])
    else
      match tokens[0]
      case Word(text) =>
        (match ReadTerm(text)
         case None => None
         case Some(term) => ReadSimple(tokens[1..], begun.(words := begun.words + [term])))
      case Great => ReadRedirect(tokens[1..], "1", begun)
      case Descriptor(fd) =>
        if |tokens| > 1 && tokens[1] == Great then ReadRedirect(tokens[2..], fd, begun) else None
      case Amp =>
        if begun == NOTHING then None
        else InFrontOf(begun.(background := true), ReadSimple(tokens[1..], NOTHING))
      case Newline =>
        if begun == NOTHING then ReadSimple(tokens[1..], NOTHING)
        else InFrontOf(begun, ReadSimple(tokens[1..], NOTHING))
  }

  /** Behind the operator there must be a word. */
  function ReadRedirect(tokens: seq<Token>, fd: string, begun: Simple): Option<seq<Simple>>
    decreases |tokens|
  {
    if tokens == [] || !tokens[0].Word? then None
    else
      match ReadTerm(tokens[0].text)
      case None => None
      case Some(target) => ReadSimple(tokens[1..], begun.(redirects := begun.redirects + [(fd, target)]))
  }

  // ----- Running them -----

  /** What others can see of a run. */
  datatype Effect =
    | Sourced(path: string)
    | Started(words: seq<string>, stderr: string, vars: map<string, string>)
    | Waited(pid: string)
    | Wrote(path: string, content: string)

  /** The shell's variables, `$!`, `$?`, and what it has done so far. */
  datatype Shell = Shell(vars: map<string, string>, last: Option<string>, status: string, done: seq<Effect>)

  const FRESH := Shell(map[], None, "0", [])

  function Value(sh: Shell, term: Term): Option<string> {
    match term
    case Text(text) => Some(text)
    case Param(before, name) =>
      if name == "!" then if sh.last.Some? then Some(before + sh.last.value) else None
      else if name == "?" then Some(before + sh.status)
      else if name in sh.vars then Some(before + sh.vars[name])
      else None
  }

  function Expanded(sh: Shell, terms: seq<Term>): Option<seq<string>> {
    if terms == [] then Some([])
    else
      match (Value(sh, terms[0]), Expanded(sh, terms[1..]))
      case (Some(v), Some(rest)) => Some([v] + rest)
      case _ => None
  }

  function Done(sh: Shell, effect: Effect, status: string): Shell {
    sh.(done := sh.done + [effect], status := status)
  }

  /**
   * One command, where the process that is started in the background has this pid and ends with this status.
   * Reading gives up on commands that it does not know in the foreground.
   */
  function RunOne(sh: Shell, command: Simple, pid: ProcId, code: Status): Option<Shell> {
    match Expanded(sh, command.words)
    case None => None
    case Some(words) =>
      if words == [] then None
      else if command.background then
        if |command.redirects| != 1 || command.redirects[0].0 != "2" then None
        else
          match Value(sh, command.redirects[0].1)
          case None => None
          case Some(path) => Some(Done(sh, Started(words, path, sh.vars), "0").(last := Some(PrintNat(pid))))
      else if words[0] == "echo" then
        if |command.redirects| != 1 || command.redirects[0].0 != "1" then None
        else
          match Value(sh, command.redirects[0].1)
          case None => None
          case Some(path) => Some(Done(sh, Wrote(path, Join(words[1..], " ") + "\n"), "0"))
      else if command.redirects != [] || |words| != 2 then None
      else if words[0] == "export" && IndexOf(words[1], '=') < |words[1]| && IsName(words[1][..IndexOf(words[1], '=')]) then
        var k := IndexOf(words[1], '=');
        Some(sh.(vars := sh.vars[words[1][..k] := words[1][k + 1..]], status := "0"))
      else if words[0] == "source" then Some(Done(sh, Sourced(words[1]), "0"))
      else if words[0] == "wait" && sh.last == Some(words[1]) then Some(Done(sh, Waited(words[1]), PrintNat(code)))
      else None
  }

  function RunAll(sh: Shell, commands: seq<Simple>, pid: ProcId, code: Status): Option<Shell>
    decreases |commands|
  {
    if commands == [] then Some(sh)
    else
      match RunOne(sh, commands[0], pid, code)
      case None => None
      case Some(sh') => RunAll(sh', commands[1..], pid, code)
  }

  // ----- From the text -----

  function Terms(words: seq<string>): (r: seq<Term>)
    ensures |r| == |words| && forall k :: 0 <= k < |words| ==> r[k] == Text(words[k])
  {
    seq(|words|, k requires 0 <= k < |words| => Text(words[k]))
  }

  function Lines(setup: seq<seq<string>>): (r: seq<Simple>)
    ensures |r| == |setup| && forall k :: 0 <= k < |setup| ==> r[k] == Simple(Terms(setup[k]), [], false)
  {
    seq(|setup|, k requires 0 <= k < |setup| => Simple(Terms(setup[k]), [], false))
  }

  /** What a shell does that is given this body. */
  function RunBody(body: string, pid: ProcId, code: Status): Option<seq<Effect>> {
    match ReadBody(body)
    case None => None
    case Some(parsed) =>
      match Tokens(parsed.tail)
      case None => None
      case Some(tokens) =>
        match ReadSimple(tokens, Simple(Terms(parsed.words), [], false))
        case None => None
        case Some(commands) =>
          match RunAll(FRESH, Lines(parsed.setup) + commands, pid, code)
          case None => None
          case Some(sh) => Some(sh.done)
  }

  /** `su - user -c body`, where no user means root. */
  function ReadSu(words: seq<string>): Option<(string, string)> {
    if |words| == 5 && words[0] == "su" && words[1] == "-" && words[3] == "-c" then Some((words[2], words[4]))
    else if |words| == 4 && words[0] == "su" && words[1] == "-" && words[2] == "-c" then Some(("root", words[3]))
    else None
  }

  predicate OnlyWhite(s: string) {
    forall i :: 0 <= i < |s| ==> s[i] == ' ' || s[i] == '\t' || s[i] == '\n'
  }

  /** What a script does: as which user, and what. Its first line calls for bash, and the rest is one `su` command. */
  function RunScript(script: string, pid: ProcId, code: Status): Option<(string, seq<Effect>)> {
    var k := IndexOf(script, '\n');
    if k == |script| || script[..k] != "#!/bin/bash" then None
    else
      match ReadWords(script, k + 1)
      case None => None
      case Some(c) =>
        match ReadSu(c.words)
        case None => None
        case Some((user, body)) =>
          if !OnlyWhite(script[c.end..]) then None
          else
            match RunBody(body, pid, code)
            case None => None
            case Some(effects) => Some((user, effects))
  }
}
