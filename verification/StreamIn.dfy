/** The StreamIn handler: a state machine over an arbitrary sequence of path, user and content messages. */
module StreamIn {
  import opened Wrappers

  datatype Part = PathPart(path: string) | UserPart(user: string) | ContentPart(content: string) | EmptyPart

  /** How the client's stream ends after the given messages. */
  datatype End = Eof | RecvError

  /**
   * What the surroundings answer: whether the share can be mounted, the name of the extract file if it can
   * be created, whether the write number k succeeds, and whether the three tasks can be dispatched.
   */
  datatype Host = Host(mountOk: bool, prepared: Option<string>, writeOk: nat -> bool, dispatchOk: bool)

  datatype Event =
    | Mounted(ok: bool)
    | Prepared(created: Option<string>)
    | Wrote(data: string, ok: bool)
    | Dispatched(file: string, path: string, user: string, ok: bool)
    | FileClosed
    | Unmounted

  datatype Reply = Replied | RecvFailed | MountFailed | NoFilePrepared | WriteFailed | DispatchFailed

  /** The handler's variables; `file` stands for fileToExtract and filePath, which PrepareExtractFile sets together. */
  datatype Session = Session(path: string, user: string, started: bool, mounted: bool, file: Option<string>,
                             writes: nat, trace: seq<Event>)

  const INITIAL := Session("", "", false, false, None, 0, [])

  /** One turn of the loop either goes on or returns. */
  datatype Turn = Next(session: Session) | Return(reply: Reply, session: Session)

  // ----- The specification -----

  function Note(s: Session, part: Part): Session {
    match part
    case PathPart(p) => s.(path := p)
    case UserPart(u) => s.(user := u)
    case _ => s
  }

  function Start(host: Host, s: Session): Turn {
    if s.started || s.path == "" || s.user == "" then Next(s)
    else if !host.mountOk then Return(MountFailed, s.(started := true, trace := s.trace + [Mounted(false)]))
    else Next(s.(started := true, mounted := true, file := host.prepared,
                 trace := s.trace + [Mounted(true), Prepared(host.prepared)]))
  }

  function Write(host: Host, s: Session, data: string): Turn {
    if s.file.None? then Return(NoFilePrepared, s)
    else
      var ok := host.writeOk(s.writes);
      var s' := s.(writes := s.writes + 1, trace := s.trace + [Wrote(data, ok)]);
      if ok then Next(s') else Return(WriteFailed, s')
  }

  function TurnOn(host: Host, s: Session, part: Part): Turn {
    match Start(host, Note(s, part))
    case Return(reply, s') => Return(reply, s')
    case Next(s') => if part.ContentPart? then Write(host, s', part.content) else Next(s')
  }

  function After(host: Host, parts: seq<Part>): Turn {
    if parts == [] then Next(INITIAL)
    else
      match After(host, parts[..|parts| - 1])
      case Return(reply, s) => Return(reply, s)
      case Next(s) => TurnOn(host, s, parts[|parts| - 1])
  }

  /** The deferred calls, last deferred first: the file is closed before the share is unmounted. */
  function Deferred(mounted: bool, file: Option<string>): seq<Event> {
    if !mounted then [] else if file.Some? then [FileClosed, Unmounted] else [Unmounted]
  }

  /** What follows the loop. */
  function Finish(host: Host, s: Session, end: End): (Reply, Session) {
    if end == RecvError then (RecvFailed, s)
    else if s.started && s.file.Some? && s.file.value != "" then
      (if host.dispatchOk then Replied else DispatchFailed,
       s.(trace := s.trace + [Dispatched(s.file.value, s.path, s.user, host.dispatchOk)]))
    else (Replied, s)
  }

  /** The reply and everything that was done, in order. */
  function Handled(host: Host, parts: seq<Part>, end: End): (Reply, seq<Event>) {
    var (reply, s) := match After(host, parts)
                      case Return(reply, s) => (reply, s)
                      case Next(s) => Finish(host, s, end);
    (reply, s.trace + Deferred(s.mounted, s.file))
  }

  // ----- The loop -----

  lemma {:induction false} ReturnIsFinal(host: Host, parts: seq<Part>, k: nat)
    requires k <= |parts| && After(host, parts[..k]).Return?
    ensures After(host, parts) == After(host, parts[..k])
    decreases |parts|
  {
    if k < |parts| {
      assert parts[..|parts| - 1][..k] == parts[..k];
      ReturnIsFinal(host, parts[..|parts| - 1], k);
    } else {
      assert parts[..k] == parts;
    }
  }

  lemma {:induction false} AfterNothing(host: Host, parts: seq<Part>)
    ensures After(host, parts[..0]) == Next(INITIAL)
  {
  }

  lemma {:induction false} NextTurn(host: Host, parts: seq<Part>, i: nat, s: Session)
    requires i < |parts| && After(host, parts[..i]) == Next(s)
    ensures After(host, parts[..i + 1]) == TurnOn(host, s, parts[i])
    ensures TurnOn(host, s, parts[i]).Return? ==> After(host, parts) == TurnOn(host, s, parts[i])
  {
    assert parts[..i + 1][..i] == parts[..i] && parts[..i + 1][i] == parts[i];
    if TurnOn(host, s, parts[i]).Return? {
      ReturnIsFinal(host, parts, i + 1);
    }
  }

  /** The handler, with its own variables and its own early returns. */
  method StreamIn(host: Host, parts: seq<Part>, end: End) returns (reply: Reply, trace: seq<Event>)
    ensures (reply, trace) == Handled(host, parts, end)
  {
    hide After;
    AfterNothing(host, parts);
    var path, user, started, fileToExtract, writes := "", "", false, None, 0;
    var mounted := false;
    trace := [];
    for i := 0 to |parts|
      invariant After(host, parts[..i]) == Next(Session(path, user, started, mounted, fileToExtract, writes, trace))
    {
      NextTurn(host, parts, i, Session(path, user, started, mounted, fileToExtract, writes, trace));
      var part := parts[i];
      if part.PathPart? {
        path := part.path;
      }
      if part.UserPart? {
        user := part.user;
      }
      if !started && path != "" && user != "" {
        started := true;
        if !host.mountOk {
          trace := trace + [Mounted(false)];
          return MountFailed, trace + Deferred(mounted, fileToExtract);
        }
        mounted := true;
        fileToExtract := host.prepared;
        trace := trace + [Mounted(true), Prepared(host.prepared)];
      }
      if part.ContentPart? {
        if fileToExtract.None? {
          return NoFilePrepared, trace + Deferred(mounted, fileToExtract);
        }
        var ok := host.writeOk(writes);
        writes := writes + 1;
        trace := trace + [Wrote(part.content, ok)];
        if !ok {
          return WriteFailed, trace + Deferred(mounted, fileToExtract);
        }
      }
    }
    assert parts[..|parts|] == parts;
    if end == RecvError {
      return RecvFailed, trace + Deferred(mounted, fileToExtract);
    }
    if started && fileToExtract.Some? && fileToExtract.value != "" {
      trace := trace + [Dispatched(fileToExtract.value, path, user, host.dispatchOk)];
      if !host.dispatchOk {
        return DispatchFailed, trace + Deferred(mounted, fileToExtract);
      }
    }
    return Replied, trace + Deferred(mounted, fileToExtract);
  }

  // ----- What the messages say, independently of the loop -----

  function LastPath(parts: seq<Part>): string {
    if parts == [] then ""
    else
      var last := parts[|parts| - 1];
      if last.PathPart? then last.path else LastPath(parts[..|parts| - 1])
  }

  function LastUser(parts: seq<Part>): string {
    if parts == [] then ""
    else
      var last := parts[|parts| - 1];
      if last.UserPart? then last.user else LastUser(parts[..|parts| - 1])
  }

  /** At some point so far a path and a user were both known. */
  predicate Introduced(parts: seq<Part>) {
    exists k :: 0 <= k <= |parts| && LastPath(parts[..k]) != "" && LastUser(parts[..k]) != ""
  }

  function Contents(parts: seq<Part>): seq<string> {
    if parts == [] then []
    else
      var last := parts[|parts| - 1];
      Contents(parts[..|parts| - 1]) + if last.ContentPart? then [last.content] else []
  }

  function AllWritten(contents: seq<string>): seq<Event> {
    seq(|contents|, k requires 0 <= k < |contents| => Wrote(contents[k], true))
  }

  /** Content came only after a path and a user, and everything it needed worked. */
  predicate ContentOk(host: Host, parts: seq<Part>, k: nat)
    requires k < |parts|
  {
    parts[k].ContentPart? ==>
      Introduced(parts[..k]) && host.prepared.Some? && host.writeOk(|Contents(parts[..k])|)
  }

  predicate Undisturbed(host: Host, parts: seq<Part>) {
    && (Introduced(parts) ==> host.mountOk)
    && forall k :: 0 <= k < |parts| ==> ContentOk(host, parts, k)
  }

  /** What an undisturbed loop has done. */
  function Deeds(host: Host, parts: seq<Part>): seq<Event> {
    if Introduced(parts) then [Mounted(true), Prepared(host.prepared)] + AllWritten(Contents(parts)) else []
  }

  lemma {:induction false} IntroducedStep(parts: seq<Part>)
    requires parts != []
    ensures Introduced(parts) <==> Introduced(parts[..|parts| - 1]) || (LastPath(parts) != "" && LastUser(parts) != "")
  {
    var p := parts[..|parts| - 1];
    assert parts[..|parts|] == parts;
    assert forall k :: 0 <= k <= |p| ==> p[..k] == parts[..k];
    if Introduced(parts) {
      var k :| 0 <= k <= |parts| && LastPath(parts[..k]) != "" && LastUser(parts[..k]) != "";
      assert k <= |p| ==> LastPath(p[..k]) != "";
    }
    if Introduced(p) {
      var k :| 0 <= k <= |p| && LastPath(p[..k]) != "" && LastUser(p[..k]) != "";
      assert LastPath(parts[..k]) != "" && LastUser(parts[..k]) != "";
    }
  }

  lemma {:induction false} UndisturbedStep(host: Host, parts: seq<Part>)
    requires parts != []
    ensures Undisturbed(host, parts) <==>
      Undisturbed(host, parts[..|parts| - 1]) && (Introduced(parts) ==> host.mountOk) && ContentOk(host, parts, |parts| - 1)
  {
    var p := parts[..|parts| - 1];
    IntroducedStep(parts);
    assert forall k :: 0 <= k < |p| ==> p[..k] == parts[..k];
    assert forall k :: 0 <= k < |p| ==> (ContentOk(host, p, k) <==> ContentOk(host, parts, k));
  }

  /** Before any introduction there is nothing to mount, to write or to close. */
  lemma {:induction false} ContentsNeedIntroduction(host: Host, parts: seq<Part>)
    requires Undisturbed(host, parts) && !Introduced(parts)
    ensures Contents(parts) == []
  {
    if parts != [] {
      UndisturbedStep(host, parts);
      IntroducedStep(parts);
      ContentsNeedIntroduction(host, parts[..|parts| - 1]);
    }
  }

  /** The session that an undisturbed loop has come to. */
  function Reached(host: Host, parts: seq<Part>): Session {
    Session(LastPath(parts), LastUser(parts), Introduced(parts), Introduced(parts),
            if Introduced(parts) then host.prepared else None, |Contents(parts)|, Deeds(host, parts))
  }

  lemma {:induction false} AfterExact(host: Host, parts: seq<Part>)
    ensures After(host, parts).Next? <==> Undisturbed(host, parts)
    ensures Undisturbed(host, parts) ==> After(host, parts) == Next(Reached(host, parts))
  {
    if parts == [] {
      assert !Introduced(parts) by { assert forall k :: 0 <= k <= |parts| ==> parts[..k] == []; }
    } else {
      var p := parts[..|parts| - 1];
      AfterExact(host, p);
      UndisturbedStep(host, parts);
      IntroducedStep(parts);
      if Undisturbed(host, p) {
        if !Introduced(p) {
          ContentsNeedIntroduction(host, p);
        }
        TurnExact(host, parts);
      }
    }
  }

  lemma {:induction false} KnownIsIntroduced(parts: seq<Part>)
    requires LastPath(parts) != "" && LastUser(parts) != ""
    ensures Introduced(parts)
  {
    assert parts[..|parts|] == parts;
  }

  lemma {:induction false} TurnExact(host: Host, parts: seq<Part>)
    requires parts != [] && Undisturbed(host, parts[..|parts| - 1])
    requires !Introduced(parts[..|parts| - 1]) ==> Contents(parts[..|parts| - 1]) == []
    requires Introduced(parts) <==>
      Introduced(parts[..|parts| - 1]) || (LastPath(parts) != "" && LastUser(parts) != "")
    requires Introduced(parts[..|parts| - 1]) ==> host.mountOk
    ensures var turn := TurnOn(host, Reached(host, parts[..|parts| - 1]), parts[|parts| - 1]);
            && (turn.Next? <==> (Introduced(parts) ==> host.mountOk) && ContentOk(host, parts, |parts| - 1))
            && (turn.Next? ==> turn == Next(Reached(host, parts)))
  {
    hide Introduced, Undisturbed;
    var p, last := parts[..|parts| - 1], parts[|parts| - 1];
    if LastPath(p) != "" && LastUser(p) != "" {
      KnownIsIntroduced(p);
    }
    var s := Reached(host, p);
    var deeds := Deeds(host, p);
    if last.ContentPart? {
      assert AllWritten(Contents(parts)) == AllWritten(Contents(p)) + [Wrote(last.content, true)];
    } else {
      assert Contents(parts) == Contents(p);
      assert [Mounted(true), Prepared(host.prepared)] + AllWritten([]) == [Mounted(true), Prepared(host.prepared)];
    }
  }

  // ----- The main results -----

  /**
   * The extraction is dispatched if and only if the stream ended properly, both names were given, the share
   * was mounted, the file was created, and no content came too early or could not be written. Then this is
   * all that was done, in this order: mounted once, the file created, all content parts written in order,
   * one dispatch with the last path and the last user, the file closed, the share unmounted.
   */
  lemma {:induction false} DispatchExact(host: Host, parts: seq<Part>, end: End)
    ensures var (reply, trace) := Handled(host, parts, end);
            var dispatches := end == Eof && Undisturbed(host, parts) && Introduced(parts)
                              && host.prepared.Some? && host.prepared.value != "";
            && ((exists k :: 0 <= k < |trace| && trace[k].Dispatched?) <==> dispatches)
            && (dispatches ==>
                  && reply == (if host.dispatchOk then Replied else DispatchFailed)
                  && trace == [Mounted(true), Prepared(host.prepared)] + AllWritten(Contents(parts))
                              + [Dispatched(host.prepared.value, LastPath(parts), LastUser(parts), host.dispatchOk)]
                              + [FileClosed, Unmounted])
  {
    hide Introduced, Undisturbed, Contents, LastPath, LastUser;
    AfterExact(host, parts);
    var (reply, trace) := Handled(host, parts, end);
    if Undisturbed(host, parts) {
      var body := [Mounted(true), Prepared(host.prepared)] + AllWritten(Contents(parts));
      if end == Eof && Introduced(parts) && host.prepared.Some? && host.prepared.value != "" {
        assert trace[|body|].Dispatched?;
      }
    } else {
      NothingDispatched(host, parts);
    }
  }

  /** Nothing but mounting, preparing and writing. */
  predicate InsideLoop(trace: seq<Event>) {
    forall k :: 0 <= k < |trace| ==> !trace[k].Dispatched? && !trace[k].FileClosed? && !trace[k].Unmounted?
  }

  lemma {:induction false} TurnInsideLoop(host: Host, s: Session, part: Part)
    requires InsideLoop(s.trace)
    ensures InsideLoop(TurnOn(host, s, part).session.trace)
  {
  }

  /** The loop itself dispatches nothing and closes nothing. */
  lemma {:induction false} NothingDispatched(host: Host, parts: seq<Part>)
    ensures InsideLoop(After(host, parts).session.trace)
  {
    hide TurnOn;
    if parts != [] {
      NothingDispatched(host, parts[..|parts| - 1]);
      if After(host, parts[..|parts| - 1]).Next? {
        TurnInsideLoop(host, After(host, parts[..|parts| - 1]).session, parts[|parts| - 1]);
      }
    }
  }

  /**
   * The client is answered "ok" exactly when nothing went wrong, and that includes the case that nothing was
   * asked for.
   */
  lemma {:induction false} RepliedExact(host: Host, parts: seq<Part>, end: End)
    ensures Handled(host, parts, end).0 == Replied <==>
      && end == Eof && Undisturbed(host, parts)
      && (Introduced(parts) && host.prepared.Some? && host.prepared.value != "" ==> host.dispatchOk)
  {
    hide Introduced, Undisturbed, Contents, LastPath, LastUser;
    AfterExact(host, parts);
    NoEarlyReply(host, parts);
  }

  /** Which part disturbs the loop first decides the error: no mount, no file, or a write that failed. */
  lemma {:induction false} FailureExact(host: Host, parts: seq<Part>, end: End, k: nat)
    requires k < |parts| && Undisturbed(host, parts[..k]) && !Undisturbed(host, parts[..k + 1])
    ensures Handled(host, parts, end).0 ==
      if Introduced(parts[..k + 1]) && !host.mountOk then MountFailed
      else if !Introduced(parts[..k + 1]) || host.prepared.None? then NoFilePrepared
      else WriteFailed
  {
    hide Introduced, Undisturbed, Contents, LastPath, LastUser, After;
    var p := parts[..k + 1];
    assert p[..k] == parts[..k] && p[|p| - 1] == parts[k];
    AfterExact(host, p[..k]);
    AfterExact(host, p);
    NextTurn(host, parts, k, Reached(host, p[..k]));
    DisturbingTurn(host, p);
  }

  lemma {:induction false} DisturbingTurn(host: Host, parts: seq<Part>)
    requires parts != [] && Undisturbed(host, parts[..|parts| - 1]) && !Undisturbed(host, parts)
    ensures var turn := TurnOn(host, Reached(host, parts[..|parts| - 1]), parts[|parts| - 1]);
            turn.Return? && turn.reply ==
              if Introduced(parts) && !host.mountOk then MountFailed
              else if !Introduced(parts) || host.prepared.None? then NoFilePrepared
              else WriteFailed
  {
    hide Introduced, Contents;
    var p := parts[..|parts| - 1];
    UndisturbedStep(host, parts);
    IntroducedStep(parts);
    if LastPath(p) != "" && LastUser(p) != "" {
      KnownIsIntroduced(p);
    }
  }

  /** Without a disturbance only a broken stream makes the loop fail. */
  lemma {:induction false} RecvFailedExact(host: Host, parts: seq<Part>, end: End)
    requires Undisturbed(host, parts)
    ensures Handled(host, parts, end).0 == RecvFailed <==> end == RecvError
  {
    hide Introduced, Undisturbed, Contents, LastPath, LastUser;
    AfterExact(host, parts);
  }

  /** The client is answered with a failed dispatch exactly when the handler came to dispatch and that failed. */
  lemma {:induction false} DispatchFailedExact(host: Host, parts: seq<Part>, end: End)
    ensures Handled(host, parts, end).0 == DispatchFailed <==>
      && end == Eof && Undisturbed(host, parts) && Introduced(parts)
      && host.prepared.Some? && host.prepared.value != "" && !host.dispatchOk
  {
    hide Introduced, Undisturbed, Contents, LastPath, LastUser;
    AfterExact(host, parts);
    NoEarlyReply(host, parts);
  }

  /** The loop does not depend on how the dispatch after it turns out. */
  lemma {:induction false} LoopBeforeDispatch(host: Host, ok: bool, parts: seq<Part>)
    ensures After(host.(dispatchOk := ok), parts) == After(host, parts)
  {
    if parts != [] {
      LoopBeforeDispatch(host, ok, parts[..|parts| - 1]);
    }
  }

  lemma {:induction false} NoEarlyReply(host: Host, parts: seq<Part>)
    ensures After(host, parts).Return? ==> After(host, parts).reply != Replied && After(host, parts).reply != DispatchFailed
  {
    if parts != [] {
      NoEarlyReply(host, parts[..|parts| - 1]);
    }
  }

  /** Content before a path and a user are both known ends in an error: nothing is mounted, written or dispatched. */
  lemma {:induction false} ContentTooEarly(host: Host, parts: seq<Part>, end: End, k: nat)
    requires k < |parts| && parts[k].ContentPart? && !Introduced(parts[..k])
    ensures Handled(host, parts, end) == (NoFilePrepared, [])
  {
    var p := parts[..k + 1];
    hide Introduced;
    assert p[..k] == parts[..k] && p[k] == parts[k];
    IntroducedStep(p);
    if LastPath(p[..k]) != "" && LastUser(p[..k]) != "" {
      KnownIsIntroduced(p[..k]);
    }
    assert !Undisturbed(host, p) by { assert !ContentOk(host, p, k); }
    AfterExact(host, p);
    QuietBefore(host, p);
    ReturnIsFinal(host, parts, k + 1);
    assert After(host, parts) == After(host, p);
    var s := After(host, parts).session;
    assert s.trace + Deferred(s.mounted, s.file) == [];
  }

  lemma {:induction false} QuietBefore(host: Host, parts: seq<Part>)
    requires !Introduced(parts)
    ensures After(host, parts).session.trace == [] && !After(host, parts).session.mounted
    ensures After(host, parts).Return? ==> After(host, parts).reply == NoFilePrepared
  {
    if parts != [] {
      IntroducedStep(parts);
      QuietBefore(host, parts[..|parts| - 1]);
      AfterExact(host, parts[..|parts| - 1]);
      assert parts[..|parts|] == parts;
    }
  }

  // ----- Resources -----

  /** What a session has done follows from its variables but for the writes. */
  predicate Shaped(s: Session) {
    && (s.mounted ==> s.started && |s.trace| >= 2 && s.trace[0] == Mounted(true) && s.trace[1] == Prepared(s.file))
    && (!s.mounted ==> s.file.None? && (s.trace == [] || s.trace == [Mounted(false)]))
    && (forall k :: 2 <= k < |s.trace| ==> s.trace[k].Wrote?)
  }

  /** While the loop goes on, it has started exactly if the share is mounted, and done nothing before. */
  predicate Going(turn: Turn) {
    turn.Next? ==>
      turn.session.started == turn.session.mounted && (!turn.session.started ==> turn.session.trace == [])
  }

  lemma {:induction false} ShapeKept(host: Host, s: Session, part: Part)
    requires Shaped(s) && Going(Next(s))
    ensures Shaped(TurnOn(host, s, part).session) && Going(TurnOn(host, s, part))
  {
  }

  lemma {:induction false} SessionShape(host: Host, parts: seq<Part>)
    ensures Shaped(After(host, parts).session) && Going(After(host, parts))
  {
    hide Shaped, TurnOn;
    if parts == [] {
      InitialShape();
    } else {
      SessionShape(host, parts[..|parts| - 1]);
      if After(host, parts[..|parts| - 1]).Next? {
        ShapeKept(host, After(host, parts[..|parts| - 1]).session, parts[|parts| - 1]);
      }
    }
  }

  lemma {:induction false} InitialShape()
    ensures Shaped(INITIAL)
  {
  }

  /** The extract file was created. */
  predicate Opened(trace: seq<Event>) {
    |trace| >= 2 && trace[1].Prepared? && trace[1].created.Some?
  }

  /**
   * Resource discipline, on every way out: the share is mounted at most once and first of all; if it was
   * mounted, it is unmounted exactly once, as the very last thing; and if the extract file was created, it
   * is closed exactly once, right before that and so after every write and after the dispatch.
   */
  lemma {:induction false} ResourceDiscipline(host: Host, parts: seq<Part>, end: End)
    ensures var trace := Handled(host, parts, end).1;
            && (forall k :: 0 <= k < |trace| ==> (trace[k] == Mounted(true) ==> k == 0))
            && (forall k :: 0 <= k < |trace| ==>
                  (trace[k] == Unmounted <==> trace[0] == Mounted(true) && k == |trace| - 1))
            && (forall k :: 0 <= k < |trace| ==> (trace[k] == FileClosed <==> Opened(trace) && k == |trace| - 2))
            && (Opened(trace) ==> trace[0] == Mounted(true) && |trace| >= 4)
            && (trace != [] && trace[0] == Mounted(true) ==> |trace| >= 3)
  {
    SessionShape(host, parts);
    var s := After(host, parts).session;
    if After(host, parts).Next? {
      var s' := Finish(host, s, end).1;
      DisciplineOf(s', |s.trace|);
    } else {
      DisciplineOf(s, |s.trace|);
    }
  }

  lemma {:induction false} DisciplineOf(s: Session, n: nat)
    requires n <= |s.trace| <= n + 1 && Shaped(s.(trace := s.trace[..n]))
    requires |s.trace| == n + 1 ==> s.mounted && s.trace[n].Dispatched?
    ensures var trace := s.trace + Deferred(s.mounted, s.file);
            && (forall k :: 0 <= k < |trace| ==> (trace[k] == Mounted(true) ==> k == 0))
            && (forall k :: 0 <= k < |trace| ==>
                  (trace[k] == Unmounted <==> trace[0] == Mounted(true) && k == |trace| - 1))
            && (forall k :: 0 <= k < |trace| ==> (trace[k] == FileClosed <==> Opened(trace) && k == |trace| - 2))
            && (Opened(trace) ==> trace[0] == Mounted(true) && |trace| >= 4)
            && (trace != [] && trace[0] == Mounted(true) ==> |trace| >= 3)
  {
    var t := s.trace;
    assert forall k :: 0 <= k < n ==> t[k] == t[..n][k];
    assert forall k :: 2 <= k < |t| ==> t[k].Wrote? || t[k].Dispatched?;
  }
}
