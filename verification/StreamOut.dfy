/** The StreamOut handler: wait for the tar task, then copy the archive to the client in chunks. */
module StreamOut {
  import opened Wrappers
  import opened Tasks
  import opened Naming
  import opened Protocol
  import opened ProtocolInvariant
  import opened ProtocolPreserved
  import opened Runs
  import opened Ordering
  import opened Polling
  import opened Overtaking
  import opened WaitLoops

  // ----- The copy loop -----

  /** The size of the reused read buffer. */
  const BUFFER_SIZE: nat := 32 * 1024 * 1024

  /**
   * What one round of the copy loop meets: the archive as it is at this read, how many bytes the file
   * system is willing to hand over at once, whether the read fails, and what the send answers.
   */
  datatype Round = Round(content: string, offer: nat, readFails: bool, send: SendResult)

  datatype CopyOutcome = ReachedEof | SendEofSeen | ReadFailed | SendRefused | StillCopying

  /** The number of bytes os.File.Read returns: at least one unless the end is reached. */
  function ReadSize(r: Round, offset: nat): nat {
    if offset >= |r.content| then 0
    else
      var left := |r.content| - offset;
      var most := if r.offer == 0 then 1 else r.offer;
      if left <= most && left <= BUFFER_SIZE then left else if most <= BUFFER_SIZE then most else BUFFER_SIZE
  }

  /** The loop from a position in the file, followed for as many rounds as are given: what it sends, and how it ends. */
  function Copied(rounds: seq<Round>, offset: nat): (seq<string>, CopyOutcome) {
    if rounds == [] then ([], StillCopying)
    else if rounds[0].readFails then ([], ReadFailed)
    else
      var n := ReadSize(rounds[0], offset);
      if n == 0 then ([], ReachedEof)
      else
        match rounds[0].send
        case SendFailed => ([], SendRefused)
        case SendEof => ([], SendEofSeen)
        case SendOk =>
          var rest := Copied(rounds[1..], offset + n);
          ([rounds[0].content[offset..offset + n]] + rest.0, rest.1)
  }

  /** os.File.Read into the buffer: it overwrites the first n places and leaves the others. */
  method ReadInto(data: array<char>, r: Round, offset: nat) returns (n: nat)
    requires data.Length == BUFFER_SIZE
    modifies data
    ensures n == ReadSize(r, offset) <= data.Length
    ensures n > 0 ==> offset + n <= |r.content| && data[..n] == r.content[offset..offset + n]
    ensures data[n..] == old(data[n..])
  {
    n := ReadSize(r, offset);
    for i := 0 to n
      invariant i > 0 ==> data[..i] == r.content[offset..offset + i]
      invariant data[n..] == old(data[n..])
    {
      data[i] := r.content[offset + i];
    }
  }

  method CopyLoop(rounds: seq<Round>, data: array<char>) returns (chunks: seq<string>, outcome: CopyOutcome)
    requires data.Length == BUFFER_SIZE
    modifies data
    ensures (chunks, outcome) == Copied(rounds, 0)
  {
    chunks := [];
    var offset := 0;
    var i := 0;
    assert rounds[0..] == rounds;
    while i < |rounds|
      invariant 0 <= i <= |rounds|
      invariant Copied(rounds, 0).0 == chunks + Copied(rounds[i..], offset).0
      invariant Copied(rounds, 0).1 == Copied(rounds[i..], offset).1
    {
      var r := rounds[i];
      assert rounds[i..][0] == r && rounds[i..][1..] == rounds[i + 1..] && chunks + [] == chunks;
      if r.readFails {
        return chunks, ReadFailed;
      }
      var n := ReadInto(data, r, offset);
      if n == 0 {
        return chunks, ReachedEof;
      }
      var response := data[..n];
      if r.send != SendOk {
        return chunks, if r.send == SendEof then SendEofSeen else SendRefused;
      }
      chunks, offset, i := chunks + [response], offset + n, i + 1;
    }
    assert rounds[i..] == [] && chunks + [] == chunks;
    return chunks, StillCopying;
  }

  // ----- What the client has received -----

  function Flatten(chunks: seq<string>): string {
    if chunks == [] then "" else chunks[0] + Flatten(chunks[1..])
  }

  /** Each read sees the file as it was or longer. */
  predicate Growing(rounds: seq<Round>) {
    forall j, k :: 0 <= j <= k < |rounds| ==> rounds[j].content <= rounds[k].content
  }

  lemma {:induction false} GrowingTail(rounds: seq<Round>)
    requires rounds != [] && Growing(rounds)
    ensures Growing(rounds[1..]) && (forall k :: 1 <= k < |rounds| ==> rounds[1..][k - 1] == rounds[k])
    ensures |rounds| > 1 ==> rounds[0].content <= rounds[1].content
  {
  }

  /** Round k reads and sends without an error. */
  predicate Works(r: Round) {
    !r.readFails && r.send == SendOk
  }

  /**
   * The loop makes one round for every chunk, all of them without an error, and one more if something ends it:
   * a failing read, an empty one, or a send that does not go through.
   */
  lemma {:induction false} RoundsUsed(rounds: seq<Round>, offset: nat)
    ensures var (chunks, outcome) := Copied(rounds, offset);
            && |chunks| <= |rounds|
            && (outcome == StillCopying <==> |chunks| == |rounds|)
            && (forall k :: 0 <= k < |chunks| ==> 0 < |chunks[k]| <= 0x200_0000 && Works(rounds[k]))
            && (|chunks| < |rounds| ==>
                  var r := rounds[|chunks|];
                  && (outcome == ReadFailed <==> r.readFails)
                  && (outcome == SendRefused ==> r.send == SendFailed)
                  && (outcome == SendEofSeen ==> r.send == SendEof)
                  && (!r.readFails && r.send == SendOk ==> outcome == ReachedEof))
  {
    if rounds != [] && Copied(rounds, offset).0 != [] {
      RoundsUsed(rounds[1..], offset + ReadSize(rounds[0], offset));
      assert forall k :: 1 <= k < |rounds| ==> rounds[k] == rounds[1..][k - 1];
    }
  }

  lemma {:induction false} NextPrefix(p: string, content: string, n: nat)
    requires p <= content && |p| + n <= |content|
    ensures p + content[|p|..|p| + n] == content[..|p| + n] <= content
  {
  }

  lemma {:induction false} PrefixOfLater(p: string, c: string, c': string)
    requires p <= c <= c'
    ensures p <= c'
  {
  }

  lemma {:induction false} FirstRound(rounds: seq<Round>, offset: nat)
    requires rounds != []
    ensures var (r, n) := (rounds[0], ReadSize(rounds[0], offset));
            var (chunks, outcome) := Copied(rounds, offset);
            if chunks == [] then outcome == ReachedEof ==> n == 0
            else
              && n > 0 && offset + n <= |r.content| && outcome == Copied(rounds[1..], offset + n).1
              && chunks == [r.content[offset..offset + n]] + Copied(rounds[1..], offset + n).0
  {
  }

  lemma {:induction false} FlattenFirst(p: string, first: string, rest: seq<string>)
    ensures p + Flatten([first] + rest) == p + first + Flatten(rest) && p + Flatten([]) == p
  {
    assert ([first] + rest)[1..] == rest;
    assert p + (first + Flatten(rest)) == p + first + Flatten(rest);
  }

  /**
   * Whatever the chunk sizes, what has been sent continues what was sent before along the archive, as any
   * later round k sees it; when the loop leaves on the end of the file, the whole archive as the last round
   * saw it has been sent.
   */
  lemma {:induction false} SendsPrefix(rounds: seq<Round>, p: string, k: nat)
    requires Growing(rounds) && |Copied(rounds, |p|).0| <= k < |rounds| && p <= rounds[0].content
    ensures var (chunks, outcome) := Copied(rounds, |p|);
            && p + Flatten(chunks) <= rounds[k].content
            && (outcome == ReachedEof && k == |chunks| ==> p + Flatten(chunks) == rounds[k].content)
  {
    hide ReadSize, Growing, Copied, Flatten;
    var chunks := Copied(rounds, |p|).0;
    var n := ReadSize(rounds[0], |p|);
    FirstRound(rounds, |p|);
    if chunks != [] {
      var first := rounds[0].content[|p|..|p| + n];
      NextPrefix(p, rounds[0].content, n);
      GrowingTail(rounds);
      PrefixOfLater(p + first, rounds[0].content, rounds[1].content);
      SendsPrefix(rounds[1..], p + first, k - 1);
      FlattenFirst(p, first, Copied(rounds[1..], |p| + n).0);
    } else {
      FirstIsPrefix(rounds, p);
      FlattenFirst(p, "", []);
      AtEnd(rounds[0], |p|);
    }
  }

  lemma {:induction false} AtEnd(r: Round, offset: nat)
    ensures ReadSize(r, offset) == 0 <==> offset >= |r.content|
  {
  }

  lemma {:induction false} FirstIsPrefix(rounds: seq<Round>, p: string)
    requires rounds != [] && Growing(rounds) && p <= rounds[0].content
    ensures forall k :: 0 <= k < |rounds| ==> p <= rounds[k].content
  {
    forall k | 0 <= k < |rounds| ensures p <= rounds[k].content {
      PrefixOfLater(p, rounds[0].content, rounds[k].content);
    }
  }

  // ----- On the running protocol -----

  /** The reads are made on an execution, one after the other, none before state `from`. */
  ghost predicate ReadsArchive(e: Execution, t: Tid, rounds: seq<Round>, readAt: seq<nat>, from: nat) {
    && |readAt| == |rounds|
    && (forall k :: 0 <= k < |rounds| ==> from <= readAt[k] < |e.states|)
    && (forall j, k :: 0 <= j <= k < |rounds| ==> readAt[j] <= readAt[k])
    && (forall k :: 0 <= k < |rounds| ==> rounds[k].content == ArchiveContent(e.states[readAt[k]], t))
  }

  lemma ArchivePrefix(e: Execution, t: Tid, i: nat, j: nat)
    requires IsExecution(e) && i <= j < |e.states|
    ensures ArchiveContent(e.states[i], t) <= ArchiveContent(e.states[j], t)
  {
    Monotone(e, i, j);
    assert ArchiveGrows(e.states[i], e.states[j], t);
  }

  lemma ReadsGrow(e: Execution, t: Tid, rounds: seq<Round>, readAt: seq<nat>, from: nat)
    requires IsExecution(e) && ReadsArchive(e, t, rounds, readAt, from)
    ensures Growing(rounds)
  {
    forall j, k | 0 <= j <= k < |rounds| ensures rounds[j].content <= rounds[k].content {
      ArchivePrefix(e, t, readAt[j], readAt[k]);
    }
  }

  /** In any interleaving, what the client has been sent is the beginning of what the archive ends up as. */
  lemma PrefixDelivered(e: Execution, t: Tid, rounds: seq<Round>, readAt: seq<nat>, m: nat)
    requires IsExecution(e) && ReadsArchive(e, t, rounds, readAt, 0)
    requires m < |e.states| && forall k :: 0 <= k < |rounds| ==> readAt[k] <= m
    ensures Flatten(Copied(rounds, 0).0) <= ArchiveContent(e.states[m], t)
  {
    hide Copied, Flatten, ReadsArchive, Growing;
    var chunks := Copied(rounds, 0).0;
    // One more read, in state m, sees all that was sent.
    var last := Round(ArchiveContent(e.states[m], t), 0, true, SendOk);
    OneMoreRead(e, t, rounds, readAt, m, last);
    ReadsGrow(e, t, rounds + [last], readAt + [m], 0);
    CopiedMore(rounds, last, 0);
    SendsPrefix(rounds + [last], "", |rounds|);
    assert "" + Flatten(chunks) == Flatten(chunks);
  }

  lemma OneMoreRead(e: Execution, t: Tid, rounds: seq<Round>, readAt: seq<nat>, m: nat, last: Round)
    requires ReadsArchive(e, t, rounds, readAt, 0)
    requires m < |e.states| && forall k :: 0 <= k < |rounds| ==> readAt[k] <= m
    requires last.content == ArchiveContent(e.states[m], t)
    ensures ReadsArchive(e, t, rounds + [last], readAt + [m], 0)
  {
  }

  lemma {:induction false} CopiedMore(rounds: seq<Round>, last: Round, offset: nat)
    requires last.readFails
    ensures Copied(rounds + [last], offset).0 == Copied(rounds, offset).0
    ensures |Copied(rounds, offset).0| <= |rounds|
  {
    if rounds != [] {
      CopiedMore(rounds[1..], last, offset + ReadSize(rounds[0], offset));
      assert (rounds + [last])[1..] == rounds[1..] + [last];
    }
  }

  /**
   * Stream-out delivers the archive: once a poll of the wait has reported that the tar task exited, a copy
   * loop that leaves on the end of the file has sent the archive exactly as tar left it, for any length and
   * any chunk sizes, then and ever after; and the mkdir task of the same dispatch had finished before tar
   * was started.
   */
  lemma ArchiveDelivered(e: Execution, t: Tid, statAt: nat, waitedAt: nat, access: Access,
                         rounds: seq<Round>, readAt: seq<nat>, m: nat)
    requires IsExecution(e) && statAt <= waitedAt <= m < |e.states|
    requires PollTask(e.states[statAt], e.states[waitedAt], t, access).response.exited
    requires ReadsArchive(e, t, rounds, readAt, waitedAt)
    requires Known(e.states[waitedAt], t) && t.index == 1 && JobOf(e.states[waitedAt], t).step == Step.StreamOut
    requires JobOf(e.states[waitedAt], Tid(t.client, 0)).step == Step.StreamOut
    ensures Copied(rounds, 0).1 == ReachedEof ==> Flatten(Copied(rounds, 0).0) == ArchiveContent(e.states[m], t)
    ensures var s, mkdir := e.states[waitedAt], Tid(t.client, 0);
            Retired(s, mkdir) && Finished(s.procs[mkdir]) && Reported(s, mkdir)
  {
    PollIsSound(e, statAt, waitedAt, t, access);
    DispatchInOrder(e, waitedAt, Tid(t.client, 0), t);
    var (chunks, outcome) := Copied(rounds, 0);
    if outcome == ReachedEof {
      ReadsGrow(e, t, rounds, readAt, waitedAt);
      RoundsUsed(rounds, 0);
      SendsPrefix(rounds, "", |chunks|);
      assert "" + Flatten(chunks) == Flatten(chunks);
      ExitMeansArchiveFinal(e, statAt, waitedAt, readAt[|chunks|], t, access);
      ExitMeansArchiveFinal(e, statAt, waitedAt, m, t, access);
    }
  }

  /** Another execution that goes on from state m of this one. */
  ghost predicate GoesOn(e: Execution, m: nat, e': Execution) {
    && IsExecution(e')
    && m < |e.states| && m < |e'.states| && e'.states[m] == e.states[m]
  }

  lemma CutIsExecution(e: Execution, m: nat)
    requires IsExecution(e) && m < |e.states|
    ensures m < |e.states[..m + 1]| && m <= |e.actions| && IsExecution(Execution(e.states[..m + 1], e.actions[..m]))
  {
  }

  /**
   * Wherever an execution goes on from a state, the archive stays as it is there, if and only if its command
   * has returned.
   */
  lemma ArchiveFinalExact(e: Execution, m: nat, t: Tid)
    requires IsExecution(e) && m < |e.states| && Name(ArchiveFile, t) in e.states[m].share
    ensures t in e.states[m].procs
    ensures (forall e' :: GoesOn(e, m, e') ==> ArchiveContent(Last(e'), t) == ArchiveContent(e.states[m], t))
            <==> var phase := e.states[m].procs[t].phase; phase.Returned? || phase.ExitOpen? || phase.Complete?
  {
    hide IsExecution, Inv, ArchiveContent, ArchiveOk;
    ReachableInv(e, m);
    ArchiveThere(e.states[m], t);
    if MayEmit(e.states[m].procs[t]) {
      var e' := LongerArchive(e, m, t);
    } else {
      forall e' | GoesOn(e, m, e') ensures ArchiveContent(Last(e'), t) == ArchiveContent(e.states[m], t) {
        FinalWhereverItGoes(e, m, e', t);
      }
    }
  }

  lemma LongerArchive(e: Execution, m: nat, t: Tid) returns (e': Execution)
    requires IsExecution(e) && m < |e.states| && ArchiveOk(e.states[m], t) && MayEmit(e.states[m].procs[t])
    ensures GoesOn(e, m, e') && ArchiveContent(Last(e'), t) != ArchiveContent(e.states[m], t)
  {
    hide IsExecution, ArchiveContent, MayEmit, ArchiveOk, Extended;
    CutIsExecution(e, m);
    e' := MoreEmitted(Execution(e.states[..m + 1], e.actions[..m]), t, "x");
  }

  lemma FinalWhereverItGoes(e: Execution, m: nat, e': Execution, t: Tid)
    requires GoesOn(e, m, e') && t in e.states[m].procs && !MayEmit(e.states[m].procs[t])
    ensures e'.states != [] && ArchiveContent(Last(e'), t) == ArchiveContent(e.states[m], t)
  {
    hide IsExecution, ArchiveContent;
    Monotone(e', m, |e'.states| - 1);
    assert ArchiveGrows(e'.states[m], Last(e'), t);
  }

  lemma ArchiveThere(s: State, t: Tid)
    requires Inv(s) && Name(ArchiveFile, t) in s.share
    ensures ArchiveOk(s, t)
  {
  }

  lemma MoreEmitted(e: Execution, t: Tid, data: string) returns (e': Execution)
    requires IsExecution(e) && ArchiveOk(Last(e), t) && MayEmit(Last(e).procs[t]) && data != ""
    ensures IsExecution(e') && e' == Extended(e, ProcStep(t, Emit(data)))
    ensures |e'.states| == |e.states| + 1
    ensures e'.states[|e.states| - 1] == Last(e) && Last(e').procs == Last(e).procs && Last(e').clients == Last(e).clients
    ensures ArchiveContent(Last(e'), t) == ArchiveContent(Last(e), t) + data
    ensures ArchiveContent(Last(e'), t) != ArchiveContent(Last(e), t)
  {
    ExtendedIsExecution(e, ProcStep(t, Emit(data)));
    e' := Extended(e, ProcStep(t, Emit(data)));
    assert |ArchiveContent(Last(e'), t)| == |ArchiveContent(Last(e), t)| + |data|;
  }

  /**
   * When the loop has left on the end of the file, what was sent is the archive for good, wherever the
   * execution goes on, if and only if tar had returned at the last read. An observed exit is enough for that;
   * an expired wait is not.
   */
  lemma DeliveredForGood(e: Execution, t: Tid, rounds: seq<Round>, readAt: seq<nat>)
    requires IsExecution(e) && ReadsArchive(e, t, rounds, readAt, 0) && Copied(rounds, 0).1 == ReachedEof
    requires |Copied(rounds, 0).0| < |rounds|
    requires Name(ArchiveFile, t) in e.states[readAt[|Copied(rounds, 0).0|]].share
    ensures var m := readAt[|Copied(rounds, 0).0|];
            && t in e.states[m].procs
            && ((forall e' :: GoesOn(e, m, e') ==> ArchiveContent(Last(e'), t) == Flatten(Copied(rounds, 0).0))
                <==> var phase := e.states[m].procs[t].phase; phase.Returned? || phase.ExitOpen? || phase.Complete?)
  {
    hide Copied, Flatten, IsExecution, Growing;
    var chunks := Copied(rounds, 0).0;
    ReadsGrow(e, t, rounds, readAt, 0);
    SendsPrefix(rounds, "", |chunks|);
    assert "" + Flatten(chunks) == Flatten(chunks);
    ArchiveFinalExact(e, readAt[|chunks|], t);
  }

  /** Reads of one character each come to the end of the file. */
  lemma {:induction false} OneByOne(content: string, offset: nat)
    requires offset <= |content|
    ensures var r := Round(content, 1, false, SendOk);
            Copied(seq(|content| - offset + 1, _ => r), offset).1 == ReachedEof
    decreases |content| - offset
  {
    var r := Round(content, 1, false, SendOk);
    var rounds := seq(|content| - offset + 1, _ => r);
    if offset < |content| {
      OneByOne(content, offset + 1);
      assert rounds[1..] == seq(|content| - (offset + 1) + 1, _ => r);
    }
  }

  lemma {:induction false} OneByOneSendsAll(content: string)
    ensures var rounds := seq(|content| + 1, _ => Round(content, 1, false, SendOk));
            Copied(rounds, 0).1 == ReachedEof && Flatten(Copied(rounds, 0).0) == content
  {
    hide Copied, Flatten;
    var rounds := seq(|content| + 1, _ => Round(content, 1, false, SendOk));
    OneByOne(content, 0);
    var chunks := Copied(rounds, 0).0;
    RoundsUsed(rounds, 0);
    SendsPrefix(rounds, "", |chunks|);
    assert "" + Flatten(chunks) == Flatten(chunks);
  }

  // ----- The handler -----

  datatype Event = Mounted(ok: bool) | FileOpened(fileId: string, ok: bool) | FileClosed | Unmounted

  datatype Reply = Ended | Failed | Unfinished

  /** WaitForTaskExit returns an error. */
  predicate WaitFails(poll: nat -> Poll) {
    var k := FirstDecisive(poll, 0);
    k < 31 && poll(k).failed
  }

  method WaitForTask(poll: nat -> Poll) returns (failed: bool)
    ensures failed == WaitFails(poll)
  {
    var waited, polls, slept := WaitForTaskExit(poll);
    assert Decisive(poll(polls - 1)) ==> FirstDecisive(poll, 0) == polls - 1;
    failed := waited == PollError;
  }

  /**
   * The handler does not look at the results of Open and DispatchStreamOutTask: without them it waits for
   * the empty task id and opens the empty file id. Once the wait is over it opens the file whether or not an
   * exit was seen. On every way out the file, if opened, is closed before the share is unmounted, and the
   * share is unmounted exactly once.
   */
  method Handle(mountOk: bool, ids: Option<(string, string)>, poll: string -> nat -> Poll, opens: string -> bool,
                rounds: seq<Round>)
    returns (reply: Reply, chunks: seq<string>, trace: seq<Event>)
    ensures var (taskId, fileId) := if ids.Some? then ids.value else ("", "");
            if WaitFails(poll(taskId)) then
              reply == Failed && chunks == [] && trace == [Mounted(mountOk), Unmounted]
            else if !opens(fileId) then
              reply == Failed && chunks == [] && trace == [Mounted(mountOk), FileOpened(fileId, false), Unmounted]
            else
              var (copied, outcome) := Copied(rounds, 0);
              && chunks == copied
              && reply == (if outcome == StillCopying then Unfinished
                           else if outcome == ReachedEof || outcome == SendEofSeen then Ended
                           else Failed)
              && trace == [Mounted(mountOk), FileOpened(fileId, true)]
                          + if outcome == StillCopying then [] else [FileClosed, Unmounted]
  {
    hide Copied, WaitFails;
    trace := [Mounted(mountOk)];
    var (taskId, fileId) := if ids.Some? then ids.value else ("", "");
    var failed := WaitForTask(poll(taskId));
    if failed {
      return Failed, [], trace + [Unmounted];
    }
    trace := trace + [FileOpened(fileId, opens(fileId))];
    if !opens(fileId) {
      return Failed, [], trace + [Unmounted];
    }
    var data := new char[BUFFER_SIZE];
    var outcome;
    chunks, outcome := CopyLoop(rounds, data);
    if outcome == StillCopying {
      return Unfinished, chunks, trace + [];
    }
    reply := if outcome == ReachedEof || outcome == SendEofSeen then Ended else Failed;
    return reply, chunks, trace + [FileClosed, Unmounted];
  }
}
