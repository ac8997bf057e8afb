/** The two polling loops of the host: WaitForTaskExit inside the interop, and the Wait handler. */
module WaitLoops {
  import opened Protocol
  import opened Polling

  // ----- WaitForTaskExit -----

  const POLL_INTERVAL := 2
  const POLL_LIMIT := 60

  /** How the loop ends: the first two as a nil error, the last as an error. */
  datatype Waited = SawExit | Expired | PollError

  /** Poll k decides the loop: it fails or it reports an exit. */
  predicate Decisive(p: Poll) {
    p.failed || p.response.exited
  }

  /** The number of the first poll that decides the loop; 31 if none of the first 31 does. */
  function FirstDecisive(poll: nat -> Poll, from: nat): (k: nat)
    requires from <= 31
    ensures from <= k <= 31 && (forall j :: from <= j < k ==> !Decisive(poll(j))) && (k < 31 ==> Decisive(poll(k)))
    decreases 31 - from
  {
    if from == 31 || Decisive(poll(from)) then from else FirstDecisive(poll, from + 1)
  }

  /**
   * The answers that successive polls would give are `poll(0)`, `poll(1)`, ...: the loop stops at the first
   * decisive one, and otherwise after the 31st poll and 62 seconds of sleep.
   */
  method WaitForTaskExit(poll: nat -> Poll) returns (result: Waited, polls: nat, slept: nat)
    ensures 1 <= polls <= 31 && slept <= 62
    ensures forall k :: 0 <= k < polls - 1 ==> !Decisive(poll(k))
    ensures result == Expired <==> forall k :: 0 <= k < 31 ==> !Decisive(poll(k))
    ensures result == Expired ==> polls == 31 && slept == 62
    ensures result == PollError <==> Decisive(poll(polls - 1)) && poll(polls - 1).failed
    ensures result == SawExit <==> Decisive(poll(polls - 1)) && !poll(polls - 1).failed
    ensures result != Expired ==> slept == POLL_INTERVAL * (polls - 1)
  {
    slept, polls := 0, 0;
    while true
      invariant slept == POLL_INTERVAL * polls && polls <= 30
      invariant forall k :: 0 <= k < polls ==> !Decisive(poll(k))
      decreases 31 - polls
    {
      var answer := poll(polls);
      polls := polls + 1;
      if answer.failed {
        return PollError, polls, slept;
      }
      if answer.response.exited {
        return SawExit, polls, slept;
      }
      slept := slept + POLL_INTERVAL;
      if slept > POLL_LIMIT {
        return Expired, polls, slept;
      }
    }
  }

  // ----- Wait -----

  /** What server.Send answers. */
  datatype SendResult = SendOk | SendEof | SendFailed

  datatype WaitOutcome = EndedOnExit | EndedOnEof | EndedOnPollError | EndedOnSendError | StillWaiting

  /** The loop on finitely many polls and sends: the messages that went out, and how it stands. */
  function WaitSpec(polls: seq<Poll>, sends: seq<SendResult>): (seq<WaitResponse>, WaitOutcome)
    requires |polls| == |sends|
  {
    if polls == [] then ([], StillWaiting)
    else if polls[0].failed then ([], EndedOnPollError)
    else
      match sends[0]
      case SendFailed => ([], EndedOnSendError)
      case SendEof => ([], EndedOnEof)
      case SendOk =>
        if polls[0].response.exited then ([polls[0].response], EndedOnExit)
        else
          var rest := WaitSpec(polls[1..], sends[1..]);
          ([polls[0].response] + rest.0, rest.1)
  }

  /** The handler's loop; it may run for ever, so it is followed for as many polls as are given. */
  method Wait(polls: seq<Poll>, sends: seq<SendResult>) returns (sent: seq<WaitResponse>, outcome: WaitOutcome)
    requires |polls| == |sends|
    ensures (sent, outcome) == WaitSpec(polls, sends)
  {
    sent := [];
    var i := 0;
    assert polls[0..] == polls && sends[0..] == sends;
    while i < |polls|
      invariant 0 <= i <= |polls|
      invariant WaitSpec(polls, sends).0 == sent + WaitSpec(polls[i..], sends[i..]).0
      invariant WaitSpec(polls, sends).1 == WaitSpec(polls[i..], sends[i..]).1
    {
      var waitResponse := polls[i];
      assert polls[i..][1..] == polls[i + 1..] && sends[i..][1..] == sends[i + 1..];
      assert polls[i..][0] == polls[i] && sends[i..][0] == sends[i] && sent + [] == sent;
      if waitResponse.failed {
        return sent, EndedOnPollError;
      }
      if sends[i] != SendOk {
        return sent, if sends[i] == SendEof then EndedOnEof else EndedOnSendError;
      }
      sent := sent + [waitResponse.response];
      if waitResponse.response.exited {
        return sent, EndedOnExit;
      }
      i := i + 1;
    }
    return sent, StillWaiting;
  }

  /** How the loop stands after these messages: by its last message, or by what the next poll and send would be. */
  function Standing(polls: seq<Poll>, sends: seq<SendResult>, sent: seq<WaitResponse>): WaitOutcome
    requires |polls| == |sends|
  {
    if sent != [] && sent[|sent| - 1].exited then EndedOnExit
    else if |sent| >= |polls| then StillWaiting
    else if polls[|sent|].failed then EndedOnPollError
    else if sends[|sent|] == SendEof then EndedOnEof
    else EndedOnSendError
  }

  /**
   * Message k is the answer of poll k, only the last message can report an exit, and the loop ends on that
   * message or on the first poll or send that fails.
   */
  lemma {:induction false} MessagesArePolls(polls: seq<Poll>, sends: seq<SendResult>)
    requires |polls| == |sends|
    ensures var (sent, outcome) := WaitSpec(polls, sends);
            && |sent| <= |polls|
            && (forall k :: 0 <= k < |sent| ==> sent[k] == polls[k].response && !polls[k].failed && sends[k] == SendOk)
            && (forall k :: 0 <= k < |sent| - 1 ==> !sent[k].exited)
            && outcome == Standing(polls, sends, sent)
            && (outcome == EndedOnSendError ==> sends[|sent|] == SendFailed)
  {
    if polls != [] && !Decisive(polls[0]) && sends[0] == SendOk {
      MessagesArePolls(polls[1..], sends[1..]);
      var sent := WaitSpec(polls, sends).0;
      var sent' := WaitSpec(polls[1..], sends[1..]).0;
      assert sent == [polls[0].response] + sent';
      assert forall k :: 1 <= k < |polls| ==> polls[k] == polls[1..][k - 1] && sends[k] == sends[1..][k - 1];
      forall k | 0 <= k < |sent| - 1 ensures !sent[k].exited {
        assert k > 0 ==> sent[k] == sent'[k - 1];
      }
    }
  }

  /** The polls are made on an execution, one after the other, each reading no earlier than it stats. */
  ghost predicate PollsOf(e: Execution, t: Tid, polls: seq<Poll>, statAt: seq<nat>, readAt: seq<nat>,
                          access: seq<Access>)
  {
    && |polls| == |statAt| == |readAt| == |access|
    && (forall k :: 0 <= k < |polls| ==> statAt[k] <= readAt[k] < |e.states|)
    && (forall k :: 0 <= k < |polls| - 1 ==> readAt[k] <= statAt[k + 1])
    && (forall k :: 0 <= k < |polls| ==> polls[k] == PollTask(e.states[statAt[k]], e.states[readAt[k]], t, access[k]))
  }

  /**
   * A Wait that ends without an error and without a send EOF has sent some number of (false, -1) messages
   * and then exactly one (true, code), where code is the status that the script's wait returned; all other
   * endings have sent (false, -1) messages only.
   */
  lemma WaitReportsTheStatus(e: Execution, t: Tid, polls: seq<Poll>, sends: seq<SendResult>,
                             statAt: seq<nat>, readAt: seq<nat>, access: seq<Access>)
    requires IsExecution(e) && PollsOf(e, t, polls, statAt, readAt, access) && |sends| == |polls|
    ensures var (sent, outcome) := WaitSpec(polls, sends);
            if outcome == EndedOnExit then
              && sent != [] && |sent| <= |polls|
              && (forall k :: 0 <= k < |sent| - 1 ==> sent[k] == WaitResponse(false, -1))
              && HasExited(e.states[readAt[|sent| - 1]], t)
              && sent[|sent| - 1] == WaitResponse(true, e.states[readAt[|sent| - 1]].procs[t].phase.code)
            else forall k :: 0 <= k < |sent| ==> sent[k] == WaitResponse(false, -1)
  {
    hide IsExecution, WaitSpec, PollTask;
    MessagesArePolls(polls, sends);
    var sent := WaitSpec(polls, sends).0;
    forall k | 0 <= k < |sent|
      ensures if sent[k].exited then HasExited(e.states[readAt[k]], t)
                                  && sent[k] == WaitResponse(true, e.states[readAt[k]].procs[t].phase.code)
              else sent[k] == WaitResponse(false, -1)
    {
      PollIsSound(e, statAt[k], readAt[k], t, access[k]);
    }
  }
}
