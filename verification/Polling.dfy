/** What the host learns by polling the pid and exit files: TaskExited, WaitForTaskExit, Wait and Signal. */
module Polling {
  import opened Wrappers
  import opened Decimal
  import opened Naming
  import opened Protocol
  import opened ProtocolInvariant
  import opened ProtocolPreserved
  import opened Runs

  datatype WaitResponse = WaitResponse(exited: bool, exitCode: int)

  /** The two results of TaskExited: the response and whether an error came with it. */
  datatype Poll = Poll(response: WaitResponse, failed: bool)

  const NOT_EXITED := WaitResponse(false, -1)

  /** TaskExited, given what os.Stat and then ioutil.ReadFile said of the exit file. */
  function TaskExited(found: bool, read: Option<string>): Poll {
    if !found then Poll(NOT_EXITED, false)
    else
      match read
      case None => Poll(NOT_EXITED, true)
      case Some(content) =>
        match ReadNumber(content)
        case None => Poll(NOT_EXITED, true)
        case Some(code) => Poll(WaitResponse(true, code), false)
  }

  /** GetProcessIdFromTaskId, given the same two answers about the pid file; None is any of its errors. */
  function GetProcessId(found: bool, read: Option<string>): Option<int> {
    if !found || read.None? then None else ReadNumber(read.value)
  }

  // ----- Polling a running protocol -----

  /** Whether stat and read can get at the file at all, or fail for some other reason than its absence. */
  datatype Access = Access(statWorks: bool, readWorks: bool)

  /** os.IsNotExist is false: the file is there, or stat failed for another reason. */
  predicate Found(s: State, n: Name, access: Access) {
    access.statWorks ==> n in s.share
  }

  function ReadFile(s: State, n: Name, access: Access): Option<string> {
    if access.readWorks && n in s.share then Some(s.share[n].content) else None
  }

  /** A poll whose stat sees one state and whose read sees another. */
  function PollTask(statAt: State, readAt: State, t: Tid, access: Access): Poll {
    TaskExited(Found(statAt, Name(ExitFile, t), access), ReadFile(readAt, Name(ExitFile, t), access))
  }

  /** The script has written its last line. */
  predicate HasExited(s: State, t: Tid) {
    t in s.procs && s.procs[t].phase.Complete?
  }

  lemma ExitFileSays(s: State, t: Tid)
    requires Inv(s)
    ensures Name(ExitFile, t) in s.share <==> t in s.procs && PhaseRank(s.procs[t].phase) >= 4
    ensures Name(ExitFile, t) in s.share ==>
      s.share[Name(ExitFile, t)].content == if HasExited(s, t) then EchoLine(s.procs[t].phase.code) else ""
  {
    assert Agrees(s, Name(ExitFile, t));
    assert t in s.procs ==> Published(s, t);
  }

  lemma PidFileSays(s: State, t: Tid)
    requires Inv(s)
    ensures Name(PidFile, t) in s.share <==> t in s.procs && PhaseRank(s.procs[t].phase) >= 1
    ensures Name(PidFile, t) in s.share ==>
      s.share[Name(PidFile, t)].content
        == if PhaseRank(s.procs[t].phase) >= 2 then EchoLine(s.procs[t].phase.pid) else ""
  {
    assert Agrees(s, Name(PidFile, t));
    assert t in s.procs ==> Published(s, t);
  }

  /**
   * Exit-code soundness: in any interleaving a poll reports an exit exactly when the exit file was there,
   * could be read, and the script had written its last line; the code is then the script's own status.
   * A file that is there but empty or unreadable is reported as an error, an absent one as not exited; if
   * stat fails for another reason, all depends on the read.
   */
  lemma PollIsSound(e: Execution, i: nat, j: nat, t: Tid, access: Access)
    requires IsExecution(e) && i <= j < |e.states|
    ensures var found := Found(e.states[i], Name(ExitFile, t), access);
            var s := e.states[j];
            PollTask(e.states[i], s, t, access)
            == if !found then Poll(WaitResponse(false, -1), false)
               else if access.readWorks && HasExited(s, t) then Poll(WaitResponse(true, s.procs[t].phase.code), false)
               else Poll(WaitResponse(false, -1), true)
  {
    hide Inv, IsExecution;
    ReachableInv(e, i);
    ReachableInv(e, j);
    Monotone(e, i, j);
    ExitFileSays(e.states[i], t);
    ExitFileSays(e.states[j], t);
    EmptyReadsAsError();
    if HasExited(e.states[j], t) {
      EchoReadBack(e.states[j].procs[t].phase.code);
    }
  }

  /** Once a poll has reported an exit, every later poll that can read the file reports the same. */
  lemma ExitIsFinal(e: Execution, i: nat, j: nat, i': nat, j': nat, t: Tid, first: Access, later: Access)
    requires IsExecution(e) && i <= j <= i' <= j' < |e.states|
    requires PollTask(e.states[i], e.states[j], t, first).response.exited && later.readWorks
    ensures PollTask(e.states[i'], e.states[j'], t, later) == PollTask(e.states[i], e.states[j], t, first)
  {
    hide Inv, ReadNumber, EchoLine, Enabled, Next;
    PollIsSound(e, i, j, t, first);
    PollIsSound(e, i', j', t, later);
    Monotone(e, j, i');
    Monotone(e, j, j');
    ReachableInv(e, i');
    ExitFileSays(e.states[i'], t);
  }

  /** A poll that reports an exit proves that the script is complete and its archive final, then and ever after. */
  lemma ExitMeansArchiveFinal(e: Execution, i: nat, j: nat, k: nat, t: Tid, access: Access)
    requires IsExecution(e) && i <= j <= k < |e.states|
    requires PollTask(e.states[i], e.states[j], t, access).response.exited
    ensures HasExited(e.states[k], t)
    ensures ArchiveContent(e.states[k], t) == ArchiveContent(e.states[j], t)
  {
    PollIsSound(e, i, j, t, access);
    Monotone(e, j, k);
    assert ArchiveGrows(e.states[j], e.states[k], t);
  }

  /** Pid ordering: an exit file, even an empty one, is only ever there together with a complete pid file. */
  lemma ExitFileImpliesPidFile(e: Execution, i: nat, t: Tid)
    requires IsExecution(e) && i < |e.states| && Name(ExitFile, t) in e.states[i].share
    ensures var s := e.states[i];
            && Name(PidFile, t) in s.share && t in s.procs && PhaseRank(s.procs[t].phase) >= 4
            && s.share[Name(PidFile, t)].content == EchoLine(s.procs[t].phase.pid)
  {
    ReachableInv(e, i);
    ExitFileSays(e.states[i], t);
    PidFileSays(e.states[i], t);
  }

  // ----- Signal -----

  /** The arguments of the kill task that Signal dispatches. */
  function KillArgs(signal: int, pid: int): seq<string> {
    ["-s", Itoa(signal), Itoa(pid)]
  }

  /**
   * Signal finds a pid exactly when the pid file was there, could be read and was already filled; the kill task
   * then names the signal, and its last argument is the very text the script wrote, without its newline.
   */
  lemma KillNamesTheScript(e: Execution, i: nat, j: nat, t: Tid, access: Access, signal: int)
    requires IsExecution(e) && i <= j < |e.states|
    ensures var pidFile := Name(PidFile, t);
            var s := e.states[j];
            match GetProcessId(Found(e.states[i], pidFile, access), ReadFile(s, pidFile, access))
            case None =>
              !(Found(e.states[i], pidFile, access) && access.readWorks && t in s.procs && PhaseRank(s.procs[t].phase) >= 2)
            case Some(pid) =>
              && Found(e.states[i], pidFile, access) && access.readWorks && t in s.procs && PhaseRank(s.procs[t].phase) >= 2
              && pid == s.procs[t].phase.pid
              && pidFile in s.share
              && |KillArgs(signal, pid)| == 3 && KillArgs(signal, pid)[0] == "-s"
              && (-0x8000_0000 <= signal <= 0x7fff_ffff ==> ParseInt32(KillArgs(signal, pid)[1]) == Some(signal))
              && KillArgs(signal, pid)[2] + "\n" == s.share[pidFile].content
  {
    ReachableInv(e, i);
    ReachableInv(e, j);
    Monotone(e, i, j);
    PidFileSays(e.states[i], t);
    PidFileSays(e.states[j], t);
    EmptyReadsAsError();
    if -0x8000_0000 <= signal <= 0x7fff_ffff {
      ItoaReadBack(signal);
    }
    if t in e.states[j].procs && PhaseRank(e.states[j].procs[t].phase) >= 2 {
      EchoReadBack(e.states[j].procs[t].phase.pid);
    }
  }
}
