/** The vocabulary of interop-model.go: steps, folders, and what one scheduled task leaves on the share. */
module Tasks {
  import opened Decimal

  /** The three prioritised queues of one-off tasks. */
  datatype Step = StreamIn | Run | StreamOut

  /** Stream-in and stream-out scripts run in the foreground of the daemon, run scripts in the background. */
  predicate Foreground(step: Step) {
    step != Run
  }

  function StepFolder(step: Step): string {
    match step
    case StreamIn => "stream_in"
    case Run => "run"
    case StreamOut => "stream_out"
  }

  /** What `echo $?` can print. */
  type Status = n: nat | n < 256

  /** What `echo $CMD_PID` can print: a non-negative 32-bit signed value. */
  type ProcId = n: nat | n < 0x8000_0000

  /** The length of a printed version-4 uuid. */
  const UUID_LENGTH := 36

  /** A task as the handlers describe it; its id is made by scheduleTask. */
  datatype RunTask = RunTask(user: string, env: seq<string>, path: string, args: seq<string>, tag: string)

  /**
   * What scheduleTask fixes before it touches the share: the clock reading and the uuid that name the
   * files, the tag, and the complete texts of the env file and of the script. `archive` is the file
   * under out/streamout that the command writes, or "" if it writes none.
   */
  datatype Job = Job(step: Step, nanos: nat, tag: string, uuid: string, env: string, script: string,
                     archive: string)
  {
    /** `<tag>_<uuid>`, the id that the host polls by. */
    function Id(): string {
      tag + "_" + uuid
    }

    /** `<nanos>_<tag>_<uuid>`, the name of the task's files without their suffix. */
    function Stem(): string {
      PrintNat(nanos) + "_" + Id()
    }
  }

  /** What a version-4 uuid is printed with. */
  predicate IsUuidChar(c: char) {
    '0' <= c <= '9' || 'a' <= c <= 'f' || c == '-'
  }

  predicate IsUuid(u: string) {
    |u| == UUID_LENGTH && forall i :: 0 <= i < |u| ==> IsUuidChar(u[i])
  }

  /** Fresh uuids keep two tasks apart: by their own uuid, and by that of their archive if they write one. */
  predicate Apart(j1: Job, j2: Job) {
    j1.uuid != j2.uuid && (j1.archive != "" ==> j1.archive != j2.archive)
  }
}
