# The file-share task protocol of vcontainer, verified

vcontainer runs Cloud Foundry containers on Azure Container Instances. It has no channel into a running
container except one SMB file share. The host (`interop`) publishes shell scripts on the share; a bash daemon
that the host installs in the container polls three folders, runs the scripts and renames them; the host then
learns what happened by polling pid, exit and archive files. This project models that protocol, the texts that
it exchanges and the handlers that drive it, and proves what they keep.

To verify it (Dafny 4.11): `dafny verify dfyconfig.toml`.

## What is modelled

**The protocol** (`Tasks`, `Naming`, `Protocol`). A state holds the share (a map from names to contents and
times), any number of clients with a program counter through `scheduleTask`, the daemon with a program counter
through its loop and its two variables, and the script processes. A task may or may not have an archive to write.
Each file operation is one step; writes may go down in pieces; every client may fail and every script may die at
any point. All nondeterminism sits in the action, so `Protocol.Next` is a function and an execution is a list of
actions. `Protocol.IsHead` is the pipeline `ls -tcr | head -1`: least status-change time first, equal times in
reversed name order.

**What holds in every execution.** `ProtocolInvariant` says what the share looks like as a function of the
control state; `ProtocolPreserved` shows that every action keeps it. `Runs`, `Refinement`, `Ordering`,
`Overtaking` and `Drain` draw the consequences: three first-in first-out queues, the barrier between them,
order inside a dispatch, at most one start, publish atomicity, and the drain in closed form.

**Polling** (`Decimal`, `Polling`, `WaitLoops`). `TaskExited`, `GetProcessIdFromTaskId`, `WaitForTaskExit`, the
Wait handler and the kill task of Signal, on executions in which the files may be absent, empty or filled.

**Texts** (`Strings`, `ShellLexer`, `ShellWords`, `ShellCommands`, `EnvFile`, `TaskScript`). The printers of the env
file and of the script, and readers for the quoting, token and assignment rules that these texts use (IEEE Std
1003.1-2017, Shell Command Language, sections 2.2.1 to 2.2.3, 2.3 and 2.4), with the reserved words and the `+=`
assignments that bash adds to them. Where the text is not read back for all inputs, the exact condition is proved.

**Running the texts** (`Bash`, `ScriptRun`, `Commands`, `Arrival`, `Outcomes`). `Bash` runs a script from its text alone:
tokens, redirections, background commands, `$!`, `$?`, variables, `export`, `source`, `echo` and `wait`; what comes of
it is a list of effects. `Commands` says what `mkdir`, `chmod`, `rsync` and `tar` do to a tree of files, `Arrival` what
the commands of each dispatch achieve there, and `Outcomes` joins both with the protocol.

**Paths** (`Paths`, `SharePaths`, `MountTargets`). `filepath.Clean` and `filepath.Join` on strings, by a component
stack, the agreement of host and container paths, and where on the share a bind mount is copied to.

**Programs on the shared state.** `Daemon.Shell` is the daemon's loop and `Interop.ContainerInterop` is
`scheduleTask`; both act on the protocol state, and between any two operations of `scheduleTask` the others may do
whatever they can. `Dispatching` holds the dispatching methods, `Programs` the tasks they dispatch, `StreamIn` and
`StreamOut` the handlers, `Handlers` the same two on the protocol state and on its executions, and the Run and
Signal handlers. `Startup.Site` is Create with Prepare: a share with its folders and entry script, on which the
container is started and the bind mounts are dispatched. `Truncation` is one whole execution of a stream-out.
`Delivery` joins the texts to the protocol, and `EndToEnd` states the result for what each handler dispatches.

## Assumptions

- The uuids of all tasks and archives are fresh, and those of tasks are printed in 36 characters. In the model a
  client draws the uuids and clock readings of all that its handler call may dispatch when the call begins.
- A rename is atomic, and each rename gets a strictly larger status-change time than the one before. The time
  prefix of the file names is not what the daemon sorts by: `Ordering.EqualTimesReverseOrder` shows that of
  two equal times the later name would be taken first.
- The exit file and the pid file are first created empty and then filled by one write.
- Nothing but `scheduleTask`, the daemon and the scripts puts files into the queue folders and the output folder. The
  code does not see to that for bind mounts: the copy of one can reach a queue folder, and exactly when it can is
  `MountTargets.CopyReachesQueue`; a destination that ends up in `in` is harmless (`MountTargets.InsideInIsClear`).
- There is one daemon. Clients, daemon and scripts see one share; caching by SMB is not modelled.
- A status is between 0 and 255, and a pid is a non-negative 32-bit signed number.
- For progress only (`Daemon.Shell`): foreground scripts end.
- For `Commands`: there are no symbolic links, root's home is not on the share, and file modes are kept for folders only.

## What is true, and what only looks true

- A run task that starts has behind it exactly the stream-in tasks that were in place *at this iteration's
  stream-in listing* (`Ordering.Barrier`, both directions). Relative to the moment of publication the barrier is
  false: `Overtaking.LaterRunTaskStartsFirst` builds the execution.
- `.executed` means finished for stream-in and stream-out tasks, but only started for run tasks. The `Foreground`
  guards in `Ordering.Barrier` and `Ordering.DispatchInOrder` say so.
- `WaitForTaskExit` returns nil when it saw an exit, and also after 31 polls that saw none
  (`WaitLoops.WaitForTaskExit`). StreamOut then copies what is there. What it has sent at the end of the file is the
  archive for good if and only if tar had returned by the last read (`StreamOut.DeliveredForGood`), of which an
  observed exit is enough (`StreamOut.ArchiveDelivered`); after an expired wait it can be less, and the reply is the
  same (`Truncation.TruncatedReply`, on an execution built from the empty share).
- A poll that finds the exit file still empty ends Wait and WaitForTaskExit with an error, not with another round
  (`Polling.PollIsSound`).
- StreamIn answers "ok" although nothing was dispatched when the names never came or the extract file could not be
  created and no content followed (`StreamIn.RepliedExact`).
- The result of writing the entry script is not looked at: the container is started on a complete script if and
  only if, besides the steps that are looked at, the whole text went through (`Startup.Site.Create`); otherwise it is
  started on a beginning of it and Create may still succeed (`Startup.BrokenScriptUnnoticed`).
- `Prepare` makes no `in` folder, which extract files are put into; only the copies of the bind mounts do, and exactly
  which of them (`Startup.InFolderComesFromCopies`, `MountTargets.InFolderMade`). Without one, StreamIn refuses all
  content after a Create that succeeded (`Handlers.StreamInAfterCreate`).
- The archive of a stream-in is unpacked where tar's user finds the path. That is the folder which was made for it,
  unless the path is relative and the user is at home elsewhere than root (`Arrival.ExtractOutcome`).
- Run scripts are not waited for: the daemon can retire one at once, whatever it is doing
  (`Ordering.RunIsNotWaitedFor`).
- The `su -c` body survives exactly if it has no single quote; arguments are not quoted at all unless they are empty
  or have an `=` (`TaskScript.ScriptExact`).
- A bind mount whose destination climbs out of the share is copied to one place and read from another
  (`SharePaths.FolderTargetsAgree`). It still goes to the share if it comes back through the folder that the share is
  mounted at (`MountTargets.HostEntryExact`).
- A bind mount with the destination `../one_off_tasks/run` does not climb out of the share, and is copied right into
  the run queue (`MountTargets.CopiedIntoRunQueue`).

Comments in the code that the model does not follow: `WaitForTaskExit` sleeps two seconds, not the five of its
comment (interop/interop-run.go:68-69); the interface comment of `DispatchStreamOutTask` speaks of copying a source
folder (interop/interop.go:37), which the method does not do; the task folder is `one_off_tasks`
(interop/interop-model.go:19), not one that ends in `.task` (line 8).

## Model

| member | source | states |
|---|---|---|
| ProtocolPreserved.InvKept | interop/interop-daemon.go:31-82 | every step of every actor keeps the invariant: files as a function of control state, queues in publication order, started tasks a prefix, times increasing |
| ProtocolPreserved.ReachableInv | interop/interop.go:90-157 | so every state of every execution satisfies it, in any interleaving of dispatchers, daemon and scripts |
| ProtocolInvariant.PickIsQueueHead | interop/interop-daemon.go:11-14 | `ls -tcr` cut by `head -1` yields a task if and only if it is the oldest waiting one of its queue, and nothing if and only if none waits |
| ProtocolInvariant.HeadIsOldest | interop/interop-daemon.go:13 | any other listed name is strictly younger than the head of the queue |
| Naming.GlobMatchesScriptsOnly | interop/interop-daemon.go:13 | a file of a task matches a queue's glob if and only if it is a script under its final name in that queue |
| Naming.LocationsDistinct | interop/interop.go:97-106 | two files in one place are of the same kind, of tasks with one uuid or, if they are archives, with one archive id |
| Runs.Monotone | interop/interop-daemon.go:38-47 | along every execution nothing is unpublished or un-retired, scripts only advance and keep pid and status, archives only grow and are final once the command returned |
| Refinement.RefinesFifo | interop/interop-daemon.go:11-29 | every state's `.sh` files, ordered by time, are the three lines of an abstract first-in first-out machine, and every step is a step of that machine or none |
| Refinement.PicksHeadOfLine | interop/interop-daemon.go:35-38 | each pick is the head of the abstract line, or nothing if it is empty |
| Refinement.ListingUnique | interop/interop-daemon.go:13 | no other order of the listed names is a listing, so the line depends on the share alone |
| Ordering.Barrier | interop/interop-daemon.go:35-77 | when a script of a later queue starts, a task of an earlier queue has run, finished and reported if it was in place at this iteration's listing, and has not been started otherwise |
| Overtaking.LaterRunTaskStartsFirst | interop/interop-daemon.go:35-51 | counterexample to the barrier by publication time: a whole execution in which the run task published second starts while the stream-in task published first has not |
| Ordering.EqualTimesReverseOrder | interop/interop-daemon.go:13 | of two listed scripts with one time the one with the earlier name is never picked, and the other is picked if and only if it comes before whatever else is listed |
| Ordering.EarlierPublishedFirst | interop/interop-stream-in.go:35-67 | a published later task of a dispatch implies that the earlier ones were published, and stand before it in the queue |
| Ordering.DispatchInOrder | interop/interop-stream-in.go:103-135 | once a task has started, every earlier task of the same dispatch in that queue is retired, and finished and reported in the foreground queues |
| Ordering.StartedOnce | interop/interop-daemon.go:42-61 | no two starts of an execution start the same task |
| Ordering.StagesConserved | interop/interop-daemon.go:38-47 | in each queue the first published tasks are executed, at most the next one is being served, the rest wait: none is lost |
| Ordering.ShareShowsStage | interop/interop-daemon.go:45 | which of its two names a script carries tells its stage |
| Ordering.ExecutedIsPrefixOfPublished | interop/interop-daemon.go:38-77 | read off the actions alone, each queue's started sequence is a prefix of its published sequence |
| Ordering.PublishAtomic | interop/interop.go:104-155 | whatever the glob matches is a complete script with a complete env file, of this queue |
| Ordering.StartsCompleteScripts | interop/interop-daemon.go:42 | every script the daemon starts is complete and has its complete env file |
| Ordering.NoCollision | interop/interop.go:97-128 | in every reachable state two files of the protocol in one place are one file, archives included |
| Drain.DrainClosedForm | interop/interop-daemon.go:31-82 | with no further publishing, n iterations start exactly the first n of pending stream-in, run and stream-out tasks, in that order, and leave the rest |
| Daemon.Shell.GetFirstShFile | interop/interop-daemon.go:11-14 | the scan over the folder finds the first line of the listing |
| Daemon.Shell.RunScript | interop/interop.go:129-139 | a foreground script goes through pid file, status and exit file to its end and touches nothing else of the protocol |
| Daemon.Shell.Block | interop/interop-daemon.go:35-47 | one block of the loop keeps the invariant and the drain account, whether it is skipped, finds nothing or serves a task |
| Daemon.Shell.Iterate | interop/interop-daemon.go:32-81 | one iteration starts exactly the first pending task and leaves the others pending |
| Daemon.Shell.WorkOff | interop/interop-daemon.go:31-82 | progress: after as many iterations as tasks are pending, all are executed, started in the one fixed order |
| Decimal.EchoReadBack | interop/interop-run.go:105-106 | an echoed number is read back as itself if and only if it fits 32 bits signed, and is an error otherwise |
| Decimal.PaddedReadBack | interop/interop-run.go:105-106 | the same with any newlines and blanks on either side |
| Decimal.ItoaReadBack | handlers/vprocesshandler.go:60 | what strconv.Itoa prints of a number is read back if and only if it fits 32 bits signed |
| Polling.PollIsSound | interop/interop-run.go:81-123 | a poll reports an exit if and only if the file was found, readable and filled, with the script's own status; an empty or unreadable file is an error, one that stat finds absent is not exited, and a stat that fails otherwise leaves it to the read |
| Polling.ExitIsFinal | interop/interop-run.go:81-123 | after a reported exit every later readable poll reports the same |
| Polling.ExitMeansArchiveFinal | interop/interop-stream-out.go:38-51 | after a reported exit the task's archive never changes again |
| Polling.ExitFileImpliesPidFile | interop/interop.go:129-138 | in every reachable state an exit file, even an empty one, implies a filled pid file |
| Polling.KillNamesTheScript | handlers/vprocesshandler.go:52-62 | the pid is found if and only if its file was there, readable and filled; the kill task's arguments are then `-s`, the printed signal, and the text the script wrote |
| Programs.KillTaskSafe | handlers/vprocesshandler.go:57-62 | for every signal and pid the kill task's script reads back as that task |
| Outcomes.SignalReaches | handlers/vprocesshandler.go:52-62 | in every execution, when the daemon starts the task that Signal dispatched, the shells come, as root, to a kill with exactly that signal and the pid of that very script |
| Handlers.SignalOnShare | handlers/vprocesshandler.go:52-71 | a kill task goes into the run queue if and only if the pid file was found and holds a number and its scheduling succeeds; otherwise nothing is published |
| WaitLoops.WaitForTaskExit | interop/interop-run.go:57-77 | at most 31 polls and 62 seconds; nil means that the last poll saw the exit or that exactly 31 saw none, an error that the last poll failed |
| WaitLoops.Wait | handlers/vprocesshandler.go:89-126 | the polling and sending loop computes its specification |
| WaitLoops.MessagesArePolls | handlers/vprocesshandler.go:89-126 | message k is poll k, sent successfully; the loop ends on the message that reports an exit or on the first poll or send that fails, and which of these it was |
| WaitLoops.WaitReportsTheStatus | handlers/vprocesshandler.go:89-126 | a Wait that ends on an exit sent some (false, -1) and then one (true, the script's status); any other ending sent (false, -1) only |
| StreamOut.ReadInto | handlers/vcontainerhandler.go:399-401 | a read fills the front of the reused buffer with the next bytes of the file and leaves the rest |
| StreamOut.CopyLoop | handlers/vcontainerhandler.go:400-426 | the copy loop over the reused buffer computes its specification |
| StreamOut.RoundsUsed | handlers/vcontainerhandler.go:400-426 | one successful round for each chunk, none empty or larger than the buffer, and the next round decides how the loop ends |
| StreamOut.SendsPrefix | handlers/vcontainerhandler.go:400-426 | for any chunk sizes what was sent is a beginning of what any later read sees, and the whole file when the loop leaves on its end |
| StreamOut.PrefixDelivered | handlers/vcontainerhandler.go:391-427 | in any interleaving the client has a beginning of the final archive |
| StreamOut.ArchiveDelivered | handlers/vcontainerhandler.go:383-427 | with an observed exit and a loop left on the end of file, the chunks are the archive as tar left it, and mkdir had finished before tar started |
| StreamOut.ArchiveFinalExact | interop/interop-stream-out.go:38-51 | the archive as it is in a state stays so wherever the execution goes on if and only if the script is past its wait for the command |
| StreamOut.DeliveredForGood | handlers/vcontainerhandler.go:391-427 | what a copy left on the end of file has sent is the archive for good if and only if tar had returned at the last read |
| Truncation.TarWritesTwice | interop/interop-daemon.go:31-82 | for any two pieces of output, a whole execution from the empty share that serves mkdir, starts tar and lets it write one piece and then the other |
| Truncation.TruncatedReply | interop/interop-run.go:57-77 | counterexample to a nil wait meaning a whole archive: on such an execution all 31 polls see no exit, the wait expires, the handler replies without an error, and what it sent is the first piece only |
| StreamOut.Handle | handlers/vcontainerhandler.go:379-427 | replies, chunks and the exact order of mount, open, close and unmount on every way out, with the ignored errors of Open and dispatch |
| Handlers.StreamOutOnShare | handlers/vcontainerhandler.go:379-427 | the handler with its polls and reads made on an execution: a reply at the end of file is the archive for good if and only if tar had returned, and with an observed exit it had, mkdir before it, and the chunks are the archive of every later state |
| StreamIn.StreamIn | handlers/vcontainerhandler.go:297-369 | the handler's loop, early returns and deferred calls compute the specification |
| StreamIn.AfterExact | handlers/vcontainerhandler.go:302-354 | the loop goes on to its end if and only if no content came early or failed, and its variables are then the last path, the last user and all that was written |
| StreamIn.DispatchExact | handlers/vcontainerhandler.go:355-361 | exactly when a run dispatches, and then everything it did: mounted once, all content in order, one dispatch with last path and user, closed, unmounted |
| StreamIn.DispatchFailedExact | handlers/vcontainerhandler.go:355-361 | exactly when the client is told that the dispatch failed |
| Handlers.PrepareNeedsInFolder | interop/interop-stream-in.go:73-88 | the extract file, whose name is `extract_` and its uuid, can be created if and only if the share has a folder `in` |
| Handlers.WithoutExtractFile | handlers/vcontainerhandler.go:342-368 | on a mounted share, without that file the handler fails if and only if content is sent or the stream breaks off, and otherwise answers "ok" with nothing done |
| Handlers.StreamInAfterCreate | handlers/vgardenhandler.go:44-79 | a run of Create and then StreamIn: the extract file can be created if and only if a mount that was tried made `in`, and the reply if it cannot |
| Handlers.StreamInOnShare | handlers/vcontainerhandler.go:297-369 | the handler with its extract file and its dispatch made on the share, in any company: when it comes to it, of mkdir, chmod and tar just those before the first failure stand in the queue in order, and the answer is "ok" if and only if all do; otherwise nothing is published |
| StreamIn.RepliedExact | handlers/vcontainerhandler.go:355-368 | exactly when the client is answered "ok", the case without any dispatch included |
| StreamIn.FailureExact | handlers/vcontainerhandler.go:324-353 | the first part that disturbs the loop decides between the errors of mount, file and write |
| StreamIn.RecvFailedExact | handlers/vcontainerhandler.go:303-312 | without such a part the loop fails exactly if the stream broke off |
| StreamIn.ContentTooEarly | handlers/vcontainerhandler.go:342-347 | content before path and user are both known ends in an error with nothing done |
| StreamIn.ResourceDiscipline | handlers/vcontainerhandler.go:324-337 | on every way out: mounted at most once and first, unmounted exactly once and last, the file closed exactly once right before |
| ShellLexer.WhiteSurvives | interop/interop.go:129-141 | quote removal never removes white space, the count behind the exactness proofs |
| ShellLexer.SingleQuoteExact | interop/interop.go:200 | text in single-quotes is read back if and only if it has no single quote |
| ShellWords.WordExact | interop/interop.go:208-223 | a word as it is, through getProcessedArgs, or in single-quotes is read back at its place if and only if it is safe for that way |
| ShellCommands.LineExact | interop/interop.go:129-136 | a whole line of words is read back word for word if and only if each of them is safe |
| EnvFile.GetProcessedEnvs | interop/interop.go:195-206 | the loop fills a slice with the `export` line of each entry |
| EnvFile.EnvFileExact | interop/interop.go:174-193 | sourcing the env file gives back exactly the list if and only if all names are proper and no entry has a single quote |
| EnvFile.EnvTextInjective | interop/interop.go:174-193 | on that domain the file determines the list |
| EnvFile.LastAssignmentWins | interop/interop.go:195-206 | the last entry that assigns a variable gives its value |
| EnvFile.ValueHasAssignment | interop/interop.go:195-206 | and a variable has no value but from its last assignment |
| TaskScript.GetProcessedArgs | interop/interop.go:208-223 | the loop fills a slice with the printed form of each argument |
| TaskScript.OuterExact | interop/interop.go:129-140 | the outer shell finds `su - user -c` and exactly the body if and only if the user is plain or empty and the body has no single quote |
| TaskScript.CommandExact | interop/interop.go:132-136 | the inner shell finds the path and exactly the arguments, and stops at the redirection, if and only if path and arguments are safe |
| TaskScript.BodyExact | interop/interop.go:129-138 | the body reads as export, source, export, command, and an untouched tail under the same condition |
| TaskScript.ScriptExact | interop/interop.go:122-141 | the two-level round trip holds if and only if user, path and arguments are safe |
| ScriptRun.ScriptDoes | interop/interop.go:120-141 | run from its text, every safe task's script does exactly this as its user: HOME, the env file, APP_ROOT, the command in the background with its errors in the error file, its pid into the pid file, wait, its status into the exit file |
| Outcomes.StartedScriptActs | interop/interop.go:120-145 | on every start by the daemon the script on the share does that for its task, and the paths in it name the task's own env, pid and exit places on the share |
| Outcomes.StartedScriptCommand | interop/interop.go:132-136 | and the one command it comes to is the path with exactly the arguments, as the task's user |
| Outcomes.ErrorFileApart | interop/interop.go:120 | the file for stderr is none of the protocol's files, of this task or any other |
| Outcomes.ProcessFollowsText | interop/interop.go:129-139 | the steps of the protocol's process are those of the text: first the pid file gets what the text writes there, then the wait, up to which the command may put out, then the exit file |
| Delivery.StartedScriptMeansItsTask | interop/interop.go:90-157 | end to end, for tasks with and without an archive: a script that the daemon starts names its own env, pid and exit file, reads back as its task exactly if that is safe, and its env file sources to the task's list exactly if that is safe |
| EndToEnd.StartedTaskMeansItself | interop/interop.go:90-157 | the same with nothing asked of the names but a proper uuid and a tag as the handlers use them |
| EndToEnd.RunTaskMeansItself | interop/interop-run.go:15-23 | so it holds of every task that Run and Signal dispatch |
| EndToEnd.KillTaskReadBack | handlers/vprocesshandler.go:57-62 | and the kill task is read back as meant for every signal and pid |
| EndToEnd.FolderTaskMeansItself | interop/interop-stream-in.go:27-67 | it holds of the three tasks of every bind mount, and all of them are read back as meant if the destination is plain |
| EndToEnd.MountTaskMeansItself | handlers/vgardenhandler.go:71-77 | it holds of task a of mount k in the program of one Create, for every k and a |
| EndToEnd.ExtractTaskMeansItself | interop/interop-stream-in.go:73-138 | it holds of the three tasks that StreamIn dispatches for the extract file of any uuid, and all of them are read back as meant if the user is plain and the destination safe |
| EndToEnd.StreamOutTaskMeansItself | interop/interop-stream-out.go:14-52 | it holds of both stream-out tasks, the one with the archive included, and they are read back as meant if the user is plain and the path safe |
| Arrival.FolderArrives | interop/interop-stream-in.go:14-62 | mkdir, chmod and rsync bring every file below the host's copy target to the same place below the destination; they go through if and only if nothing is in the way, and leave the rest, the share included, as it was |
| Outcomes.MountArrives | interop/interop-stream-in.go:27-67 | the same, with the commands read from the texts of the three published scripts |
| Outcomes.CreateMountArrives | handlers/vgardenhandler.go:71-77 | and for every mount in the program of one Create |
| Arrival.ArchiveExtracted | interop/interop-stream-in.go:92-133 | mkdir, chmod and tar unpack the file that the host filled into the last path; exactly when, what else is touched, and that the folder is open to everybody when tar starts |
| Outcomes.StreamArrives | interop/interop-stream-in.go:92-138 | the same, with the commands read from the scripts that StreamIn publishes |
| Arrival.PathArchived | interop/interop-stream-out.go:22-44 | mkdir and tar put an archive of the client's path into the file with the archive's id, exactly when nothing is in the way, and touch nothing else |
| Arrival.OpenedByHost | interop/interop-stream-out.go:54-65 | that is the file which the host opens |
| Outcomes.ArchiveComesOut | interop/interop-stream-out.go:14-52 | the same, with the commands read from the published scripts, and that file is the protocol's archive of the tar task |
| Programs.FolderTasksSafe | interop/interop-stream-in.go:27-62 | when the three scripts of a bind mount say what was meant, exactly |
| Programs.ExtractTasksSafe | interop/interop-stream-in.go:92-130 | the extraction scripts say what was meant if and only if the user is plain and the destination safe |
| Programs.StreamOutTasksSafe | interop/interop-stream-out.go:22-44 | the stream-out scripts say what was meant if and only if the user is plain and the path safe |
| Paths.CleanIdempotent | interop/interop-stream-in.go:17-18 | cleaning a clean path changes nothing |
| Paths.ResolveCleaned | interop/interop-stream-in.go:17-24 | cleaning a relative path before it is joined to a root changes nothing |
| SharePaths.FileAtItsLocation | interop/interop.go:99-128 | below any root, the path computed for any file of any task names the place the protocol gives it |
| SharePaths.HostAndContainerAgree | interop/interop.go:225-238 | host and container paths of each env, script, pid and exit file, and of the archive of a task that has one, name one entry of the share |
| SharePaths.FolderTargetsAgree | interop/interop-stream-in.go:17-24 | the folder copied to and the folder read from are one entry if and only if the destination does not climb out of the share, and then which |
| MountTargets.HostEntryExact | interop/interop-stream-in.go:17-18 | which entry of the share the host copies to, if any, for every destination |
| MountTargets.CopyReachesQueue | interop/interop-stream-in.go:17-19 | the copy can put something into a queue folder if and only if the destination leads to a folder above it, to it, or into it |
| MountTargets.InsideInIsClear | interop/interop-stream-in.go:17-19 | a copy that ends up in `in` reaches no queue folder |
| MountTargets.CopiedIntoRunQueue | interop/interop-stream-in.go:17-19 | counterexample: a destination inside the share that is copied into the run queue |
| MountTargets.FoldersMadeTouch | helpers/fsync/fsync.go:46-64 | every folder that a copy makes is on the way to its target, the target, or below it |
| MountTargets.InFolderMade | helpers/fsync/fsync.go:46-64 | which destinations, with which outcome of the copy, make the folder `in`, exactly |
| SharePaths.ExtractFilesAgree | interop/interop-stream-in.go:80-128 | the file the host fills is the one tar is told to read |
| SharePaths.ArchivePathPrinted | interop/interop-stream-out.go:22-37 | the printed archive path is the joined one |
| Interop.ContainerInterop.ScheduleTask | interop/interop.go:90-157 | in any company it publishes exactly the next task, if all six file operations work, or fails and publishes nothing; the first failing operation decides what it leaves behind: no file, a part, or the complete script under its temporary name |
| Interop.ContainerInterop.WriteEnvFile | interop/interop.go:174-193 | it gets to a complete closed env file if and only if create and write succeed |
| Interop.ContainerInterop.WriteTemp | interop/interop.go:112-150 | it gets to a complete closed temporary script if and only if create, write and close succeed |
| Interop.ContainerInterop.ScheduleNext | interop/interop-stream-in.go:35-67 | one task after the other until one fails: of the next tasks exactly those before the first failure are published |
| Dispatching.Launch | interop/interop-stream-in.go:35-67 | a dispatch publishes exactly the tasks before its first failure, and succeeds if and only if there is none |
| Dispatching.DispatchFolderTask | interop/interop-stream-in.go:14-70 | nothing without the copy; else mkdir, chmod, rsync up to the first failure, in the stream-in queue and no other, and rsync's id if there is none |
| Dispatching.DispatchExtractFileTask | interop/interop-stream-in.go:92-138 | mkdir, chmod, tar up to the first failure, in the stream-in queue and no other, and tar's id if there is none |
| Dispatching.DispatchStreamOutTask | interop/interop-stream-out.go:14-52 | mkdir, tar up to the first failure, in the stream-out queue and no other, and tar's id with the archive's name if there is none |
| Dispatching.DispatchRunTask | interop/interop-run.go:15-23 | the one task, in the run queue and no other, and its id, or none |
| Handlers.RunOnShare | handlers/vcontainerhandler.go:31-67 | the client's path, arguments, environment and user become one task in the run queue, whose id is the answer, or nothing does |
| Ordering.OwnTasksByStep | interop/interop.go:97-104 | what a client has in each queue are, in program order, exactly those of its published tasks that go there |
| Ordering.RunIsNotWaitedFor | interop/interop-daemon.go:51-61 | with a run script in hand the daemon can retire it at once, whatever it is doing; with another it goes on exactly when that has come to its end |
| Startup.Site.Prepare | interop/interop-initialize.go:44-74 | it succeeds if and only if the four folders and the script file could be made, then on all of them and what was written of the text, before the container has done anything |
| Startup.RequiredFolders | interop/interop-initialize.go:44-63 | the four folders by name; every file of the protocol has its folder among them but for the archive |
| Startup.Site.DispatchMounts | handlers/vgardenhandler.go:71-77 | the mounts in list order until one fails: how many tasks are published, which folders the copies have made |
| Startup.Site.Create | handlers/vgardenhandler.go:44-79 | the reply; the container started if and only if the share is prepared, on a complete script if and only if it was written in full; in the stream-in queue exactly the tasks of the first mounts up to the first failure, a failed copy included, in list order, whatever others publish; one unmount at the end |
| Ordering.OwnTasksInQueue | interop/interop-stream-in.go:35-67 | a client's tasks in their queue are exactly those it has published, in program order |
| Startup.BrokenScriptUnnoticed | interop/interop-initialize.go:66-70 | counterexample: for every text and every cut a run of Create that succeeds and starts the container on the cut text |
| Startup.InFolderComesFromCopies | interop/interop-initialize.go:44-63 | no folder that Prepare makes is `in`; it is there after the first n mounts if and only if one of them is copied into `in`, or to the root of the share with a folder `in` in its source |

## Left out

- gRPC, TLS, consul, configuration and `main`: plumbing over libraries that are not part of this model.
- The Azure clients, the share client and the image parameters of `create`: foreign calls; starting the container is one operation that works or fails.
- mount, umount, rsync and MkdirAll internals: each is one operation that works or fails, MkdirAll and rsync with any folders they leave behind, and the mounted share is a bijection of paths.
- A share that could not be mounted: StreamOut goes on with an empty mount path, and what the host then finds in its own file system is an arbitrary answer to the polls, opens and reads.
- Shell expansions other than the parameters of the script's own lines, globbing, command substitution, here-documents and line continuations: the readers give up on a character that could start one, even in the middle of a word (`#`, `~`, `{`), so the exactness theorems count such a word as not read back.
- A command that dies of a signal, and what sourcing the env file does to HOME and CMD_PID.
- In the protocol's executions a command is its pid, its status and, for tar, an archive that grows at its end until it returns; what `mkdir`, `chmod`, `rsync` and `tar` do is stated for whole runs of them, with tar's format as two given functions. What the clients' own commands do is left out.
- Which pids processes get, and what a signal does to its target; a script may die at any time.
- The reply of Signal, which is an error on every path, and the log lines of the daemon and the handlers.
- A failure to generate a uuid, which the logger turns into a crash.
- Real time except for the sleep counter of WaitForTaskExit.
- How the entry script comes about: its text is a parameter of Create.
- Property, info, lookup, network and limit handlers, CleanTask and the unimplemented calls: easy or empty.
