# JumpServer bastion session: a Dafny model

The repository drives one interactive terminal (a PTY behind a JumpServer/KoKo bastion) per conversation.
Operations are queued: connect, enter an asset, run a command, run a batch, start a streaming job, leave.
While one of them waits for the screen, anything else may happen: output, a closing wire, Ctrl+C from the
console, a job stop, a job pump. The source's comments state what has to hold in all of that: a command never
runs on the wrong machine, one owner of the terminal, one Ctrl+C, and a wedged shell is never called usable.
Each of the first, second and fourth is broken by a few steps of the code, and the model says exactly by which.

How the model is built:

- **Segments.** `Session` (session.ts) and `Manager` (session-manager.ts) are step systems. A step is one
  synchronous segment, the code from one `await` to the next; a run is any sequence of steps, so every
  interleaving is covered, and polling may stop or go on at any moment. What the code reads from outside (the
  screen patterns, the clock, the abort signal, the marker watcher, answers of a human) arrives as step input.
  History fields record what was handed to the wire and what was reported.
- **Source form.** The classes `JumpServerSession`, `SessionManager`, `JobStore`, `TerminalRingBuffer`,
  `AuditStore`, `OutputBuffer`, `MarkerWatcher`, `ScreenDetector`, `SessionMutex`, `Semaphore`, `Releaser` and
  `BoundedMap` update their fields as the source does. Each method is proved to be the step or the function of
  the same name, and its class's `Valid()` is the invariant of the step system: `JumpServerSession` covers every
  step of a session (`Handle`), `JobStore` those of the store, and `SessionManager` those that decide who owns the
  PTY and what is typed into it.
- **Two readings.** What a segment does is written down twice: as the code does it (`Session`, `Manager`, ...), and
  outcome by outcome, with the exact condition of each, as statements about steps and runs that do not mention the
  functions of the first reading (`SessionOutcomes`, `EntryCooldown`, `ManagerGate`, `ManagerTurns`, `JobOutcomes`).
- **References.** Bounded and incremental structures are compared with a simple unbounded one: the whole
  output stream, the whole audit file, the whole capture, the multiset of lines.

Where the code and its comments disagree, the model follows the code; a lemma says exactly when the promise holds,
and another gives an input that breaks it:

- wrong machine: an interrupt verification that lands inside an entry (`VerificationTrustedIffNotEntering`,
  `OverlapReachesTheWrongMachine`), which can also leave a failed entry in a shell (`FailedEntryLandsIff`,
  `FailedEntryLeavesShell`, `FailedEntryParksAnother`);
- one owner: the late report of a replaced session, or an interrupt or stop that is older than the job it ends or
  could not send its Ctrl+C, drops the claim of a job that is still running (`GuardLostIff`, `StaleReportBetrays`,
  `EarlyInterruptBetrays`, `UnsentInterruptBetrays`);
- wedged shell: exec's catch block when writing the recovery probe throws (`ShellNeedsEvidenceIff`,
  `UnprovenShell`);
- an aborted leave, whose `exit` may still be on its way when the next command is typed (`StepConfirmsIff`,
  `ScriptBehindExit`), and a job line typed into a session that has just become UNKNOWN (`JobLineIntoUnknown`);
- a re-created audit file that is not shorter (`ReadOnIff`, `RecreatedFileIsMissed`), `OutputBuffer.take()`, which
  always reports an uncut text (`TakeLosesTheFlag`), the echo of a brace group or of a command of several
  lines, which is handed out as output (`CleanedOutputIff`, `TwoLinesLeak`), the budget's tail, which is cut from its
  end (`EndIsShownIff`, `EndIsLost`), folded lines whose two ends overlap (`FoldAccountsIff`,
  `ShortThresholdOverlaps`), and compared lines that hold a NUL in front of a count (`KeyIffMultiset`,
  `EveryMarkCollides`);
- the echo of the identity probe, which is taken for its answer when the terminal breaks it before each label
  (`EchoAnswersIff`, `BrokenEchoAnswers`), and hides the answer when it is shown as a whole
  (`UnbrokenEchoIsNoAnswer`); and the output of a job recorded behind its last harvest, or evicted before it
  (`StreamIsLogSoFar`, `TailIsLost`, `ExactlyOnce`, `EvictedOutputIsLost`).

Files: `Basics`, `Utf8` (vocabulary); `StateMachine`, `TargetVerify`, `Detector`; `Session`, `SessionProofs`,
`SessionTheorems`, `SessionEvidence`, `SessionExits`, `EntryProtocol`, `SessionOutcomes`, `EntryCooldown`,
`LeaveProtocol`, `JumpServerSession`; `Manager`, `ManagerProofs`, `ManagerGate`, `ManagerTurns`, `ManagerClaims`,
`ManagerDials`, `ManagerPty`, `ManagerBetrayals`, `SessionManager`, `Batch`; `Mutex`, `Gates`, `Concurrency`;
`TerminalObserver`, `JobOutput`, `JobStops`, `JobOutcomes`, `JobStore`, `JobStreams`; `AuditStore`, `OutputBuffer`,
`CommandRunner`, `ProbeAnswer`, `Compare`, `CompareGroups`, `CompareMarks`, `OutputBudget`.
`dafny verify dfyconfig.toml` checks all of them.

## Model

| member | source | states |
|---|---|---|
| SessionTheorems.ScriptsOnTheRightMachine | src/jumpserver/session.ts:404-771 | in every run in which no interrupt verification lands inside an entry, every command script was written for the session's current target, whose recorded addresses are empty or contain it when it is an IPv4 literal |
| SessionTheorems.VerificationTrustedIffNotEntering | src/jumpserver/session.ts:806-818 | the exact condition: applying an interrupt verification leaves a shell that may be trusted unless it succeeds while an entry is in progress |
| SessionTheorems.OverlapReachesTheWrongMachine | src/jumpserver/session.ts:404-818 | a concrete run in which such an overlap makes an exec reach a shell whose recorded addresses are those of another asset |
| SessionTheorems.LiveOnce | src/jumpserver/session.ts:299-306 | a connected-once session is live only over an open attached wire, and after it was seen dead no late continuation ever makes it live again |
| SessionTheorems.NeverRunningAtRest | src/jumpserver/session-manager.ts:1139-1139 | between operations no session is in COMMAND_RUNNING, so this exit of the batch loop is never taken |
| SessionTheorems.RunKeeps | src/jumpserver/session.ts:1211-1277 | the session invariant survives every run: steady history, state and operation fit, and, as long as no interrupt verification overlapped an entry, the target bound and proven |
| SessionTheorems.StepWrites | src/jumpserver/session.ts:1137-1161 | one segment hands the wire at most one write, a command script only when an exec begins in a shell, a job line only for a job; a wire that is gone stays gone |
| SessionEvidence.ShellNeedsEvidenceIff | src/jumpserver/session.ts:714-770 | a step makes a session a usable shell without an answered probe, a done marker with its exit code or a successful verification exactly when it is the recovery of a running command whose probe cannot be written: exec's catch block then declares the shell usable |
| SessionEvidence.UnprovenShell | src/jumpserver/session.ts:766-769 | a run in which a command times out, is interrupted, and is called a usable shell with no probe written |
| SessionEvidence.CommandLeavesShellIff | src/jumpserver/session.ts:714-770 | a finished command leaves ASSET_SHELL exactly when the session did not die meanwhile and the exit code was parsed, or a probe answered after the Ctrl+C, or writing that probe threw |
| SessionEvidence.OneInterruptPerExec | src/jumpserver/session.ts:1163-1180 | whatever interleaves, out-of-band interrupts and job stops included, one exec sends at most one Ctrl+C of its own, and none while it still waits for the marker |
| SessionOutcomes.ExecAnswersIff | src/jumpserver/session.ts:714-770 | what exec reports, over any step: Completed(n) if and only if its own poll finds the marker with exit code n; signal-lost, recovered and unrecovered timeout, abort, unparsable exit code and a probe that cannot be written each if and only if its own condition on the session and the observation holds |
| SessionOutcomes.ExecLeavesBehind | src/jumpserver/session.ts:714-770 | a finished exec has changed nothing but the state: the shell after a completed command or an answered probe, DISCONNECTED after a lost wire, UNKNOWN otherwise; a dead session stays dead |
| SessionOutcomes.ExecGoesOn | src/jumpserver/session.ts:1163-1203 | until then it sends its Ctrl+C exactly once the caller gives up or the time is up, its probe exactly at a shell prompt, and otherwise changes nothing |
| EntryProtocol.OneEntryPerCall | src/jumpserver/session.ts:404-560 | one enter call types at most its target line (none when it resumes a prompt) and then at most one account ID, the caller's own, offered by a list detected at that moment |
| EntryProtocol.AnswerIsUnique | src/jumpserver/detector.ts:108-170 | the account that answer names is the only one of a contiguous list of at least two rows with that number |
| EntryProtocol.FailedEntryLandsIff | src/jumpserver/session.ts:1248-1277 | in every interleaving a failed entry leaves the session parked on a displayed list answerable for its target, at the menu without a target, disconnected with the wire gone, or UNKNOWN, exactly when the failing segment gives the session up itself, or finds it dead, or finds it still entering with no displayed list pending for another target |
| EntryProtocol.FailedEntryLands | src/jumpserver/session.ts:1248-1277 | as long as no interrupt verification overlapped an entry, that condition always holds |
| EntryProtocol.FailedEntryLeavesShell | src/jumpserver/session.ts:806-818 | a run in which it does not: verified as a shell during the entry, the aborted entry leaves ASSET_SHELL behind |
| EntryProtocol.FailedEntryParksAnother | src/jumpserver/session.ts:1257-1264 | another one: a prompt left pending for a first target outlives it, and the failed entry of a second target is parked under the first one's name |
| SessionExits.StepConfirmsIff | src/jumpserver/session.ts:847-893 | behind an `exit` no shell is in use before the menu was seen, and exactly one kind of step breaks that: a leave whose caller aborts it |
| SessionExits.NoScriptBehindExit | src/jumpserver/session.ts:847-893 | in every run without such a step, no command script is typed behind an `exit` before another asset was entered |
| SessionExits.ScriptBehindExit | src/jumpserver/session.ts:847-893 | a run with such a step in which a script follows the `exit` |
| SessionOutcomes.LeaveAnswersIff | src/jumpserver/session.ts:847-893 | leave succeeds if and only if the menu shows; another exit is prepared if and only if a wait was in vain, the asset's own prompt shows and fewer than three retries were made; it is aborted or fails exactly in the remaining cases |
| SessionOutcomes.LeaveLeavesBehind | src/jumpserver/session.ts:847-893 | a successful leave is at the menu without a target, a failed one UNKNOWN, an aborted one unchanged in its shell |
| LeaveProtocol.ExitsPerLeave | src/jumpserver/session.ts:868-880 | whatever interleaves, one leave types `exit` once per wait it has begun, four times at most |
| SessionOutcomes.ListAnswersIff | src/jumpserver/session.ts:923-1004 | each answer of the asset listing if and only if its condition holds |
| SessionOutcomes.ListLeavesBehind | src/jumpserver/session.ts:923-1004 | a shell or a pager on the screen gives the session up, any other listing stays at the menu |
| SessionOutcomes.ConnectAnswersIff | src/jumpserver/session.ts:350-387 | connect succeeds if and only if the menu shows, and fails with each code exactly when its condition holds |
| SessionOutcomes.ConnectLeavesBehind | src/jumpserver/session.ts:350-387 | a failed connect has no wire and is ERROR, or UNKNOWN when the menu was missed or the close callback ran first; a successful one is at the menu unless it was given up meanwhile |
| SessionOutcomes.BeginningsIff | src/jumpserver/session.ts:697-713 | exec types its script if and only if it is in a shell over an open wire whose write does not throw, and is otherwise refused, lost or failed accordingly; leave, listing and job lines type theirs under exactly their own conditions |
| SessionOutcomes.DisposalGoes | src/jumpserver/session.ts:1006-1031 | a closed session has no wire, target, cooldown or pending prompt left |
| SessionOutcomes.OutsideGoes | src/jumpserver/session.ts:779-788 | output, an interrupt's Ctrl+C and a verification's probe touch screen or wire and nothing else, and a missing wire is not written to |
| SessionOutcomes.WireLossGoes | src/jumpserver/session.ts:1091-1095 | a wire that closes leaves the session DISCONNECTED, or UNKNOWN while it was connecting, and changes nothing else |
| SessionOutcomes.VerificationGoes | src/jumpserver/session.ts:806-818 | an interrupt verification leaves ASSET_SHELL if and only if it succeeds while the session is inside an asset, UNKNOWN otherwise |
| EntryProtocol.EnterBeginStage | src/jumpserver/session.ts:404-502 | the first segment of enter refuses without a byte, resumes without a byte, or types exactly the target line |
| SessionOutcomes.EntryBeginsIff | src/jumpserver/session.ts:404-502 | each refusal of enter's first segment (unknown target, bad index, expired prompt, missing index, not at the menu, in cooldown) if and only if its condition holds; it resumes exactly at its own displayed prompt with an index, and types its target line exactly at the menu for a target whose cooldown is over |
| SessionOutcomes.RefusedEntryTouchesNothing | src/jumpserver/session.ts:404-463 | a refusal leaves the session as it was, except that an expired prompt gives it up |
| SessionOutcomes.EntryBegun | src/jumpserver/session.ts:464-502 | an entry that begins binds the target, forgets its cooldown and the old proof, clears the screen and types the line |
| EntryCooldown.CooldownIff | src/jumpserver/session.ts:444-455 | in every run, at the menu, an entry is answered ASSET_UNREACHABLE without a byte if and only if the target's last dial was refused as unreachable less than 120 s earlier and it was neither entered afresh nor proven nor the session closed since; otherwise its line is typed |
| SessionOutcomes.EntryFailsIff | src/jumpserver/session.ts:521-639 | the wait of enter fails with each code if and only if what is displayed, the wire, the signal and the clock say so |
| SessionOutcomes.EntryGoesOn | src/jumpserver/session.ts:521-590 | otherwise it answers the displayed list with the caller's index, writes its probe into a shell, or waits unchanged |
| SessionOutcomes.IdentityIff | src/jumpserver/session.ts:641-672 | the identity probe succeeds if and only if it was answered and its addresses allow the target; a mismatch, an unparsable or missing answer, a lost wire and an abort are told apart exactly |
| SessionOutcomes.IdentityAccepted | src/jumpserver/session.ts:673-686 | an accepted shell records the probed addresses, is verified exactly on evidence naming the target, and clears cooldown and pending prompt |
| SessionOutcomes.FailedEntryLandsAt | src/jumpserver/session.ts:1248-1277 | exactly which state a failed entry leaves a session in that was still entering, and what of target, pending prompt and cooldown it keeps |
| SessionProofs.StepKeeps | src/jumpserver/session.ts:350-1292 | every segment keeps the session invariant and never forgets a death |
| StateMachine.DeadStaysDead | src/jumpserver/state-machine.ts:14-53 | from DISCONNECTED, UNKNOWN or ERROR no request but CONNECTING leads out of the dead states |
| TargetVerify.QuadsAreLiterals | src/jumpserver/target-verify.ts:52-60 | numbers joined by dots are an IPv4 literal exactly when there are four and none exceeds 255 |
| TargetVerify.MismatchIffAddressesForbid | src/jumpserver/target-verify.ts:81-133 | the verdict is a mismatch exactly when the target is an IPv4 literal and the observed addresses are known and lack it, and positive exactly when they contain it, or for any other target when the host name carries an address and is the target itself |
| Detector.LooksLikeAccountSelection | src/jumpserver/detector.ts:108-170 | a detected list is one block of rows with nothing foreign inside, and every complete contiguous block of 2 to 31 rows behind a prompt is detected as exactly its rows |
| Detector.LooksLikeMenuPrompt | src/jumpserver/detector.ts:194-204 | true exactly when the last line that is not white space is a navigation prompt |
| Detector.OfferedIsUnique | src/jumpserver/detector.ts:152-170 | an ID offered by a detected list names exactly one account, and the offered IDs are an interval |
| Detector.BlockUnique | src/jumpserver/detector.ts:118-150 | the rows found by the backward scan do not depend on where the scan stops, short of the 32-row cap |
| Detector.ScreenDetector.Push | src/jumpserver/detector.ts:212-219 | the tail is the last maxTail characters of everything pushed |
| Detector.ScreenDetector.TailPreview | src/jumpserver/detector.ts:227-231 | a preview is the last n characters seen, as far as the tail reaches |
| JumpServerSession.JumpServerSession.MoveTo | src/jumpserver/session.ts:1220-1228 | the state change is the model's: equal states report nothing, an illegal move becomes UNKNOWN |
| JumpServerSession.JumpServerSession.PollMenu | src/jumpserver/session.ts:350-387 | one pass of connect's wait is the model's segment: menu, lost wire, abort, timeout |
| JumpServerSession.JumpServerSession.BeginEnter | src/jumpserver/session.ts:404-502 | enter up to its first wait is the model's segment; every refusal, the resumption and the target line each happen exactly under the condition of EntryBeginsIff, the clock test of the cooldown included |
| JumpServerSession.JumpServerSession.PollEnter | src/jumpserver/session.ts:521-639 | one pass of the entry wait is the model's segment, and fails with each code exactly when EntryFails says so |
| JumpServerSession.JumpServerSession.PollEnterProbe | src/jumpserver/session.ts:641-686 | the identity probe and its verdict are the model's segment, it ends exactly as ProbeEnds says, and an accepted shell is one whose addresses allow the current target |
| JumpServerSession.JumpServerSession.Recover | src/jumpserver/session.ts:1248-1277 | the state after a failed entry is the model's |
| JumpServerSession.JumpServerSession.BeginExec | src/jumpserver/session.ts:697-713 | a script is typed only into a shell proven for the current target, with addresses that allow it, unless an interrupt verification overlapped an entry |
| JumpServerSession.JumpServerSession.PollExec | src/jumpserver/session.ts:697-771 | one pass of the command wait is the model's segment; it returns each outcome exactly under its condition, Completed(n) only and always for a marker with exit code n, and leads back to ASSET_SHELL only on a parsed exit code |
| JumpServerSession.JumpServerSession.PollExecPrompt | src/jumpserver/session.ts:1189-1203 | one pass of the recovery wait is the model's segment and returns each outcome exactly under its condition, exec's catch block for a probe that cannot be written included |
| JumpServerSession.JumpServerSession.PollLeave | src/jumpserver/session.ts:847-893 | one pass of leave's wait is the model's segment; it answers exactly as LeaveAnswers says and prepares another exit only at the asset's own prompt |
| JumpServerSession.JumpServerSession.PollList | src/jumpserver/session.ts:923-1004 | one pass of the asset listing is the model's segment |
| JumpServerSession.JumpServerSession.CloseSession | src/jumpserver/session.ts:1006-1031 | close drops wire, target, cooldowns and pending prompt and ends in the model's state |
| JumpServerSession.JumpServerSession.ApplyVerdict | src/jumpserver/session.ts:1211-1214 | the outcome of a verification is applied as in the model, whenever it arrives |
| JumpServerSession.JumpServerSession.Handle | src/jumpserver/session.ts:350-1292 | whichever segment or callback runs next, the object does the step of the model and keeps its invariant |
| ManagerProofs.EverythingTypedIsSafe | src/jumpserver/session-manager.ts:578-722 | in every interleaving of queued turns, interrupts, job stops, lost wires and disposal, scripts and job lines are typed only while `activeJob` is null; those of run and batch for T only into a session running a command on T, whose addresses allow T unless an interrupt verification overlapped an entry of that session; and, without such an overlap, a job line for T goes to the proven shell of T exactly when the session is not UNKNOWN |
| ManagerGate.RefusedGateTypesNothing | src/jumpserver/session-manager.ts:594-618 | in every run, a beforeExec that refuses leaves history, wires, sessions and claims as they were; a run or startJob turn is over, a batch goes on to its next command |
| ManagerGate.AllowedGateTypesIff | src/jumpserver/session-manager.ts:619-622 | in every run, a beforeExec that allows types exactly one command, into the turn's own session, if and only if the wire is open and, for run and batch, the session is in ASSET_SHELL and the write does not throw; a job owns the PTY from then on exactly when its line was typed |
| ManagerGate.StepTypes | src/jumpserver/session-manager.ts:542-1148 | whatever happens, a step types at most one command, and only as the first segment of an exec, behind an allowed gate of the turn in flight, or as the existence probe of a batch |
| ManagerGate.OneCommandPerAllowedGate | src/jumpserver/session-manager.ts:857-891 | in every run each turn types at most one command per allowed gate, and a run or startJob turn is allowed, and types, at most one |
| ManagerGate.HistoryIsComplete | src/jumpserver/session-manager.ts:542-1148 | in every run the recorded history holds as many commands as there are scripts and job lines on all wires |
| ManagerPty.PtyIsExclusive | src/jumpserver/session-manager.ts:401-421 | in every interleaving without the steps of the next row, no command script and no job line is ever typed into a PTY behind a job line with no Ctrl+C in between, and a job running in an open PTY has `activeJob` set |
| ManagerPty.GuardLostIff | src/jumpserver/session-manager.ts:433-441 | the exact condition: a step leaves a running job without its claim if and only if it is the late report of a session that was replaced, or the end of an interrupt or stop that began before the job line was typed or whose Ctrl+C was not sent |
| ManagerPty.CheckedTurnsFindItFree | src/jumpserver/session-manager.ts:401-408 | what assertNoActiveJob buys: without those steps, from the check until the end of the turn no PTY is running a job |
| ManagerBetrayals.StaleReportBetrays | src/jumpserver/session-manager.ts:1383-1388 | a run in which the loss of a replaced session drops the claim of a running job, and exec types into it |
| ManagerBetrayals.EarlyInterruptBetrays | src/jumpserver/session-manager.ts:433-441 | a run in which an interrupt begun before the job line drops the claim of the job it never reached, and exec types into it |
| ManagerBetrayals.UnsentInterruptBetrays | src/jumpserver/session-manager.ts:433-441 | a run in which writing the Ctrl+C of an interrupt throws, the claim of the job it did not reach is dropped, and exec types into it |
| ManagerBetrayals.JobLineIntoUnknown | src/jumpserver/session-manager.ts:887-891 | a run in which startJob types its line into an UNKNOWN session over an open wire |
| ManagerProofs.OwnersWereStarted | src/jumpserver/session-manager.ts:819-915 | the job named by `activeJob` typed its line while the flag was clear |
| ManagerClaims.ClaimsComeFromStartJob | src/jumpserver/session-manager.ts:401-421 | `activeJob` is set only in the last segment of that job's own startJob turn, and it was clear before |
| ManagerProofs.WorldRunKeeps | src/jumpserver/session-manager.ts:433-972 | the manager's invariant (one operation in flight, no owner while a turn may type, the target held) survives every run |
| ManagerDials.OneDialPerUnreachableTarget | src/jumpserver/session-manager.ts:733-751 | every turn types at most two target lines, and exactly one when its dialed attempt was refused as unreachable and the retry woke before the cooldown was over |
| ManagerDials.RefusalStartsCooldown | src/jumpserver/session.ts:591-598 | the unreachable refusal starts a cooldown of UNREACHABLE_COOLDOWN_MS from its own clock reading |
| ManagerDials.QuarantinedTypesNothing | src/jumpserver/session.ts:439-481 | in its cooldown, parked or dead, a session types no second target line |
| ManagerTurns.TurnBegins | src/jumpserver/session-manager.ts:424-1330 | what each queued operation does first, or that it is refused without a trace: settings, claim and live session decide exactly as cited |
| ManagerTurns.PasswordGoes | src/jumpserver/session-manager.ts:464-500 | without a password nothing happens; with one the current session is closed, both claims end and a new session is connected |
| ManagerTurns.OpeningGoes | src/jumpserver/session-manager.ts:500-513 | a failed connect forgets its own session; otherwise the operation goes on with the session that is live now, and never while a job owns the shell, startJob apart |
| ManagerTurns.LeavingGoes | src/jumpserver/session-manager.ts:764-811 | only an unconfirmed menu is healed by closing the session and connecting again; a confirmed one is entered from, any other failure ends the turn |
| ManagerTurns.EnteringGoes | src/jumpserver/session-manager.ts:733-751 | an entry that succeeded arrives at gate or commands if the session is bound to the target; a failed one is tried once more if and only if it was unreachable or timed out, the first attempt, and of run, batch or startJob |
| ManagerTurns.SleepingGoes | src/jumpserver/session-manager.ts:748-751 | the second attempt navigates from the state it finds: nothing on the target itself, out of another asset first, in from the menu or the target's own prompt |
| ManagerTurns.TopGoes | src/jumpserver/session-manager.ts:1028-1060 | a batch goes on only while its session is bound to the target, through the existence probe if the command has one |
| ManagerTurns.RunningGoes | src/jumpserver/session-manager.ts:1050-1148 | behind a command a batch goes on, any other turn is over; a command found missing never reaches its gate |
| ManagerTurns.InterruptGoes | src/jumpserver/session-manager.ts:433-441 | an interrupt touches a live current session only, with one Ctrl+C if the wire takes it, and no claim before its probe resolved |
| ManagerTurns.StopGoes | src/jumpserver/session-manager.ts:927-945 | a stop is refused without a trace exactly while another job owns the PTY or the same stop is in flight; without a session both claims end; else it is recorded and one Ctrl+C is sent |
| ManagerTurns.SessionGoes | src/jumpserver/session-manager.ts:486-499 | output, a dial, a poll and a resend reach any session ever created, current or not, and touch neither turn nor claims |
| ManagerTurns.ProbeGoes | src/jumpserver/session.ts:806-812 | a verification writes its probe to the session it began with, if that still has a wire |
| ManagerTurns.VerdictGoes | src/jumpserver/session.ts:806-818 | the outcome of a probe reaches the session it was sent to, once |
| ManagerTurns.ConclusionGoes | src/jumpserver/session-manager.ts:946-959 | the end of an interrupt drops activeJob alone, the end of a stop applies its verdict once more and drops both claims |
| ManagerTurns.LossGoes | src/jumpserver/session-manager.ts:1383-1388 | a lost wire drops both claims whichever session reports it, unless the manager is disposed |
| ManagerTurns.DisposalGoes | src/jumpserver/session-manager.ts:1346-1354 | disposal closes and forgets the current session and leaves the claims |
| SessionManager.SessionManager.SessionWasLost | src/jumpserver/session-manager.ts:1383-1388 | a lost wire drops both claims unless the manager is disposed, whichever session reports it |
| SessionManager.SessionManager.WireOfSessionClosed | src/jumpserver/session-manager.ts:1383-1388 | the report of session k keeps the invariants, and takes the guard from the PTY exactly when it is a betrayal |
| SessionManager.SessionManager.Interrupt | src/jumpserver/session-manager.ts:433-441 | one Ctrl+C at most, to the live current session only; once it is sent no PTY is running a job |
| SessionManager.SessionManager.StopJob | src/jumpserver/session-manager.ts:927-940 | refused exactly when another job owns the shell or this stop is in flight; otherwise the stop is recorded before one Ctrl+C, after which no PTY is running a job |
| SessionManager.SessionManager.StopSettled | src/jumpserver/session-manager.ts:941-959 | the verdict is applied to the session the stop began with and both claims end whatever it was; the guard goes exactly when a job its Ctrl+C missed is running |
| SessionManager.SessionManager.OpenSession | src/jumpserver/session-manager.ts:464-513 | reconnecting closes the stale session, drops both claims and installs a fresh session object; a guarded PTY stays guarded |
| SessionManager.SessionManager.ExecuteOn | src/jumpserver/session-manager.ts:578-644 | behind its gate a run or batch types a safe script, and into a guarded PTY only at a prompt |
| SessionManager.SessionManager.ExecNow | src/jumpserver/session-manager.ts:542-577 | exec is refused exactly without a shell or while a job is claimed or being stopped; a guarded PTY is typed into only while it is free |
| SessionManager.SessionManager.StartStreamingOn | src/jumpserver/session-manager.ts:887-891 | the job line is typed before the claim, safely and at a prompt, the claim guards the PTY from then on, and no claim is made when the wire is gone |
| SessionManager.SessionManager.DisposeManager | src/jumpserver/session-manager.ts:1346-1354 | disposal closes the current session and forgets it |
| Batch.RunCommands | src/jumpserver/session-manager.ts:1027-1148 | row by row the result tells what happened: which commands have rows and in what order, each error if and only if the answers say so, a thrown exec never Ok; per command the log holds exactly its probe, gate, script and audit record, in order; the loop ends early exactly on a lost binding, an error that left the command running, or the signal |
| Batch.BatchAccounting | src/jumpserver/session-manager.ts:1027-1148 | rows are a prefix of the commands in order, complete unless the binding broke or a command is still running; each script at most once, after its own gate, never for a blocked, missing or refused command; one audit record per row but the broken-binding one |
| Mutex.SessionMutex.Enqueue | src/jumpserver/mutex.ts:9-15 | a call waits for the gate that was the tail and becomes the tail |
| Mutex.SessionMutex.Proceed | src/jumpserver/mutex.ts:16-22 | behind its predecessor's gate a call runs, or is dropped with its gate opened when it was aborted |
| Mutex.SessionMutex.AtMostOneRuns | src/jumpserver/mutex.ts:9-26 | at most one call runs, and all calls before it are through |
| Gates.PermitsConserved | src/jumpserver/concurrency.ts:82-116 | in every schedule free and held permits add up to the size, nobody waits while one is free, at most `size` operations hold one, and permits are granted in order of arrival |
| Gates.TurnsExclusive | src/jumpserver/mutex.ts:2-27 | in every schedule at most one turn per manager runs, first come first served, and a call dropped while waiting never ran |
| Gates.NeverStuck | src/jumpserver/session-manager.ts:982-995 | gate and mutexes together never deadlock: while an operation is outstanding some step is possible |
| Gates.StepsDecrease | src/jumpserver/session-manager.ts:348-354 | every such step brings the outstanding operations closer to their end |
| Gates.CallRunsIff | src/jumpserver/mutex.ts:16-25 | a queued call runs if and only if its turn comes without its signal being set, and is dropped, never run, if and only if it is set by then |
| Concurrency.Semaphore.AcquirePermit | src/jumpserver/concurrency.ts:93-100 | a free permit is taken at once, otherwise the caller waits last |
| Concurrency.Releaser.Call | src/jumpserver/concurrency.ts:102-115 | the first call hands the permit to the first waiter or back, further calls change nothing |
| Concurrency.BoundedAndOrdered | src/jumpserver/concurrency.ts:39-76 | in every schedule at most min(limit, n) items are in flight, each is claimed at most once and in order, and onSettled counts 1, 2, 3, ... |
| Concurrency.ReturnsEverything | src/jumpserver/concurrency.ts:72-76 | a normal return has the result of every item in its place and reported all of them |
| Concurrency.NothingStartsAfterTheSignal | src/jumpserver/concurrency.ts:51-57 | no item starts once the signal is set |
| Concurrency.WorkerGoes | src/jumpserver/concurrency.ts:50-61 | a worker takes the next item unless the signal is set or none is left, and ends exactly then |
| Concurrency.MapStepsDecrease | src/jumpserver/concurrency.ts:50-73 | in every schedule each step of a worker that has not ended brings the map closer to its end |
| Concurrency.BoundedMap.ClaimNext | src/jumpserver/concurrency.ts:52-59 | the top of a worker's loop is the model's step |
| Concurrency.BoundedMap.Settle | src/jumpserver/concurrency.ts:60-68 | storing a result and counting it is the model's step |
| TerminalObserver.FitIsLongest | src/jumpserver/terminal-observer.ts:100-118 | the retained events are the longest suffix within both caps |
| TerminalObserver.PushedIsFit | src/jumpserver/terminal-observer.ts:100-118 | evicting event by event leaves the same as evicting once at the end |
| TerminalObserver.SinceIsExact | src/jumpserver/terminal-observer.ts:120-124 | reading from the last number seen returns exactly the events recorded since, without those evicted meanwhile |
| TerminalObserver.TerminalRingBuffer.Push | src/jumpserver/terminal-observer.ts:100-118 | numbers stay contiguous, the byte count correct, and both caps hold |
| TerminalObserver.TerminalRingBuffer.SetScrollbackRows | src/jumpserver/terminal-observer.ts:88-97 | the new event cap is clamped and enforced at once |
| TerminalObserver.TerminalRingBuffer.SnapshotSince | src/jumpserver/terminal-observer.ts:120-124 | selecting by number takes the last cursor - since events |
| JobOutput.HarvestExtends | src/runtime/job-store.ts:199-210 | a harvest extends the job's stream by exactly the output handed in; the buffer stays the last 256 KiB of it and truncated says whether that is less than all |
| JobOutput.ExactlyOnce | src/runtime/job-store.ts:199-210 | whatever was recorded and evicted since its last harvest, a job takes exactly the unread events the ring still holds, in order and none twice; its stream gains all recorded output exactly when no event evicted unread carried any |
| JobOutput.EvictedOutputIsLost | src/runtime/job-store.ts:199-210 | a ring of one event, and the output that left it unread |
| JobStreams.StreamIsLogSoFar | src/runtime/job-store.ts:177-224 | in every run of stops, pumps and prunes in which the harvests of a job miss nothing, its stream is at all times exactly the output recorded between its start and its last harvest |
| JobStreams.StreamEndsWithRunning | src/runtime/job-store.ts:276-295 | once a job has stopped running, for whatever reason, nothing is ever added to its stream again |
| JobStreams.RecordIsStream | src/runtime/job-store.ts:177-224 | in every run the record of a job holds the tail of exactly what was harvested for it |
| JobStreams.TailIsLost | src/runtime/job-store.ts:276-295 | a run in which everything a job printed before it was stopped is missing from its record |
| JobOutput.HarvestLoop | src/runtime/job-store.ts:200-210 | the harvest loop computes that |
| JobOutput.ReadsPartitionTheStream | src/runtime/job-store.ts:316-354 | however harvests and reads interleave, the windows are disjoint stretches of the stream in order, and lengths plus droppedChars add up to the cursor |
| JobOutput.ReadsReachTheEnd | src/runtime/job-store.ts:334-354 | repeated reads reach the end of the stream |
| JobOutput.ReadIsExact | src/runtime/job-store.ts:334-354 | a read by cursor, implicit or explicit, hands out exactly stream[from..from + limit] as far as the stream goes, with limit = max(1, maxChars or 8000) and from the cursor or where the buffer begins; nextSeq, droppedChars, partial and the job's new cursor exactly |
| JobOutput.ExplicitCursorStaysInsideIff | src/runtime/job-store.ts:334-344 | an explicit cursor keeps the job's cursor within the stream exactly when it lies within the stream itself |
| JobOutput.FullReadIsTail | src/runtime/job-store.ts:322-333 | a full read hands out exactly what of the stream is still buffered, says how much is gone, and moves the cursor to the end |
| JobOutput.Read | src/runtime/job-store.ts:316-354 | the method hands out exactly those stretches, whatever stream the buffer is the tail of |
| JobStops.OneProbePerJob | src/runtime/job-store.ts:259-295 | in every interleaving of stop, stopAll, pump, prune and dispose manager.stopJob is called at most once per job, exactly the verified jobs are STOPPED, and a job is between states only while one stop is in flight |
| JobStops.CallersAgree | src/runtime/job-store.ts:259-274 | all callers of stop for a job are told the same outcome, however late |
| JobStops.StepKeeps | src/runtime/job-store.ts:177-307 | every step keeps the store consistent, and a STOPPED or LOST job never changes again |
| JobOutcomes.JobStarts | src/runtime/job-store.ts:153-172 | a started job is RUNNING with an empty record, cursor and stream, and nothing else changes |
| JobOutcomes.RunningJobGoes | src/runtime/job-store.ts:177-295 | a running job leaves RUNNING if and only if its shell is gone, its own conversation stops it, or a pump finds now - startedAt >= maxDurationMs; then the manager is asked exactly once with that reason, or the job is LOST at once with the reason on record |
| JobOutcomes.VerifyingJobGoes | src/runtime/job-store.ts:282-295 | a job being verified becomes STOPPED or LOST exactly as the manager answers, with the source's reason, and nothing else touches it |
| JobOutcomes.CallerJoins | src/runtime/job-store.ts:259-268 | whoever stops a job of its own conversation holds its one promise, an unknown or foreign job is refused without a trace |
| JobOutcomes.CallerIsTold | src/runtime/job-store.ts:267-274 | a caller is told the job's final state once the manager has answered, and not before |
| JobOutcomes.PromiseIsForgotten | src/runtime/job-store.ts:269-273 | the promise of a stop is forgotten once the manager has answered, and not before |
| JobOutcomes.ListedIff | src/runtime/job-store.ts:369-378 | a job leaves the list exactly when the store is disposed or a prune finds it finished for more than ten minutes |
| JobStore.JobStore.Stop | src/runtime/job-store.ts:259-274 | a stop joins the one in flight or begins it, and asks the manager only for a job it never asked about |
| JobStore.JobStore.BeginStopInternal | src/runtime/job-store.ts:276-295 | the states up to the question to the manager |
| JobStore.JobStore.StopJobSettled | src/runtime/job-store.ts:282-294 | the verdict decides between STOPPED and LOST, with the source's reason |
| JobStore.JobStore.Pump | src/runtime/job-store.ts:177-224 | a pump over all jobs is a run of the step system |
| JobStore.JobStore.ReadOutput | src/runtime/job-store.ts:316-354 | a job of another conversation is invisible, and a read touches its own record only |
| AuditStore.GrownFile | src/runtime/audit-store.ts:150-190 | reading a grown file from where the last read stopped yields exactly the records it gained, wherever the cut fell |
| AuditStore.AuditStore.Refresh | src/runtime/audit-store.ts:150-190 | after any refreshes everything seen is what parsing the text read so far as a whole yields; a shorter file is read from its start, and that text is the file exactly when the file became shorter or only grew |
| AuditStore.RecreatedFileIsMissed | src/runtime/audit-store.ts:157-163 | a re-created file of the same size is not read again |
| AuditStore.AuditStore.Push | src/runtime/audit-store.ts:192-199 | the ring is the last ringSize records of all seen |
| AuditStore.AuditStore.Cut | src/runtime/audit-store.ts:208-229 | a page is exactly the stretch of the whole trail from max(since + 1, dropped) on, as long as the cap allows, with its cursor, total and first index |
| AuditStore.ChainedPages | src/runtime/audit-store.ts:208-229 | following nextIndex over a growing trail delivers each record at most once and in order, and what it skips some page's firstIndex announced as evicted |
| AuditStore.PageIsStretch | src/runtime/audit-store.ts:208-229 | the same of the page function: as many items as there are up to the cap, never fewer |
| AuditStore.AuditStore.Archive | src/runtime/audit-store.ts:242-274 | rotation refreshes first and reports every record seen since the last rotation, those of files cut short in between included, so exactly the records of the archived file when there are none of those; a missing file or a failed rename reports none and keeps what was seen |
| OutputBuffer.OutputBuffer.Push | src/jumpserver/output-buffer.ts:23-41 | the chunks hold the last `limit` characters pushed and truncated says whether that is less than all |
| OutputBuffer.OutputBuffer.Peek | src/jumpserver/output-buffer.ts:43-45 | the last min(limit, N) characters |
| OutputBuffer.OutputBuffer.Take | src/jumpserver/output-buffer.ts:47-51 | take reports an uncut text always, so its flag is right exactly when nothing was cut |
| OutputBuffer.TakeLosesTheFlag | src/jumpserver/output-buffer.ts:47-51 | two characters into a buffer of one: the text handed out is cut and said to be whole |
| OutputBuffer.FoundIff | src/jumpserver/output-buffer.ts:88-102 | a plain marker is found, under every fragmentation, exactly when some push leaves an occurrence with at most 4096 characters behind it |
| OutputBuffer.MatchIsSoundAndStays | src/jumpserver/output-buffer.ts:88-102 | a match is in the output and is not forgotten |
| OutputBuffer.MarkerWatcher.Push | src/jumpserver/output-buffer.ts:88-102 | the watcher's flag is that of the specification and it fires once |
| CommandRunner.EchoNeverParses | src/jumpserver/command-runner.ts:43-45 | for a command without the token, nothing made from either form of the script by inserting line breaks parses as done |
| CommandRunner.ExitCodeRoundTrip | src/jumpserver/command-runner.ts:110-165 | echo, output without the token, marker line and anything after it parse to the exit code that was printed |
| CommandRunner.DoneLineIff | src/jumpserver/command-runner.ts:160-165 | an exit code is parsed if and only if some token starts a line and has a colon and a digit behind it |
| CommandRunner.PlainLinesStay | src/jumpserver/command-runner.ts:182-211 | output lines free of script, token and `__dsh_rc` are kept verbatim and in place |
| CommandRunner.OutputSurvives | src/jumpserver/command-runner.ts:182-211 | for either form of the script, and however its echo was broken, plain output is kept verbatim and in order behind what cleaning leaves of the echo, which depends on the echo alone |
| CommandRunner.CleanedOutputIff | src/jumpserver/command-runner.ts:182-211 | for an unbroken echo and plain output, the text returned is that output up to its edges exactly when the command takes the inline script and has no line break inside: the brace of a brace group, and the lines of a command of several lines, are handed out as output; only of the latter it asks that the command is free of `__dsh_rc` and holds more than quotes, parentheses, semicolons and white space |
| CommandRunner.EchoLineGoesIff | src/jumpserver/command-runner.ts:227-241 | what stands in front of the wrapper on its line goes with it exactly when nothing but quotes, parentheses, semicolons and white space is left of the line |
| CommandRunner.CaptureLineGoes | src/jumpserver/command-runner.ts:227-241 | the echo of an exit-code capture goes as a line |
| CommandRunner.TwoLinesLeak | src/jumpserver/command-runner.ts:198-204 | a command of two lines takes the inline script, and both lines come back as its output |
| CommandRunner.CleanCommandOutput | src/jumpserver/command-runner.ts:182-211 | the line loop computes the kept lines |
| CommandRunner.Finalize | src/jumpserver/command-runner.ts:255-259 | the cleaned text is empty or ends in exactly one line break |
| CommandRunner.BlankLineGoes | src/jumpserver/command-runner.ts:255-258 | a blank first line goes, whichever line break ends it, and any other first line stays |
| CommandRunner.CanAppendInline | src/jumpserver/command-runner.ts:62-92 | the quote scan with its index jumps decides the specification |
| CommandRunner.AcceptsIff | src/jumpserver/command-runner.ts:62-86 | accepted are exactly the commands without a bare `#` whose runs of bare `&` are all even |
| CommandRunner.QuotesHide | src/jumpserver/command-runner.ts:62-76 | nothing between two quotes of a kind counts, and an open quote hides the rest |
| CommandRunner.BareCounts | src/jumpserver/command-runner.ts:62-86 | outside of quotes every character counts as itself, a backslash and the character behind it apart |
| CommandRunner.EscapedHides | src/jumpserver/command-runner.ts:69-72 | a backslash outside of quotes hides itself and the character behind it |
| CommandRunner.EndsCleanlyIff | src/jumpserver/command-runner.ts:88-91 | up to white space and one semicolon the last character decides: anything but `>`, `<`, an ampersand or a pipe may stand there |
| CommandRunner.TokenOnlyInWrapper | src/jumpserver/command-runner.ts:120-127 | the token occurs in the script only where the wrapper put it |
| ProbeAnswer.AnswerRoundTrip | src/jumpserver/probe.ts:30-56 | behind the first start token, host, user, directory and addresses are read back exactly as they were printed, with either line break, and there is no answer exactly when one of the first three is missing or a question mark |
| ProbeAnswer.EchoAnswersIff | src/jumpserver/probe.ts:30-56 | the exact condition: an echo of the probe script, however the terminal broke it, is taken for an answer if and only if its start token is on one line and, between the tokens, a line begins with each of the labels H, U and P |
| ProbeAnswer.UnbrokenEchoIsNoAnswer | src/jumpserver/probe.ts:30-56 | an unbroken echo is no answer, whatever precedes it and whatever follows, the real answer included |
| ProbeAnswer.BrokenEchoAnswers | src/jumpserver/probe.ts:30-56 | an echo broken before each label is an answer, with no addresses to contradict it |
| Compare.KeyIffMultiset | src/jumpserver/compare.ts:145-152 | while no line holds a NUL, a count and U+0001 in a row, the serialized keys are equal exactly when the outputs are equal as multisets of lines; `NulFreeIsMarkFree` says that NUL-free lines qualify |
| CompareMarks.EveryMarkCollides | src/jumpserver/compare.ts:145-152 | that condition on lines cannot be weakened: every line that breaks it occurs in an output sharing its key with a different output |
| CompareMarks.NulCollides | src/jumpserver/compare.ts:145-152 | the smallest such collision: one marked line against the two lines it is taken for |
| CompareGroups.BucketsPartition | src/jumpserver/compare.ts:153-159 | every ok target is in exactly one bucket, which holds exactly its peers in order |
| CompareGroups.DistinctCountsClasses | src/jumpserver/compare.ts:139-182 | for outputs without such lines, the number of buckets is the number of different multisets |
| CompareGroups.GroupsAreExact | src/jumpserver/compare.ts:139-182 | for outputs without such lines the whole report: one block per class of equal multisets, ordered by size and then by first appearance, each showing the lines of its first target once and in order; the first block has one outlier per ok target outside the class, in order and under its name, the others one per member, all against the lines of the first; a line is in missing exactly when the reference has it more often, in extra exactly when the target does, never twice |
| CompareGroups.GroupBySignature | src/jumpserver/compare.ts:139-193 | the loops compute those groups, and the report they return says exactly that |
| Compare.MissingAndExtraExplain | src/jumpserver/compare.ts:189-193 | reference minus missing plus extra is the target's lines, and both are empty exactly for equal multisets |
| Compare.MultisetDifference | src/jumpserver/compare.ts:196-208 | the result is the multiset difference, in order |
| Compare.DedupeStable | src/jumpserver/compare.ts:211-219 | every line once, in the order of first appearance |
| OutputBudget.TextFitsTheBudget | src/jumpserver/output-budget.ts:205-302 | the returned text is at most the larger of the budget and of notice plus margin, plus the line naming a spill |
| OutputBudget.DefaultCapHolds | src/jumpserver/output-budget.ts:205-302 | with the defaults and no spill the text never exceeds 64 KiB |
| OutputBudget.OmissionIsAccountedFor | src/jumpserver/output-budget.ts:232-302 | over budget at least one line is omitted and announced, and kept head, kept tail and omitted lines make up the line count |
| OutputBudget.KeptExactly | src/jumpserver/output-budget.ts:228-260 | exactly which lines are kept over budget: the last headLines lines if there are more than twice as many and they fit half of the room, the first headLines lines if they fit what is left, and otherwise of either the longest run of leading lines that does |
| OutputBudget.WithinBudgetIsWhole | src/jumpserver/output-budget.ts:214-229 | within the budget nothing is left out, and the text is reported as cut exactly when a line was folded |
| OutputBudget.EndIsShownIff | src/jumpserver/output-budget.ts:249-260 | the end of an over-budget output is shown exactly when there are more than twice headLines lines and the whole tail fits half of the room |
| OutputBudget.EndIsLost | src/jumpserver/output-budget.ts:249-260 | an over-budget text whose first line is shown and whose last line is not |
| OutputBudget.FoldAccountsIff | src/jumpserver/output-budget.ts:125-134 | head, tail and announced bytes of a folded line add up to its bytes exactly when no character of it fits both ends |
| OutputBudget.AsciiFoldAccountsIff | src/jumpserver/output-budget.ts:125-134 | for single-byte characters exactly when the line is at least as long as both ends together |
| OutputBudget.LongThresholdAccounts | src/jumpserver/output-budget.ts:125-134 | from a threshold of 128 on, the folded text is the longest prefix and the longest suffix that fit half of the threshold, around the number of bytes left out, exactly |
| OutputBudget.ShortLineStays | src/jumpserver/output-budget.ts:126-127 | a line within the threshold is left alone |
| OutputBudget.ShortThresholdOverlaps | src/jumpserver/output-budget.ts:125-134 | a line folded at ten bytes that announces nothing omitted and shows more than it has |
| OutputBudget.FoldKeepsLines | src/jumpserver/output-budget.ts:136-145 | folding changes no line count |
| OutputBudget.TakeHeadBytes | src/jumpserver/output-budget.ts:93-103 | the longest prefix that fits |
| OutputBudget.TakeTailBytes | src/jumpserver/output-budget.ts:106-117 | the longest suffix that fits |
| OutputBudget.TakeHeadBytesFromLines | src/jumpserver/output-budget.ts:151-161 | the longest run of leading whole lines that fits |
| OutputBudget.ApplyOutputBudget | src/jumpserver/output-budget.ts:205-302 | the method computes the budgeted output |

## Left out

- SSH transport, sockets, the console page, tool registration, configuration and readiness checks: input and output around the protocol.
- The command classifier, the permission gate and the target scope: `blocked` and the answers of `beforeExec` are inputs.
- Screen patterns, banner classification, escape stripping, redaction, JSON parsing and the IPv4 search inside host names: inputs, or functions about which nothing is assumed.
- Host-name, user and directory fields of a session, timestamps, log lines and the wording of errors: they decide nothing that is modelled.
- A write that throws on an attached wire, outside exec and the Ctrl+C of interrupts and stops: there only a missing wire is modelled as one.
- The reconnect timer and the idle timer: the turns they queue are ordinary connect and close turns.
- The asset cache, alias hints and the asset table of `listAssets`: only the session states of a listing are modelled.
- SessionManager: the class covers the segments that decide PTY ownership and typing; the navigation between them, and the batch's existence probe, are modelled on values in `Manager`.
- Manager: `runTargetBatch`'s permit is not a step of it, since `Gates` covers the permit together with the queue.
- JobStops: job identifiers are taken to be fresh, as random ones are.
- JobOutput.ReadsPartitionTheStream: is about implicit reads; explicit cursors may overlap them, and `ReadIsExact` says what either hands out.
- CommandRunner.CleanedOutputIff: asks for an unbroken echo, and of a command of several lines that its echo is more than the cleaner's own noise; otherwise `OutputSurvives` says that the output is kept, not what is left of the echo.
- CommandRunner: exit codes are the exact numbers their digits spell; a code too long for a double is not modelled.
- Utf8: one character is one code point; a cut through a surrogate pair is not modelled.
- OutputBudget.TextFitsTheBudget: asks for a text shorter than 2 to the 53, which every JavaScript string is.
- AuditStore: reads are aligned to characters; day rotation, metrics and retention are not modelled.
- Compare: line normalization and the collection of outputs from hosts are not modelled.
- Compare.KeyIffMultiset: asks that no line is marked; `EveryMarkCollides` shows that no marked line can be allowed.
- OutputBuffer: a marker watcher with a pattern is modelled as a function of its tail.
