/**
 * One bastion session (src/jumpserver/session.ts) as a step system. Every function below is one
 * synchronous segment: what the code does from one await to the next. Between two segments anything
 * else may happen to the session: output, a closing wire, an interrupt verification, a disposal.
 * A segment reads the clock, the abort signal and the marker watcher through Obs and the screen
 * through Screen, so every answer of the terminal is possible.
 */
module Session {
  import opened Basics
  import opened StateMachine
  import opened TargetVerify
  import opened Detector

  const UNREACHABLE_COOLDOWN_MS: int := 120000

  /** The number of delays between exit attempts in leave(). */
  const LEAVE_RETRIES: nat := 3

  datatype ScreenKind = MenuScreen | ShellScreen | OtherScreen

  /** What a KoKo failure banner says, in the order the code tests it. */
  datatype Banner = NotAuthorized | NotFound | Unreachable | OtherBanner

  /** The detector's answers about the current tail. */
  datatype Screen = Screen(
    kind: ScreenKind,            // detect()
    accounts: AccountSelection,  // looksLikeAccountSelection on the last 2048 characters
    menuPrompt: bool,            // looksLikeMenuPrompt on the last 400
    shellPrompt: bool,           // looksLikeShellPrompt on the last 600
    failure: bool,               // a failure marker in the last 400
    banner: Banner,              // the class of the failure banner in the last 2000
    lateBanner: Banner)          // the same for the last 2048, read when the wait ends without a shell

  const BLANK_SCREEN := Screen(OtherScreen, NO_SELECTION, false, false, false, OtherBanner, OtherBanner)

  datatype ProbeInfo = ProbeInfo(hostname: Option<string>, addresses: seq<string>, embedded: bool)

  /** One poll of a wait loop. */
  datatype Obs = Obs(
    matched: bool,              // the marker watcher fired
    aborted: bool,              // the caller's signal
    expired: bool,              // Date.now() >= deadline
    probe: Option<ProbeInfo>,   // parseProbeOutput
    exitCode: Option<nat>,      // parseDoneLine
    threw: bool)                // a write of exec to the attached wire throws in this segment

  datatype ErrorCode =
    | ASSET_NOT_FOUND | INVALID_ARGUMENT | ACCOUNT_SELECTION_EXPIRED | ACCOUNT_SELECTION_REQUIRED
    | NOT_AT_MENU | NOT_IN_ASSET | ASSET_UNREACHABLE | ASSET_NOT_AUTHORIZED | ASSET_ENTER_TIMEOUT
    | ASSET_VERIFY_FAILED | TARGET_VERIFICATION_FAILED | CONNECTION_LOST | MENU_NOT_DETECTED
    | MENU_RETURN_FAILED | COMMAND_STATE_UNKNOWN | UNKNOWN_STATE | ABORTED | CONNECT_FAILED
    | WIRE_GONE     // a write to a dropped wire throws
    | WRITE_FAILED  // a write to an attached wire threw

  datatype Outcome =
    | Succeeded
    | Completed(exitCode: nat)
    | SignalLost
    | TimedOut(recovered: bool)
    | Failed(code: ErrorCode)

  datatype Write =
    | TargetLine(target: string)
    | AccountId(index: int, list: AccountSelection)
    | Script(onTarget: Option<string>, addresses: seq<string>)  // with the session's target and recorded addresses
    | Probe
    | CtrlC(outOfBand: bool)  // of an interrupt or a job stop, or of the exec in flight
    | ExitLine
    | ListKey
    | JobLine

  /** The operation in flight: where it is waiting. */
  datatype Op =
    | Idle
    | Dialing
    | MenuWait
    | EnterWait(target: string, account: Option<int>, chosen: bool)
    | EnterProbe(target: string)
    | ExecWait
    | ExecPrompt(aborting: bool)
    | ExecProbe(aborting: bool)
    | LeaveWait(attempt: nat)
    | LeaveBackoff(attempt: nat)
    | ListWait
    | Returned(outcome: Outcome)

  /** The session state with what onStateChange has reported so far. */
  datatype Life = Life(
    state: SessionState,
    wasDead: bool,   // DISCONNECTED, UNKNOWN or ERROR was reported
    revived: bool)   // a live state was reported after that

  datatype Sess = Sess(
    life: Life,
    wire: bool,                        // wire !== null
    wireClosed: bool,
    screen: Screen,
    pending: Option<string>,           // pendingAccountChoice.target
    currentTarget: Option<string>,
    currentIps: seq<string>,
    currentVerified: bool,
    unreachable: map<string, int>,     // target -> until
    op: Op,
    // history, for the specification
    writes: seq<Write>,                // bytes handed to the wire
    proven: Option<string>,            // the target whose identity check passed since the last target line
    overlapped: bool)                  // an interrupt verification put the session in ASSET_SHELL during an entry

  const FRESH: Sess := Sess(Life(DISCONNECTED, false, false), false, false, BLANK_SCREEN, None, None, [], false,
                            map[], Idle, [], None, false)

  // ----- shared pieces -----

  function Move(l: Life, next: SessionState): Life {
    if l.state == next then l
    else
      var resolved := NextState(l.state, next);
      Life(resolved, l.wasDead || Dead(resolved), l.revived || (l.wasDead && !Dead(resolved)))
  }

  function SetState(s: Sess, next: SessionState): Sess { s.(life := Move(s.life, next)) }

  function Put(s: Sess, w: Write): Sess { s.(writes := s.writes + [w]) }

  predicate Gone(s: Sess) { s.wireClosed || !s.wire }

  function Return(s: Sess, outcome: Outcome): Sess { s.(op := Returned(outcome)) }

  function OnWireClose(s: Sess): Sess { SetState(s.(wireClosed := true), DISCONNECTED) }

  /** Drop the wire; `notified`: closing it ran the close callback at once. */
  function DropWire(s: Sess, notified: bool): Sess {
    var dropped := s.(wire := false, wireClosed := true);
    if s.wire && notified then OnWireClose(dropped) else dropped
  }

  function ClearTarget(s: Sess): Sess { s.(currentTarget := None) }

  function Close(s: Sess, notified: bool): Sess {
    SetState(ClearTarget(DropWire(s, notified)).(screen := BLANK_SCREEN, unreachable := map[], pending := None),
             DISCONNECTED)
  }

  // ----- connect -----

  function ConnectBegin(s: Sess): Sess {
    if s.life.state == JUMPSERVER_MENU || s.life.state == ASSET_SHELL then Return(s, Succeeded)
    else SetState(s, CONNECTING).(op := Dialing)
  }

  function ConnectFail(s: Sess, notified: bool, code: ErrorCode): Sess {
    Return(SetState(DropWire(s, notified), ERROR), Failed(code))
  }

  function ConnectDialed(s: Sess, dialed: bool): Sess {
    if dialed then s.(wire := true, wireClosed := false, op := MenuWait) else ConnectFail(s, false, CONNECT_FAILED)
  }

  function MenuPoll(s: Sess, o: Obs, notified: bool): Sess {
    if s.screen.kind == MenuScreen then Return(SetState(s, JUMPSERVER_MENU), Succeeded)
    else if Gone(s) || (!o.aborted && o.expired) then ConnectFail(SetState(s, UNKNOWN), notified, MENU_NOT_DETECTED)
    else if o.aborted then ConnectFail(s, notified, ABORTED)
    else s
  }

  // ----- enter -----

  predicate Parked(s: Sess, target: string) { s.pending == Some(target) && s.life.state == ENTERING_ASSET }

  predicate CanResume(s: Sess, target: string, account: Option<int>) {
    account.Some? && Parked(s, target) && !Gone(s) && s.screen.accounts.detected
  }

  predicate InCooldown(s: Sess, target: string, now: int) {
    target in s.unreachable && s.unreachable[target] - now > 0
  }

  /** The displayed prompt went away before it was answered. */
  function EnterExpired(s: Sess): Sess {
    Return(SetState(s.(pending := None), if Gone(s) then DISCONNECTED else UNKNOWN), Failed(ACCOUNT_SELECTION_EXPIRED))
  }

  /** What enter decides before its first byte. */
  datatype Admission = Refused(code: ErrorCode) | Lapsed | Resumed | Admitted

  function Admit(s: Sess, target: string, account: Option<int>, now: int): Admission {
    if !ValidTarget(target) then Refused(ASSET_NOT_FOUND)
    else if account.Some? && account.value < 0 then Refused(INVALID_ARGUMENT)
    else if Parked(s, target) && !s.screen.accounts.detected then Lapsed
    else if Parked(s, target) && account.None? then Refused(ACCOUNT_SELECTION_REQUIRED)
    else if CanResume(s, target, account) then Resumed
    else if s.life.state != JUMPSERVER_MENU then Refused(NOT_AT_MENU)
    else if InCooldown(s, target, now) then Refused(ASSET_UNREACHABLE)
    else Admitted
  }

  function EnterBegin(s: Sess, target: string, account: Option<int>, now: int): Sess {
    match Admit(s, target, account, now)
    case Refused(code) => Return(s, Failed(code))
    case Lapsed => EnterExpired(s)
    case Resumed => s.(op := EnterWait(target, account, false))
    case Admitted => NewEntry(s, target, account)
  }

  function NewEntry(s: Sess, target: string, account: Option<int>): Sess {
    var s1 := SetState(s.(unreachable := s.unreachable - {target}, currentTarget := Some(target), proven := None),
                       ENTERING_ASSET);
    Put(s1.(screen := BLANK_SCREEN), TargetLine(target)).(op := EnterWait(target, account, account.None?))
  }

  function RecoverAfterFailedEnter(s: Sess): Sess {
    if s.life.state != ENTERING_ASSET then s
    else if Gone(s) then SetState(s, DISCONNECTED)
    else if s.screen.accounts.detected then
      if s.currentTarget.Some? && s.pending.None? then s.(pending := s.currentTarget) else s
    else if s.screen.menuPrompt then SetState(ClearTarget(s), JUMPSERVER_MENU)
    else SetState(s, UNKNOWN)
  }

  /** The catch block of enter(). */
  function EnterFail(s: Sess, code: ErrorCode): Sess {
    var s1 := RecoverAfterFailedEnter(s);
    Return(if s1.life.state != ENTERING_ASSET then s1.(pending := None) else s1, Failed(code))
  }

  function FailureCode(b: Banner, other: ErrorCode): ErrorCode {
    match b
    case NotAuthorized => ASSET_NOT_AUTHORIZED
    case NotFound => ASSET_NOT_FOUND
    case Unreachable => ASSET_UNREACHABLE
    case OtherBanner => other
  }

  /** The wait ended without a shell prompt and without a banner near the prompt. */
  function LateCode(b: Banner, other: ErrorCode): ErrorCode {
    match b
    case NotAuthorized => ASSET_NOT_AUTHORIZED
    case NotFound => ASSET_NOT_FOUND
    case _ => other
  }

  function EnterPoll(s: Sess, o: Obs, now: int): Sess
    requires s.op.EnterWait?
  {
    var EnterWait(target, account, chosen) := s.op;
    if s.screen.kind == ShellScreen then
      if Gone(s) then EnterFail(SetState(s, DISCONNECTED), CONNECTION_LOST)
      else Put(s, Probe).(op := EnterProbe(target))
    else if !chosen && s.screen.accounts.detected then
      if account.Some? && Offers(s.screen.accounts, account.value) && !s.wire then EnterFail(s, WIRE_GONE)
      else if account.Some? && Offers(s.screen.accounts, account.value) then
        Put(s, AccountId(account.value, s.screen.accounts)).(op := EnterWait(target, account, true))
      else EnterFail(s.(pending := Some(target)), ACCOUNT_SELECTION_REQUIRED)
    else if account.None? && s.screen.accounts.detected then
      EnterFail(s.(pending := Some(target)), ACCOUNT_SELECTION_REQUIRED)
    else if s.screen.failure then
      var s1 := if s.screen.banner == Unreachable
                then s.(unreachable := s.unreachable[target := now + UNREACHABLE_COOLDOWN_MS]) else s;
      EnterFail(s1, FailureCode(s.screen.banner, ASSET_ENTER_TIMEOUT))
    else if Gone(s) then EnterFail(s, LateCode(s.screen.lateBanner, CONNECTION_LOST))
    else if o.aborted then EnterFail(s, ABORTED)
    else if o.expired then EnterFail(s, LateCode(s.screen.lateBanner, ASSET_ENTER_TIMEOUT))
    else s
  }

  function EnterAccepted(s: Sess, target: string, ips: seq<string>, verified: bool): Sess {
    Return(SetState(s.(currentIps := ips, currentVerified := verified, proven := Some(target),
                       unreachable := s.unreachable - {target}, pending := None), ASSET_SHELL), Succeeded)
  }

  function EnterProbePoll(s: Sess, o: Obs): Sess
    requires s.op.EnterProbe?
  {
    var target := s.op.target;
    if o.matched then
      match o.probe
      case None => EnterFail(SetState(s, UNKNOWN), ASSET_VERIFY_FAILED)
      case Some(info) =>
        var ips := NonEmpty(info.addresses);
        var verdict := VerifyTargetIdentity(target, info.hostname, ips, info.embedded);
        if verdict == Mismatch then EnterFail(SetState(s, UNKNOWN), TARGET_VERIFICATION_FAILED)
        else EnterAccepted(s, target, ips, verdict == Verified)
    else if s.wireClosed then EnterFail(SetState(s, DISCONNECTED), CONNECTION_LOST)
    else if o.aborted then EnterFail(s, ABORTED)
    else if o.expired then EnterFail(SetState(s, UNKNOWN), ASSET_VERIFY_FAILED)
    else s
  }

  // ----- exec -----

  /** The catch block of exec(). */
  function ExecCaught(s: Sess): Sess {
    Return(if s.life.state == COMMAND_RUNNING && !s.wireClosed then SetState(s, ASSET_SHELL) else s,
           Failed(WRITE_FAILED))
  }

  function ExecBegin(s: Sess, threw: bool): Sess {
    if s.life.state != ASSET_SHELL then Return(s, Failed(NOT_IN_ASSET))
    else
      var s1 := SetState(s, COMMAND_RUNNING);
      if Gone(s1) then Return(SetState(s1, DISCONNECTED), SignalLost)
      else if threw then ExecCaught(s1)
      else Put(s1, Script(s1.currentTarget, s1.currentIps)).(op := ExecWait)
  }

  /** What exec() does once the recovery knows whether the shell answered. */
  function ExecRecovered(s: Sess, aborting: bool, verified: bool): Sess {
    var s1 := SetState(s, if verified then ASSET_SHELL else UNKNOWN);
    Return(s1, if aborting then Failed(ABORTED) else TimedOut(verified))
  }

  /** The recovery's own Ctrl+C; a write that throws counts as not interrupted. */
  function ExecInterrupt(s: Sess, aborting: bool, threw: bool): Sess {
    if Gone(s) || threw then ExecRecovered(s, aborting, false)
    else Put(s, CtrlC(false)).(op := ExecPrompt(aborting))
  }

  function ExecPoll(s: Sess, o: Obs): Sess {
    if o.matched then
      match o.exitCode
      case None => Return(SetState(SetState(s, ASSET_SHELL), UNKNOWN), Failed(COMMAND_STATE_UNKNOWN))
      case Some(code) => Return(SetState(s, ASSET_SHELL), Completed(code))
    else if s.wireClosed then Return(SetState(s, DISCONNECTED), SignalLost)
    else if o.aborted then ExecInterrupt(s, true, o.threw)
    else if o.expired then ExecInterrupt(s, false, o.threw)
    else s
  }

  function ExecPromptPoll(s: Sess, o: Obs): Sess
    requires s.op.ExecPrompt?
  {
    var aborting := s.op.aborting;
    if (!aborting && o.aborted) || Gone(s) then ExecRecovered(s, aborting, false)
    else if s.screen.kind == ShellScreen then
      if o.threw then ExecCaught(s) else Put(s, Probe).(op := ExecProbe(aborting))
    else if o.expired then ExecRecovered(s, aborting, false)
    else s
  }

  function ExecProbePoll(s: Sess, o: Obs): Sess
    requires s.op.ExecProbe?
  {
    var aborting := s.op.aborting;
    if o.matched then ExecRecovered(s, aborting, o.probe.Some?)
    else if s.wireClosed || (!aborting && o.aborted) || o.expired then ExecRecovered(s, aborting, false)
    else s
  }

  // ----- leave -----

  function LeaveBegin(s: Sess): Sess {
    if s.life.state != ASSET_SHELL then Return(s, Failed(NOT_IN_ASSET)) else Put(s, ExitLine).(op := LeaveWait(0))
  }

  predicate AtMenu(s: Sess) { s.screen.kind == MenuScreen || s.screen.menuPrompt }

  function LeaveEnd(s: Sess): Sess {
    if !AtMenu(s) then Return(SetState(s, UNKNOWN), Failed(MENU_RETURN_FAILED))
    else Return(SetState(ClearTarget(s), JUMPSERVER_MENU), Succeeded)
  }

  function LeavePoll(s: Sess, o: Obs): Sess
    requires s.op.LeaveWait?
  {
    if AtMenu(s) then LeaveEnd(s)
    else if !Gone(s) && o.aborted then Return(s, Failed(ABORTED))
    else if Gone(s) || o.expired then
      if !s.screen.shellPrompt || s.op.attempt >= LEAVE_RETRIES then LeaveEnd(s)
      else s.(op := LeaveBackoff(s.op.attempt + 1))
    else s
  }

  /** The next exit; writing to a wire that was dropped meanwhile throws. */
  function LeaveResend(s: Sess): Sess
    requires s.op.LeaveBackoff?
  {
    if !s.wire then Return(s, Failed(WIRE_GONE)) else Put(s, ExitLine).(op := LeaveWait(s.op.attempt))
  }

  // ----- asset list -----

  function ListBegin(s: Sess): Sess {
    if s.life.state != JUMPSERVER_MENU then Return(s, Failed(NOT_AT_MENU))
    else if Gone(s) then Return(s, Failed(CONNECTION_LOST))
    else Put(s, ListKey).(op := ListWait)
  }

  /** `complete`: the footer or the silence timer ended the capture; `paged`: it looks like a pager. */
  function ListPoll(s: Sess, o: Obs, complete: bool, paged: bool): Sess {
    if o.aborted then Return(s, Failed(ABORTED))
    else if Gone(s) then Return(s, Failed(CONNECTION_LOST))
    else if s.screen.kind == ShellScreen then Return(SetState(s, UNKNOWN), Failed(UNKNOWN_STATE))
    else if complete || o.expired then Return(if paged then SetState(s, UNKNOWN) else s, Succeeded)
    else s
  }

  // ----- out of band -----

  /** sendInterrupt(): whether Ctrl+C reached the wire. */
  predicate CanInterrupt(s: Sess) { !Gone(s) }

  /** The outcome of an interrupt verification, applied whenever its probe resolves. */
  function ApplyVerification(s: Sess, verified: bool): Sess {
    SetState(s, if verified then ASSET_SHELL else UNKNOWN)
      .(overlapped := s.overlapped || (verified && s.life.state == ENTERING_ASSET))
  }

  /** writeLine() of a streaming job. */
  function WriteJobLine(s: Sess): Sess { if Gone(s) then s else Put(s, JobLine) }

  // ----- the step system of one session -----

  datatype Event =
    | Data(screen: Screen)
    | WireClosed
    | Disposed(notified: bool)
    | InterruptWrite              // Ctrl+C of an out-of-band verification
    | ProbeWrite                  // its probe
    | Verification(verified: bool)
    | Dialed(dialed: bool)
    | Poll(o: Obs, now: int, notified: bool, complete: bool, paged: bool)
    | Resend
    | BeginEnter(wanted: string, chosenAccount: Option<int>, at: int)
    | BeginExec(threw: bool)
    | BeginLeave
    | BeginList
    | JobWrite
    | Consume                     // the awaiting caller takes the result

  /** Advance the operation in flight by one segment. */
  function Advance(s: Sess, o: Obs, now: int, notified: bool, complete: bool, paged: bool): Sess {
    match s.op
    case MenuWait => MenuPoll(s, o, notified)
    case EnterWait(_, _, _) => EnterPoll(s, o, now)
    case EnterProbe(_) => EnterProbePoll(s, o)
    case ExecWait => ExecPoll(s, o)
    case ExecPrompt(_) => ExecPromptPoll(s, o)
    case ExecProbe(_) => ExecProbePoll(s, o)
    case LeaveWait(_) => LeavePoll(s, o)
    case ListWait => ListPoll(s, o, complete, paged)
    case _ => s
  }

  /**
   * One step. The queue of the manager admits one operation at a time, so an operation begins only
   * while none is in flight; everything else may happen at any moment.
   */
  function Step(s: Sess, e: Event): Sess {
    match e
    case Data(screen) => s.(screen := screen)
    case WireClosed => if s.wire || s.wireClosed then OnWireClose(s) else s
    case Disposed(notified) => Close(s, notified)
    case InterruptWrite => if CanInterrupt(s) then Put(s, CtrlC(true)) else s
    case ProbeWrite => if CanInterrupt(s) then Put(s, Probe) else s
    case Verification(verified) => ApplyVerification(s, verified)
    case Dialed(dialed) => if s.op.Dialing? then ConnectDialed(s, dialed) else s
    case Poll(o, now, notified, complete, paged) => Advance(s, o, now, notified, complete, paged)
    case Resend => if s.op.LeaveBackoff? then LeaveResend(s) else s
    case BeginEnter(wanted, account, at) => if s.op.Idle? then EnterBegin(s, wanted, account, at) else s
    case BeginExec(threw) => if s.op.Idle? then ExecBegin(s, threw) else s
    case BeginLeave => if s.op.Idle? then LeaveBegin(s) else s
    case BeginList => if s.op.Idle? then ListBegin(s) else s
    case JobWrite => if s.op.Idle? then WriteJobLine(s) else s
    case Consume => if s.op.Returned? then s.(op := Idle) else s
  }

  function Run(s: Sess, events: seq<Event>): Sess
    decreases |events|
  {
    if events == [] then s else Step(Run(s, events[..|events| - 1]), events[|events| - 1])
  }

  /** The session a manager uses: created, then connected once. */
  const CONNECTED: Sess := ConnectBegin(FRESH)
}
