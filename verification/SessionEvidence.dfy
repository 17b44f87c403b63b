/** Two more promises of session.ts: no shell is called usable without evidence, and an exec sends one Ctrl+C. */
module SessionEvidence {
  import opened Basics
  import opened StateMachine
  import opened TargetVerify
  import opened Detector
  import opened Session
  import opened SessionProofs
  import opened SessionTheorems
  import opened EntryProtocol

  // ----- never call a wedged shell usable -----

  /** What may put a session into ASSET_SHELL: a parsed probe, a done marker with its exit code, or a verification. */
  predicate Evidence(s: Sess, e: Event) {
    e == Verification(true) ||
    (e.Poll? && e.o.matched &&
     ((s.op.EnterProbe? && e.o.probe.Some?) || (s.op.ExecWait? && e.o.exitCode.Some?) ||
      (s.op.ExecProbe? && e.o.probe.Some?)))
  }

  /** The recovery of an exec sees a shell prompt, and writing its probe throws: exec's catch block takes over. */
  predicate ThrowsProbe(s: Sess, e: Event) {
    e.Poll? && s.op.ExecPrompt? && (s.op.aborting || !e.o.aborted) && !Gone(s) && s.screen.kind == ShellScreen &&
      e.o.threw
  }

  predicate EntersShell(s: Sess, t: Sess) { t.life.state == ASSET_SHELL && s.life.state != ASSET_SHELL }

  /** A request for another state never ends in ASSET_SHELL. */
  lemma OtherMove(l: Life, next: SessionState)
    requires next != ASSET_SHELL
    ensures Move(l, next).state != ASSET_SHELL
  {
  }

  lemma EnterFailNoShell(s: Sess, code: ErrorCode)
    ensures !EntersShell(s, EnterFail(s, code))
  {
  }

  lemma ClosingNoShell(s: Sess, code: ErrorCode, notified: bool)
    ensures !EntersShell(s, ConnectFail(s, notified, code)) && !EntersShell(s, Close(s, notified))
  {
    OtherMove(DropWire(s, notified).life, ERROR);
    OtherMove(DropWire(s, notified).life, DISCONNECTED);
    hide DropWire, Move;
  }

  lemma LeaveEndNoShell(s: Sess)
    ensures !EntersShell(s, LeaveEnd(s))
  {
    OtherMove(s.life, UNKNOWN);
    OtherMove(s.life, JUMPSERVER_MENU);
    hide Move;
  }

  lemma MenuPollNoShell(s: Sess, o: Obs, notified: bool)
    ensures !EntersShell(s, MenuPoll(s, o, notified))
  {
    if s.screen.kind == MenuScreen {
      OtherMove(s.life, JUMPSERVER_MENU);
      hide Move;
    } else {
      var s1 := SetState(s, UNKNOWN);
      assert s1.life.state == UNKNOWN || s1.life.state == s.life.state by { hide Move; OtherMoveOnly(s.life); }
      hide ConnectFail, SetState;
      ClosingNoShell(s, ABORTED, notified);
      ClosingNoShell(s1, MENU_NOT_DETECTED, notified);
    }
  }

  lemma OtherMoveOnly(l: Life)
    ensures Move(l, UNKNOWN).state == UNKNOWN
  {
  }

  lemma WaitsNoShell(s: Sess, o: Obs, notified: bool, complete: bool, paged: bool)
    ensures !EntersShell(s, ListPoll(s, o, complete, paged)) && (s.op.LeaveWait? ==> !EntersShell(s, LeavePoll(s, o)))
  {
    OtherMove(s.life, UNKNOWN);
    LeaveEndNoShell(s);
    hide Move, LeaveEnd;
  }

  lemma EnterPollNoShell(s: Sess, o: Obs, now: int)
    requires s.op.EnterWait?
    ensures !EntersShell(s, EnterPoll(s, o, now))
  {
    hide EnterFail, Offers, FailureCode, LateCode;
    forall t: Sess, code ensures !EntersShell(t, EnterFail(t, code)) { EnterFailNoShell(t, code); }
  }

  lemma EnterProbeShell(s: Sess, o: Obs)
    requires s.op.EnterProbe?
    ensures EntersShell(s, EnterProbePoll(s, o)) ==> o.matched && o.probe.Some?
  {
    hide EnterFail, NonEmpty, VerifyTargetIdentity;
    forall t: Sess, code ensures !EntersShell(t, EnterFail(t, code)) { EnterFailNoShell(t, code); }
  }

  lemma ExecShell(s: Sess, o: Obs)
    ensures s.op.ExecWait? && EntersShell(s, ExecPoll(s, o)) ==> o.matched && o.exitCode.Some?
    ensures s.op.ExecProbe? && EntersShell(s, ExecProbePoll(s, o)) ==> o.matched && o.probe.Some?
  {
  }

  lemma ExecPromptShell(s: Sess, o: Obs, now: int, notified: bool, complete: bool, paged: bool)
    requires s.op.ExecPrompt?
    ensures var e := Poll(o, now, notified, complete, paged);
            EntersShell(s, ExecPromptPoll(s, o)) <==> ThrowsProbe(s, e) && s.life.state == COMMAND_RUNNING
  {
  }

  /** The segments of exec that end in ASSET_SHELL without evidence. */
  predicate Unproven(s: Sess, e: Event) { ThrowsProbe(s, e) && s.life.state == COMMAND_RUNNING }

  lemma AdvanceShell(s: Sess, o: Obs, now: int, notified: bool, complete: bool, paged: bool)
    ensures var e := Poll(o, now, notified, complete, paged);
            EntersShell(s, Advance(s, o, now, notified, complete, paged)) && !Evidence(s, e) <==> Unproven(s, e)
  {
    hide EnterPoll, EnterProbePoll, ExecPoll, ExecPromptPoll, ExecProbePoll, MenuPoll, ListPoll, LeavePoll;
    if s.op.ExecPrompt? { ExecPromptShell(s, o, now, notified, complete, paged); }
    if s.op.EnterWait? { EnterPollNoShell(s, o, now); }
    if s.op.EnterProbe? { EnterProbeShell(s, o); }
    ExecShell(s, o);
    MenuPollNoShell(s, o, notified);
    WaitsNoShell(s, o, notified, complete, paged);
  }

  lemma EntryStartsNoShell(s: Sess, wanted: string, account: Option<int>)
    ensures !EntersShell(s, EnterExpired(s)) && !EntersShell(s, NewEntry(s, wanted, account))
  {
    OtherMove(s.life, DISCONNECTED);
    OtherMove(s.life, UNKNOWN);
    OtherMove(s.life, ENTERING_ASSET);
    hide Move;
  }

  lemma EnterBeginNoShell(s: Sess, wanted: string, account: Option<int>, at: int)
    ensures !EntersShell(s, EnterBegin(s, wanted, account, at))
  {
    EntryStartsNoShell(s, wanted, account);
    hide ValidTarget, InCooldown, Parked, CanResume, EnterExpired, NewEntry;
  }

  lemma BeginsNoShell(s: Sess, threw: bool)
    ensures !EntersShell(s, ExecBegin(s, threw)) && !EntersShell(s, LeaveBegin(s))
    ensures !EntersShell(s, ListBegin(s)) && !EntersShell(s, WriteJobLine(s))
    ensures s.op.LeaveBackoff? ==> !EntersShell(s, LeaveResend(s))
  {
    OtherMove(s.life, COMMAND_RUNNING);
    OtherMove(Move(s.life, COMMAND_RUNNING), DISCONNECTED);
    hide Move;
  }

  /**
   * Whatever happens to a session, reachable or not, a step that makes it a usable shell rests on
   * evidence (an identity probe or recovery probe that was answered, a done marker with an exit code, or
   * an interrupt verification that succeeded) except in one case, and in that case always: the recovery
   * of an exec fails to write its probe, and exec's catch block takes COMMAND_RUNNING back to ASSET_SHELL.
   */
  lemma ShellNeedsEvidenceIff(s: Sess, e: Event)
    ensures EntersShell(s, Step(s, e)) && !Evidence(s, e) <==> Unproven(s, e)
  {
    hide Advance, Close, EnterBegin, ExecBegin, LeaveBegin, ListBegin, WriteJobLine, LeaveResend, ConnectFail;
    match e
    case Poll(o, now, notified, complete, paged) => AdvanceShell(s, o, now, notified, complete, paged);
    case Disposed(notified) => ClosingNoShell(s, ABORTED, notified);
    case Dialed(_) => ClosingNoShell(s, CONNECT_FAILED, false);
    case BeginEnter(wanted, account, at) => EnterBeginNoShell(s, wanted, account, at);
    case BeginExec(threw) => BeginsNoShell(s, threw);
    case _ => BeginsNoShell(s, false);
  }

  /** It happens: a command times out, is interrupted, and the probe that should prove the shell is never written. */
  lemma UnprovenShell(target: string) returns (events: seq<Event>)
    requires ValidTarget(target) && IsIpv4Literal(target)
    ensures var s := Run(CONNECTED, events);
            s.life.state == ASSET_SHELL && s.op == Returned(Failed(WRITE_FAILED)) &&
            s.writes != [] && s.writes[|s.writes| - 1] == CtrlC(false)
  {
    hide Run;
    hide ValidTarget, IsIpv4Literal, Close, MenuPoll, EnterPoll, EnterProbePoll, LeavePoll, ListPoll, EnterBegin;
    var t := ReachMenu();
    t := VisitAsset(t, target);
    t := TimedOutExec(t);
    var s := Run(CONNECTED, t);
    var e := Poll(QUIESCENT.(threw := true), 0, true, false, false);
    assert Step(s, e) == ExecCaught(s);
    hide Step;
    events := Extend(t, e);
  }

  lemma TimedOutExec(before: seq<Event>) returns (events: seq<Event>)
    requires var s := Run(CONNECTED, before); s.life.state == ASSET_SHELL && s.op.Idle? && !Gone(s)
    ensures var s := Run(CONNECTED, events);
            s.life.state == COMMAND_RUNNING && s.op == ExecPrompt(false) && !Gone(s) && s.screen.kind == ShellScreen &&
            s.writes != [] && s.writes[|s.writes| - 1] == CtrlC(false)
  {
    hide Run;
    hide Close, MenuPoll, EnterPoll, EnterProbePoll, LeavePoll, ListPoll, EnterBegin;
    var t := Extend(before, BeginExec(false));
    t := Extend(t, Poll(QUIESCENT.(expired := true), 0, true, false, false));
    events := Extend(t, Data(BLANK_SCREEN.(kind := ShellScreen)));
  }

  /**
   * Exactly when a command leaves a usable shell behind: the session was not seen dead meanwhile, and
   * the exit code was parsed, or a probe was answered after the Ctrl+C, or writing that probe threw.
   */
  lemma CommandLeavesShellIff(events: seq<Event>, o: Obs, now: int, notified: bool, complete: bool, paged: bool)
    requires IsExec(Run(CONNECTED, events).op)
    ensures var s := Run(CONNECTED, events); var e := Poll(o, now, notified, complete, paged); var t := Step(s, e);
            t.op.Returned? ==>
              (t.life.state == ASSET_SHELL <==> !Dead(s.life.state) && (Evidence(s, e) || ThrowsProbe(s, e)))
  {
    RunKeeps(CONNECTED, events);
    hide Run, AddressesAllow, ValidTarget, Binding, ExecPoll, ExecPromptPoll, ExecProbePoll, Step;
    var s := Run(CONNECTED, events);
    ExecStepIsPoll(s, o, now, notified, complete, paged);
    ExecReturnIff(s, o, now, notified, complete, paged);
  }

  lemma ExecStepIsPoll(s: Sess, o: Obs, now: int, notified: bool, complete: bool, paged: bool)
    requires IsExec(s.op)
    ensures Step(s, Poll(o, now, notified, complete, paged)) ==
            if s.op.ExecWait? then ExecPoll(s, o) else if s.op.ExecPrompt? then ExecPromptPoll(s, o)
              else ExecProbePoll(s, o)
  {
    hide ExecPoll, ExecPromptPoll, ExecProbePoll;
  }

  predicate ExecState(s: Sess) { s.life.state == COMMAND_RUNNING || s.life.state == ASSET_SHELL || Dead(s.life.state) }

  /** Where the two verdicts of an exec lead from its possible states. */
  lemma ExecMoves(s: Sess)
    requires ExecState(s)
    ensures Move(s.life, ASSET_SHELL).state == ASSET_SHELL <==> !Dead(s.life.state)
    ensures Move(s.life, UNKNOWN).state != ASSET_SHELL && Move(s.life, DISCONNECTED).state != ASSET_SHELL
    ensures Move(Move(s.life, ASSET_SHELL), UNKNOWN).state != ASSET_SHELL
  {
  }

  lemma ExecRecoveredIff(s: Sess, aborting: bool, verified: bool)
    requires ExecState(s)
    ensures ExecRecovered(s, aborting, verified).life.state == ASSET_SHELL <==> !Dead(s.life.state) && verified
  {
    ExecMoves(s);
    hide Move;
  }

  lemma ExecCaughtIff(s: Sess)
    requires ExecState(s) && !Gone(s)
    ensures ExecCaught(s).life.state == ASSET_SHELL <==> !Dead(s.life.state)
  {
    ExecMoves(s);
    hide Move;
  }

  lemma ExecReturnIff(s: Sess, o: Obs, now: int, notified: bool, complete: bool, paged: bool)
    requires IsExec(s.op) && ExecState(s)
    ensures s.op.ExecWait? ==> var t := ExecPoll(s, o);
              t.op.Returned? ==> (t.life.state == ASSET_SHELL <==> !Dead(s.life.state) && o.matched && o.exitCode.Some?)
    ensures s.op.ExecPrompt? ==> var t := ExecPromptPoll(s, o);
              t.op.Returned? ==>
                (t.life.state == ASSET_SHELL <==>
                   !Dead(s.life.state) && ThrowsProbe(s, Poll(o, now, notified, complete, paged)))
    ensures s.op.ExecProbe? ==> var t := ExecProbePoll(s, o);
              t.op.Returned? ==> (t.life.state == ASSET_SHELL <==> !Dead(s.life.state) && o.matched && o.probe.Some?)
  {
    hide Move, ExecRecovered, ExecCaught;
    forall aborting, verified
      ensures ExecRecovered(s, aborting, verified).life.state == ASSET_SHELL <==> !Dead(s.life.state) && verified
    {
      ExecRecoveredIff(s, aborting, verified);
    }
    ExecMoves(s);
    if !Gone(s) { ExecCaughtIff(s); }
  }

  // ----- one Ctrl+C per command -----

  /** The Ctrl+C of an exec's own recovery. */
  predicate IsOwnCtrlC(w: Write) { w == CtrlC(false) }

  function Interrupts(s0: Sess, s: Sess): nat
    requires |s0.writes| <= |s.writes|
  {
    |Filter(Since(s0, s), IsOwnCtrlC)|
  }

  /** How often the call has interrupted the remote command, by where it stands. */
  predicate ExecStage(op: Op, interrupts: nat) {
    match op
    case ExecWait => interrupts == 0
    case ExecPrompt(_) => interrupts == 1
    case ExecProbe(_) => interrupts == 1
    case Returned(_) => interrupts <= 1
    case _ => false
  }

  lemma InterruptsAppend(s0: Sess, s: Sess, t: Sess)
    requires |s0.writes| <= |s.writes|
    ensures t.writes == s.writes ==> |s0.writes| <= |t.writes| && Interrupts(s0, t) == Interrupts(s0, s)
    ensures forall w :: t.writes == s.writes + [w] ==>
              |s0.writes| <= |t.writes| && Interrupts(s0, t) == Interrupts(s0, s) + if IsOwnCtrlC(w) then 1 else 0
  {
    if t.writes == s.writes { assert Since(s0, t) == Since(s0, s); }
    forall w | t.writes == s.writes + [w]
      ensures Interrupts(s0, t) == Interrupts(s0, s) + if IsOwnCtrlC(w) then 1 else 0
    {
      assert Since(s0, t) == Since(s0, s) + [w];
      FilterAppend(Since(s0, s), [w], IsOwnCtrlC);
      assert Filter([w], IsOwnCtrlC) == if IsOwnCtrlC(w) then [w] else [];
    }
  }

  lemma ExecPollSegment(s: Sess, o: Obs)
    ensures s.op.ExecWait? ==> var t := ExecPoll(s, o);
              (t.writes == s.writes && (t.op == s.op || t.op.Returned?)) ||
                (t.writes == s.writes + [CtrlC(false)] && t.op.ExecPrompt?)
    ensures s.op.ExecPrompt? ==> var t := ExecPromptPoll(s, o);
              (t.writes == s.writes && (t.op == s.op || t.op.Returned?)) ||
                (t.writes == s.writes + [Probe] && t.op.ExecProbe?)
    ensures s.op.ExecProbe? ==> var t := ExecProbePoll(s, o); t.writes == s.writes && (t.op == s.op || t.op.Returned?)
  {
    hide Move;
  }

  lemma ExecBeginSegment(s: Sess, threw: bool)
    ensures var t := ExecBegin(s, threw);
            (t.writes == s.writes && t.op.Returned?) ||
              (exists w :: t.writes == s.writes + [w] && !w.CtrlC? && t.op.ExecWait?)
  {
    hide Move;
    var t := ExecBegin(s, threw);
    if t.op.ExecWait? { assert t.writes == s.writes + [Script(s.currentTarget, s.currentIps)]; }
  }

  lemma SilentClose(s: Sess, notified: bool)
    ensures Close(s, notified).writes == s.writes && Close(s, notified).op == s.op
  {
    hide Move;
  }

  lemma SilentMoves(s: Sess, verified: bool)
    ensures OnWireClose(s).writes == s.writes && OnWireClose(s).op == s.op
    ensures ApplyVerification(s, verified).writes == s.writes && ApplyVerification(s, verified).op == s.op
  {
    hide Move;
  }

  /** What reaches an exec from outside, someone else's Ctrl+C among it. */
  lemma ExecOutside(s: Sess, e: Event)
    requires (IsExec(s.op) || s.op.Returned?) && !e.Poll? && !e.Consume?
    ensures var t := Step(s, e);
            t.op == s.op && (t.writes == s.writes || t.writes == s.writes + [Probe] ||
                             t.writes == s.writes + [CtrlC(true)])
  {
    hide SetState, Advance, EnterBegin, ExecBegin, LeaveBegin, ListBegin, WriteJobLine, ConnectDialed, LeaveResend,
         Close, OnWireClose, ApplyVerification;
    match e
    case Disposed(notified) => SilentClose(s, notified);
    case WireClosed => SilentMoves(s, true);
    case Verification(verified) => SilentMoves(s, verified);
    case _ =>
  }

  lemma ExecStep(s0: Sess, s: Sess, e: Event)
    requires |s0.writes| <= |s.writes| && ExecStage(s.op, Interrupts(s0, s)) && !e.Consume?
    ensures |s0.writes| <= |Step(s, e).writes| && ExecStage(Step(s, e).op, Interrupts(s0, Step(s, e)))
  {
    var t := Step(s, e);
    InterruptsAppend(s0, s, t);
    if !e.Poll? { ExecOutside(s, e); } else { ExecPollSegment(s, e.o); }
    hide Interrupts, ExecPoll, ExecPromptPoll, ExecProbePoll;
  }

  /**
   * From its first segment until its caller takes the result, and whatever interleaves (interrupts and
   * job stops with their own Ctrl+C among it), one exec sends at most one Ctrl+C of its own, and none
   * before it gave up waiting for the marker.
   */
  lemma {:induction false} OneInterruptPerExec(s0: Sess, threw: bool, events: seq<Event>)
    requires s0.op.Idle? && forall e <- events :: !e.Consume?
    ensures var s := Run(Step(s0, BeginExec(threw)), events);
            |s0.writes| <= |s.writes| && ExecStage(s.op, Interrupts(s0, s)) && Interrupts(s0, s) <= 1
    decreases |events|
  {
    if events == [] {
      ExecBeginSegment(s0, threw);
      var t := Step(s0, BeginExec(threw));
      InterruptsAppend(s0, s0, t);
      assert Since(s0, s0) == [];
      hide ExecBegin;
    } else {
      OneInterruptPerExec(s0, threw, events[..|events| - 1]);
      ExecStep(s0, Run(Step(s0, BeginExec(threw)), events[..|events| - 1]), events[|events| - 1]);
      hide Step, Interrupts;
    }
  }
}
