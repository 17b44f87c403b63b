/**
 * The session object in its own form (src/jumpserver/session.ts). Its methods are the synchronous
 * segments of the source's async methods, over the object's fields; each is proved to be the segment of
 * the same name in Session.dfy and to keep the session invariant. Handle() lets any of them run next, so
 * every theorem about runs of those segments is one about this object.
 */
module JumpServerSession {
  import opened Basics
  import opened StateMachine
  import opened TargetVerify
  import opened Detector
  import opened Session
  import opened SessionProofs
  import opened SessionEvidence
  import opened SessionOutcomes

  class JumpServerSession {
    var stateValue: SessionState
    var wire: bool                    // wire !== null
    var wireClosed: bool
    var screen: Screen                // what the detector's tail says
    var pendingAccountChoice: Option<string>
    var currentTarget: Option<string>
    var currentIps: seq<string>
    var currentVerified: bool
    var unreachable: map<string, int>
    var op: Op                        // the suspended method and its locals
    ghost var wasDead: bool
    ghost var revived: bool
    ghost var writes: seq<Write>
    ghost var proven: Option<string>
    ghost var overlapped: bool

    ghost function View(): Sess
      reads this
    {
      Sess(Life(stateValue, wasDead, revived), wire, wireClosed, screen, pendingAccountChoice, currentTarget,
           currentIps, currentVerified, unreachable, op, writes, proven, overlapped)
    }

    /** The invariant of every session that has begun to connect. */
    ghost predicate Valid()
      reads this
    {
      Inv(View())
    }

    constructor ()
      ensures View() == FRESH
    {
      stateValue, wire, wireClosed, screen := DISCONNECTED, false, false, BLANK_SCREEN;
      pendingAccountChoice, currentTarget, currentIps, currentVerified := None, None, [], false;
      unreachable, op := map[], Idle;
      wasDead, revived, writes, proven, overlapped := false, false, [], None, false;
    }

    // ----- shared pieces -----

    /** setState: an illegal move collapses to UNKNOWN, and the new state is reported. */
    method MoveTo(next: SessionState)
      modifies this`stateValue, this`wasDead, this`revived
      ensures View() == SetState(old(View()), next)
    {
      if stateValue == next {
        return;
      }
      ghost var life := Life(stateValue, wasDead, revived);
      var resolved := NextState(stateValue, next);
      stateValue := resolved;
      revived := revived || (wasDead && !Dead(resolved));
      wasDead := wasDead || Dead(resolved);
      assert Life(stateValue, wasDead, revived) == Move(life, next) by { hide Dead, NextState; }
      hide Move, NextState, Dead;
    }

    method WriteOut(ghost w: Write)
      modifies this`writes
      ensures View() == Put(old(View()), w)
    {
      writes := writes + [w];
    }

    method IsGone() returns (gone: bool)
      ensures gone == Gone(View())
    {
      gone := wireClosed || !wire;
    }

    method Finish(outcome: Outcome)
      modifies this`op
      ensures View() == Return(old(View()), outcome)
    {
      op := Returned(outcome);
    }

    /** onWireClose. */
    method WireWentDown()
      modifies this
      ensures View() == OnWireClose(old(View())) && (old(Valid()) ==> Valid())
    {
      ghost var before := View();
      if Inv(before) { WireClosedKeeps(before); }
      hide Inv;
      wireClosed := true;
      if stateValue != DISCONNECTED {
        MoveTo(DISCONNECTED);
      }
    }

    /** teardownTransport; closing the wire may run the close callback at once. */
    method TeardownTransport(notified: bool)
      modifies this
      ensures View() == DropWire(old(View()), notified)
    {
      var had := wire;
      wire := false;
      wireClosed := true;
      if had && notified {
        WireWentDown();
      }
    }

    /** close. */
    method CloseSession(notified: bool)
      requires Valid()
      modifies this
      ensures Valid() && View() == Close(old(View()), notified) && Dead(stateValue)
    {
      hide Inv;
      hide DropWire;
      CloseKeeps(View(), notified);
      TeardownTransport(notified);
      currentTarget := None;
      screen := BLANK_SCREEN;
      unreachable := map[];
      pendingAccountChoice := None;
      MoveTo(DISCONNECTED);
    }

    // ----- connect -----

    /** connect up to its dial: nothing to do at the menu or in a shell. */
    method BeginConnect()
      modifies this
      ensures View() == ConnectBegin(old(View()))
      ensures old(stateValue) == JUMPSERVER_MENU || old(stateValue) == ASSET_SHELL ==>
                View() == old(View()).(op := Returned(Succeeded))
      ensures old(stateValue) == DISCONNECTED || old(stateValue) == UNKNOWN ==>
                stateValue == CONNECTING && op == Dialing && writes == old(writes)
      ensures old(View()) == FRESH ==> Valid() && View() == CONNECTED
    {
      if stateValue == JUMPSERVER_MENU || stateValue == ASSET_SHELL {
        Finish(Succeeded);
        return;
      }
      MoveTo(CONNECTING);
      op := Dialing;
    }

    /** The catch block of connect. */
    method FailConnect(notified: bool, code: ErrorCode)
      modifies this
      ensures View() == ConnectFail(old(View()), notified, code)
    {
      TeardownTransport(notified);
      hide DropWire;
      MoveTo(ERROR);
      Finish(Failed(code));
    }

    method DialResolved(dialed: bool)
      requires Valid() && op.Dialing?
      modifies this
      ensures Valid() && View() == ConnectDialed(old(View()), dialed)
    {
      hide Inv, ConnectFail;
      StepKeeps(View(), Dialed(dialed));
      if !dialed {
        FailConnect(false, CONNECT_FAILED);
        return;
      }
      wire, wireClosed, op := true, false, MenuWait;
    }

    /** One pass through waitForScreen, and what connect does with its answer. */
    method PollMenu(o: Obs, notified: bool)
      requires Valid() && op.MenuWait?
      modifies this
      ensures Valid() && View() == MenuPoll(old(View()), o, notified)
    {
      MenuPollKeeps(View(), o, notified);
      hide Inv;
      hide Move, ConnectFail;
      if screen.kind == MenuScreen {
        MoveTo(JUMPSERVER_MENU);
        Finish(Succeeded);
        return;
      }
      var gone := IsGone();
      if !gone && o.aborted {
        FailConnect(notified, ABORTED);
      } else if gone || o.expired {
        MoveTo(UNKNOWN);
        FailConnect(notified, MENU_NOT_DETECTED);
      }
    }

    // ----- enter -----

    /** canResumeAccountSelection. */
    method MayResume(target: string, account: Option<int>) returns (r: bool)
      ensures r == CanResume(View(), target, account)
    {
      if account.None? || !(pendingAccountChoice == Some(target) && stateValue == ENTERING_ASSET) {
        return false;
      }
      if !wire || wireClosed {
        return false;
      }
      return screen.accounts.detected;
    }

    /** enter up to its first wait. */
    method BeginEnter(target: string, account: Option<int>, now: int)
      requires Valid() && op.Idle?
      modifies this
      ensures Valid() && View() == EnterBegin(old(View()), target, account, now)
      ensures BeginsEntry(old(View()), View(), target, account, now)
    {
      EnterBeginKeeps(View(), target, account, now);
      EntryBeginsAre(View(), target, account, now);
      hide Inv, BeginsEntry;
      hide Move, ValidTarget;
      if !ValidTarget(target) {
        Finish(Failed(ASSET_NOT_FOUND));
        return;
      }
      if account.Some? && account.value < 0 {
        Finish(Failed(INVALID_ARGUMENT));
        return;
      }
      if pendingAccountChoice == Some(target) && stateValue == ENTERING_ASSET {
        if !screen.accounts.detected {
          ExpireChoice();
          return;
        }
        if account.None? {
          Finish(Failed(ACCOUNT_SELECTION_REQUIRED));
          return;
        }
      }
      var resuming := MayResume(target, account);
      if resuming {
        op := EnterWait(target, account, false);
        return;
      }
      if stateValue != JUMPSERVER_MENU {
        Finish(Failed(NOT_AT_MENU));
        return;
      }
      if target in unreachable && unreachable[target] - now > 0 {
        Finish(Failed(ASSET_UNREACHABLE));
        return;
      }
      TypeTarget(target, account);
    }

    method ExpireChoice()
      modifies this
      ensures View() == EnterExpired(old(View()))
    {
      var gone := IsGone();
      pendingAccountChoice := None;
      MoveTo(if gone then DISCONNECTED else UNKNOWN);
      Finish(Failed(ACCOUNT_SELECTION_EXPIRED));
    }

    method TypeTarget(target: string, account: Option<int>)
      modifies this
      ensures View() == NewEntry(old(View()), target, account)
    {
      BindTo(target);
      hide Move, SetState;
      screen := BLANK_SCREEN;
      WriteOut(TargetLine(target));
      op := EnterWait(target, account, account.None?);
    }

    /** Take the target and leave the menu. */
    method BindTo(target: string)
      modifies this`unreachable, this`currentTarget, this`proven, this`stateValue, this`wasDead, this`revived
      ensures View() == SetState(old(View()).(unreachable := old(unreachable) - {target},
                                              currentTarget := Some(target), proven := None),
                                 ENTERING_ASSET)
    {
      ghost var s := View();
      unreachable, currentTarget, proven := unreachable - {target}, Some(target), None;
      assert View() == s.(unreachable := s.unreachable - {target}, currentTarget := Some(target), proven := None);
      hide Move, SetState;
      MoveTo(ENTERING_ASSET);
    }

    /** recoverAfterFailedEnter. */
    method Recover()
      modifies this
      ensures View() == RecoverAfterFailedEnter(old(View()))
    {
      hide Move;
      if stateValue != ENTERING_ASSET {
        return;
      }
      var gone := IsGone();
      if gone {
        MoveTo(DISCONNECTED);
        return;
      }
      if screen.accounts.detected {
        if currentTarget.Some? && pendingAccountChoice.None? {
          pendingAccountChoice := currentTarget;
        }
        return;
      }
      if screen.menuPrompt {
        currentTarget := None;
        MoveTo(JUMPSERVER_MENU);
        return;
      }
      MoveTo(UNKNOWN);
    }

    /** The catch block of enter. */
    method FailEnter(code: ErrorCode)
      modifies this
      ensures View() == EnterFail(old(View()), code)
    {
      Recover();
      hide RecoverAfterFailedEnter;
      if stateValue != ENTERING_ASSET {
        pendingAccountChoice := None;
      }
      Finish(Failed(code));
    }

    /** One pass through the wait loop of enter. */
    method PollEnter(o: Obs, now: int)
      requires Valid() && op.EnterWait?
      modifies this
      ensures Valid() && View() == EnterPoll(old(View()), o, now)
      ensures forall outcome :: op == Returned(outcome) <==>
                outcome.Failed? && EntryFails(old(View()), o, outcome.code)
    {
      hide Inv, EntryFails;
      hide Move, EnterFail, Offers;
      EnterPollKeeps(View(), o, now);
      forall outcome
        ensures EnterPoll(View(), o, now).op == Returned(outcome) <==>
                outcome.Failed? && EntryFails(View(), o, outcome.code)
      {
        EntryPollFails(View(), o, now, outcome);
      }
      var target, account, chosen := op.target, op.account, op.chosen;
      var gone := IsGone();
      if screen.kind == ShellScreen {
        if gone {
          MoveTo(DISCONNECTED);
          FailEnter(CONNECTION_LOST);
          return;
        }
        WriteOut(Probe);
        op := EnterProbe(target);
        return;
      }
      if !chosen {
        if screen.accounts.detected {
          AnswerPrompt(target, account);
          return;
        }
      } else if account.None? {
        if screen.accounts.detected {
          pendingAccountChoice := Some(target);
          FailEnter(ACCOUNT_SELECTION_REQUIRED);
          return;
        }
      }
      if screen.failure {
        ReportFailure(target, now);
        return;
      }
      if gone {
        FailEnter(LateCode(screen.lateBanner, CONNECTION_LOST));
        return;
      }
      if o.aborted {
        FailEnter(ABORTED);
        return;
      }
      if o.expired {
        FailEnter(LateCode(screen.lateBanner, ASSET_ENTER_TIMEOUT));
      }
    }

    /** The account list is on screen: type the caller's choice if it is one of the displayed IDs. */
    method AnswerPrompt(target: string, account: Option<int>)
      requires op == EnterWait(target, account, false) && screen.accounts.detected && screen.kind != ShellScreen
      modifies this
      ensures forall o, now :: View() == EnterPoll(old(View()), o, now)
    {
      hide Move, EnterFail, Offers, FailureCode, LateCode;
      if account.None? {
        pendingAccountChoice := Some(target);
        FailEnter(ACCOUNT_SELECTION_REQUIRED);
        return;
      }
      if !Offers(screen.accounts, account.value) {
        pendingAccountChoice := Some(target);
        FailEnter(ACCOUNT_SELECTION_REQUIRED);
        return;
      }
      if !wire {
        FailEnter(WIRE_GONE);
        return;
      }
      WriteOut(AccountId(account.value, screen.accounts));
      op := EnterWait(target, account, true);
    }

    /** A failure banner: an unreachable asset starts its cooldown. */
    method ReportFailure(target: string, now: int)
      modifies this
      ensures var s := old(View());
              View() == EnterFail(if s.screen.banner == Unreachable
                                  then s.(unreachable := s.unreachable[target := now + UNREACHABLE_COOLDOWN_MS]) else s,
                                  FailureCode(s.screen.banner, ASSET_ENTER_TIMEOUT))
    {
      hide EnterFail;
      match screen.banner {
        case NotAuthorized => FailEnter(ASSET_NOT_AUTHORIZED);
        case NotFound => FailEnter(ASSET_NOT_FOUND);
        case Unreachable =>
          unreachable := unreachable[target := now + UNREACHABLE_COOLDOWN_MS];
          FailEnter(ASSET_UNREACHABLE);
        case OtherBanner => FailEnter(ASSET_ENTER_TIMEOUT);
      }
    }

    /** One pass through runOp for the identity probe, and the verdict on its answer. */
    method PollEnterProbe(o: Obs)
      requires Valid() && op.EnterProbe?
      modifies this
      ensures Valid() && View() == EnterProbePoll(old(View()), o)
      ensures stateValue == ASSET_SHELL && !overlapped ==>
                currentTarget.Some? && proven == currentTarget && AddressesAllow(currentTarget.value, currentIps)
      ensures forall outcome :: op == Returned(outcome) <==> ProbeEnds(old(View()), o, outcome)
    {
      hide ProbeEnds;
      EnterProbePollKeeps(View(), o);
      ProbeEndsIff(View(), o);
      ghost var before := View();
      assert Trusted(EnterProbePoll(before, o)) || overlapped by { hide Trusted; }
      hide Inv;
      hide Move, EnterFail, NonEmpty, VerifyTargetIdentity;
      var target := op.target;
      if o.matched {
        if o.probe.None? {
          MoveTo(UNKNOWN);
          FailEnter(ASSET_VERIFY_FAILED);
          return;
        }
        var info := o.probe.value;
        var ips := NonEmpty(info.addresses);
        var verdict := VerifyTargetIdentity(target, info.hostname, ips, info.embedded);
        if verdict == Mismatch {
          MoveTo(UNKNOWN);
          FailEnter(TARGET_VERIFICATION_FAILED);
          return;
        }
        Accept(target, ips, verdict == Verified);
        return;
      }
      if wireClosed {
        MoveTo(DISCONNECTED);
        FailEnter(CONNECTION_LOST);
        return;
      }
      if o.aborted {
        FailEnter(ABORTED);
        return;
      }
      if o.expired {
        MoveTo(UNKNOWN);
        FailEnter(ASSET_VERIFY_FAILED);
      }
    }

    method Accept(target: string, ips: seq<string>, verified: bool)
      modifies this
      ensures View() == EnterAccepted(old(View()), target, ips, verified)
    {
      ghost var s := View();
      currentIps, currentVerified, proven := ips, verified, Some(target);
      unreachable, pendingAccountChoice := unreachable - {target}, None;
      assert View() == s.(currentIps := ips, currentVerified := verified, proven := Some(target),
                          unreachable := s.unreachable - {target}, pending := None);
      hide Move, SetState;
      MoveTo(ASSET_SHELL);
      Finish(Succeeded);
    }

    // ----- exec -----

    /** exec up to its first wait: a script is typed only into a proven shell of the current target. */
    method BeginExec(threw: bool)
      modifies this
      ensures View() == ExecBegin(old(View()), threw)
      ensures old(Valid() && op.Idle?) ==> Valid()
      ensures old(Valid() && op.Idle?) ==>
              writes == old(writes) ||
              (writes == old(writes) + [Script(currentTarget, currentIps)] && stateValue == COMMAND_RUNNING &&
               (overlapped || (currentTarget.Some? && proven == currentTarget &&
                               AddressesAllow(currentTarget.value, currentIps))))
    {
      ghost var before := View();
      if Inv(before) && op.Idle? {
        ExecBeginKeeps(before, threw);
        ExecIsTrusted(before, threw);
      }
      hide Inv, Move;
      if stateValue != ASSET_SHELL {
        Finish(Failed(NOT_IN_ASSET));
        return;
      }
      MoveTo(COMMAND_RUNNING);
      var gone := IsGone();
      if gone {
        MoveTo(DISCONNECTED);
        Finish(SignalLost);
        return;
      }
      if threw {
        CatchExec();
        return;
      }
      WriteOut(Script(currentTarget, currentIps));
      op := ExecWait;
    }

    /** The catch block of exec. */
    method CatchExec()
      modifies this
      ensures View() == ExecCaught(old(View()))
    {
      hide Move;
      if stateValue == COMMAND_RUNNING && !wireClosed {
        MoveTo(ASSET_SHELL);
      }
      Finish(Failed(WRITE_FAILED));
    }

    /** What exec does once the recovery knows whether the shell answered. */
    method Recovered(aborting: bool, verified: bool)
      modifies this
      ensures View() == ExecRecovered(old(View()), aborting, verified)
    {
      if verified {
        MoveTo(ASSET_SHELL);
      } else {
        MoveTo(UNKNOWN);
      }
      Finish(if aborting then Failed(ABORTED) else TimedOut(verified));
    }

    /** interruptAndRecover up to its first wait. */
    method InterruptExec(aborting: bool, threw: bool)
      modifies this
      ensures View() == ExecInterrupt(old(View()), aborting, threw)
    {
      hide ExecRecovered;
      var gone := IsGone();
      if gone || threw {
        Recovered(aborting, false);
        return;
      }
      WriteOut(CtrlC(false));
      op := ExecPrompt(aborting);
    }

    method PollExec(o: Obs)
      requires Valid() && op.ExecWait?
      modifies this
      ensures Valid() && View() == ExecPoll(old(View()), o)
      ensures stateValue == ASSET_SHELL && old(stateValue) != ASSET_SHELL ==> o.matched && o.exitCode.Some?
      ensures forall outcome :: op == Returned(outcome) <==> ExecAnswers(old(View()), o, outcome)
    {
      ExecPollKeeps(View(), o);
      forall outcome ensures ExecPoll(View(), o).op == Returned(outcome) <==> ExecAnswers(View(), o, outcome) {
        WaitAnswers(View(), o, outcome);
      }
      hide Inv, ExecAnswers;
      hide Move, ExecInterrupt;
      if o.matched {
        MoveTo(ASSET_SHELL);
        if o.exitCode.None? {
          MoveTo(UNKNOWN);
          Finish(Failed(COMMAND_STATE_UNKNOWN));
          return;
        }
        Finish(Completed(o.exitCode.value));
        return;
      }
      if wireClosed {
        MoveTo(DISCONNECTED);
        Finish(SignalLost);
        return;
      }
      if o.aborted {
        InterruptExec(true, o.threw);
        return;
      }
      if o.expired {
        InterruptExec(false, o.threw);
      }
    }

    /** One pass through the prompt wait of probeShellOnly. */
    method PollExecPrompt(o: Obs)
      requires Valid() && op.ExecPrompt?
      modifies this
      ensures Valid() && View() == ExecPromptPoll(old(View()), o)
      ensures stateValue == ASSET_SHELL && old(stateValue) != ASSET_SHELL ==> o.threw
      ensures forall outcome :: op == Returned(outcome) <==> ExecAnswers(old(View()), o, outcome)
    {
      ExecPromptPollKeeps(View(), o);
      forall outcome ensures ExecPromptPoll(View(), o).op == Returned(outcome) <==> ExecAnswers(View(), o, outcome) {
        PromptAnswers(View(), o, outcome);
      }
      hide Inv, ExecAnswers;
      hide ExecRecovered;
      var aborting := op.aborting;
      var gone := IsGone();
      if !aborting && o.aborted {
        Recovered(aborting, false);
        return;
      }
      if gone {
        Recovered(aborting, false);
        return;
      }
      if screen.kind == ShellScreen {
        if o.threw {
          CatchExec();
          return;
        }
        WriteOut(Probe);
        op := ExecProbe(aborting);
        return;
      }
      if o.expired {
        Recovered(aborting, false);
      }
    }

    method PollExecProbe(o: Obs)
      requires Valid() && op.ExecProbe?
      modifies this
      ensures Valid() && View() == ExecProbePoll(old(View()), o)
      ensures stateValue == ASSET_SHELL && old(stateValue) != ASSET_SHELL ==> o.matched && o.probe.Some?
      ensures forall outcome :: op == Returned(outcome) <==> ExecAnswers(old(View()), o, outcome)
    {
      ExecProbePollKeeps(View(), o);
      forall outcome ensures ExecProbePoll(View(), o).op == Returned(outcome) <==> ExecAnswers(View(), o, outcome) {
        ProbeAnswers(View(), o, outcome);
      }
      hide Inv, ExecAnswers;
      hide ExecRecovered;
      var aborting := op.aborting;
      if o.matched {
        Recovered(aborting, o.probe.Some?);
        return;
      }
      if wireClosed || (!aborting && o.aborted) || o.expired {
        Recovered(aborting, false);
      }
    }

    // ----- leave -----

    method BeginLeave()
      requires Valid() && op.Idle?
      modifies this
      ensures Valid() && View() == LeaveBegin(old(View()))
    {
      ShortBeginsKeep(View());
      hide Inv;
      if stateValue != ASSET_SHELL {
        Finish(Failed(NOT_IN_ASSET));
        return;
      }
      WriteOut(ExitLine);
      op := LeaveWait(0);
    }

    /** leave behind its loop. */
    method FinishLeave()
      modifies this
      ensures View() == LeaveEnd(old(View()))
    {
      hide Move;
      if !screen.menuPrompt && screen.kind != MenuScreen {
        MoveTo(UNKNOWN);
        Finish(Failed(MENU_RETURN_FAILED));
        return;
      }
      currentTarget := None;
      MoveTo(JUMPSERVER_MENU);
      Finish(Succeeded);
    }

    /** One pass through waitForMenuReturn, and what the loop of leave does with its answer. */
    method PollLeave(o: Obs)
      requires Valid() && op.LeaveWait?
      modifies this
      ensures Valid() && View() == LeavePoll(old(View()), o)
      ensures forall outcome :: op == Returned(outcome) <==> LeaveAnswers(old(View()), o, outcome)
      ensures op.LeaveBackoff? <==> WaitedInVain(old(View()), o) && MayRetry(old(View()))
    {
      hide Inv, LeaveAnswers, WaitedInVain, MayRetry;
      hide LeaveEnd;
      forall outcome
        ensures (LeavePoll(View(), o).op == Returned(outcome) <==> LeaveAnswers(View(), o, outcome)) &&
                (LeavePoll(View(), o).op.LeaveBackoff? <==> WaitedInVain(View(), o) && MayRetry(View()))
      {
        LeavePollAnswers(View(), o, outcome);
      }
      LeavePollAnswers(View(), o, Succeeded);
      LeavePollKeeps(View(), o);
      if screen.kind == MenuScreen || screen.menuPrompt {
        FinishLeave();
        return;
      }
      var gone := IsGone();
      if !gone {
        if o.aborted {
          Finish(Failed(ABORTED));
          return;
        }
        if !o.expired {
          return;
        }
      }
      if !screen.shellPrompt || op.attempt >= LEAVE_RETRIES {
        FinishLeave();
        return;
      }
      op := LeaveBackoff(op.attempt + 1);
    }

    method ResendExit()
      requires Valid() && op.LeaveBackoff?
      modifies this
      ensures Valid() && View() == LeaveResend(old(View()))
    {
      StepKeeps(View(), Resend);
      hide Inv;
      if !wire {
        Finish(Failed(WIRE_GONE));
        return;
      }
      WriteOut(ExitLine);
      op := LeaveWait(op.attempt);
    }

    // ----- asset list -----

    method BeginList()
      modifies this
      ensures View() == ListBegin(old(View()))
      ensures old(Valid() && op.Idle?) ==> Valid()
    {
      ghost var before := View();
      if Inv(before) && op.Idle? {
        ShortBeginsKeep(before);
      }
      hide Inv;
      if stateValue != JUMPSERVER_MENU {
        Finish(Failed(NOT_AT_MENU));
        return;
      }
      var gone := IsGone();
      if gone {
        Finish(Failed(CONNECTION_LOST));
        return;
      }
      WriteOut(ListKey);
      op := ListWait;
    }

    method PollList(o: Obs, complete: bool, paged: bool)
      requires Valid() && op.ListWait?
      modifies this
      ensures Valid() && View() == ListPoll(old(View()), o, complete, paged)
    {
      ListPollKeeps(View(), o, complete, paged);
      hide Inv;
      hide Move;
      if o.aborted {
        Finish(Failed(ABORTED));
        return;
      }
      var gone := IsGone();
      if gone {
        Finish(Failed(CONNECTION_LOST));
        return;
      }
      if screen.kind == ShellScreen {
        MoveTo(UNKNOWN);
        Finish(Failed(UNKNOWN_STATE));
        return;
      }
      if complete || o.expired {
        if paged {
          MoveTo(UNKNOWN);
        }
        Finish(Succeeded);
      }
    }

    // ----- out of band -----

    /** sendInterrupt; a write that throws counts as not sent. */
    method SendInterrupt(threw: bool) returns (sent: bool)
      requires Valid()
      modifies this`writes
      ensures Valid() && sent == (CanInterrupt(old(View())) && !threw)
      ensures View() == if sent then Put(old(View()), CtrlC(true)) else old(View())
    {
      StepKeeps(View(), InterruptWrite);
      hide Inv;
      var gone := IsGone();
      if gone || threw {
        return false;
      }
      WriteOut(CtrlC(true));
      return true;
    }

    /** The end of interruptAndVerify, and setStateForVerification. */
    method ApplyVerdict(verified: bool)
      requires Valid()
      modifies this
      ensures Valid() && View() == ApplyVerification(old(View()), verified)
    {
      VerificationKeeps(View(), verified);
      hide Inv;
      hide Move;
      overlapped := overlapped || (verified && stateValue == ENTERING_ASSET);
      if verified {
        MoveTo(ASSET_SHELL);
      } else {
        MoveTo(UNKNOWN);
      }
    }

    /** writeLine of a job command. */
    method WriteLine() returns (written: bool)
      requires Valid() && op.Idle?
      modifies this`writes
      ensures Valid() && written == !Gone(old(View())) && View() == WriteJobLine(old(View()))
    {
      ShortBeginsKeep(View());
      hide Inv;
      var gone := IsGone();
      if gone {
        return false;
      }
      WriteOut(JobLine);
      return true;
    }

    // ----- whatever runs next -----

    /** The awaiting caller takes the result. */
    method TakeResult()
      requires Valid() && op.Returned?
      modifies this`op
      ensures Valid() && View() == old(View()).(op := Idle)
    {
      StepKeeps(View(), Consume);
      hide Inv;
      op := Idle;
    }

    /** One pass of whichever wait loop is suspended. */
    method PollOperation(o: Obs, now: int, notified: bool, complete: bool, paged: bool)
      requires Valid()
      modifies this
      ensures Valid() && View() == Advance(old(View()), o, now, notified, complete, paged)
    {
      hide Inv, MenuPoll, EnterPoll, EnterProbePoll, ExecPoll, ExecPromptPoll, ExecProbePoll, LeavePoll, ListPoll;
      match op {
        case MenuWait => PollMenu(o, notified);
        case EnterWait(_, _, _) => PollEnter(o, now);
        case EnterProbe(_) => PollEnterProbe(o);
        case ExecWait => PollExec(o);
        case ExecPrompt(_) => PollExecPrompt(o);
        case ExecProbe(_) => PollExecProbe(o);
        case LeaveWait(_) => PollLeave(o);
        case ListWait => PollList(o, complete, paged);
        case _ =>
      }
    }

    /** Out of band: the callbacks of the wire, disposal, and the segments of a verification. */
    method HandleOutside(e: Event)
      requires Valid() && (e.Data? || e.WireClosed? || e.Disposed? || e.InterruptWrite? || e.ProbeWrite? ||
                           e.Verification?)
      modifies this
      ensures Valid() && View() == Step(old(View()), e)
    {
      StepKeeps(View(), e);
      hide Inv, Close, ApplyVerification, OnWireClose;
      match e {
        case Data(seen) => screen := seen;
        case WireClosed =>
          if wire || wireClosed {
            WireWentDown();
          }
        case Disposed(notified) => CloseSession(notified);
        case InterruptWrite => var sent := SendInterrupt(false);
        case ProbeWrite =>
          var gone := IsGone();
          if !gone {
            WriteOut(Probe);
          }
        case Verification(verified) => ApplyVerdict(verified);
      }
    }

    /** Any event at all; an operation begins only when none is in flight. */
    method Handle(e: Event)
      requires Valid()
      modifies this
      ensures Valid() && View() == Step(old(View()), e)
    {
      hide Inv, Advance, EnterBegin, ExecBegin, LeaveBegin, ListBegin, WriteJobLine, ConnectDialed, LeaveResend, Close,
           ApplyVerification, OnWireClose;
      match e {
        case Dialed(dialed) => if op.Dialing? { DialResolved(dialed); }
        case Poll(o, now, notified, complete, paged) => PollOperation(o, now, notified, complete, paged);
        case Resend => if op.LeaveBackoff? { ResendExit(); }
        case BeginEnter(wanted, account, at) => if op.Idle? { BeginEnter(wanted, account, at); }
        case BeginExec(threw) => if op.Idle? { BeginExec(threw); }
        case BeginLeave => if op.Idle? { BeginLeave(); }
        case BeginList => if op.Idle? { BeginList(); }
        case JobWrite => if op.Idle? { var written := WriteLine(); }
        case Consume => if op.Returned? { TakeResult(); }
        case _ => HandleOutside(e);
      }
    }
  }

  lemma ProbeEndsIff(s: Sess, o: Obs)
    requires Inv(s) && s.op.EnterProbe?
    ensures forall outcome :: EnterProbePoll(s, o).op == Returned(outcome) <==> ProbeEnds(s, o, outcome)
  {
    assert ValidTarget(s.op.target);
    hide Inv, EnterProbePoll, ProbeEnds;
    forall outcome ensures EnterProbePoll(s, o).op == Returned(outcome) <==> ProbeEnds(s, o, outcome) {
      IdentityPoll(s, o, outcome);
    }
  }

  /** A script goes to a shell whose identity was proven for the current target. */
  lemma ExecIsTrusted(s: Sess, threw: bool)
    requires Inv(s)
    ensures var t := ExecBegin(s, threw);
            t.writes == s.writes ||
            (t.writes == s.writes + [Script(t.currentTarget, t.currentIps)] && t.life.state == COMMAND_RUNNING &&
             (t.overlapped || (t.currentTarget.Some? && t.proven == t.currentTarget &&
                               AddressesAllow(t.currentTarget.value, t.currentIps))))
  {
    hide AddressesAllow, ValidTarget;
  }
}
