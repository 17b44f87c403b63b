/** What every run of one session keeps. */
module SessionProofs {
  import opened Basics
  import opened StateMachine
  import opened TargetVerify
  import opened Detector
  import opened Session

  predicate IsEnter(op: Op) { op.EnterWait? || op.EnterProbe? }

  predicate IsExec(op: Op) { op.ExecWait? || op.ExecPrompt? || op.ExecProbe? }

  predicate IsLeave(op: Op) { op.LeaveWait? || op.LeaveBackoff? }

  predicate AtRest(op: Op) { op.Idle? || op.Returned? }

  /** A shell may be typed into only when an identity check accepted it for the recorded target. */
  predicate Trusted(s: Sess) {
    s.life.state == ASSET_SHELL || s.life.state == COMMAND_RUNNING ==>
      s.currentTarget.Some? && s.proven == s.currentTarget && AddressesAllow(s.currentTarget.value, s.currentIps)
  }

  /** Nothing but dead states was ever reported after a dead one, and a dead state was reported. */
  predicate Steady(l: Life) { !l.revived && (l.wasDead <==> Dead(l.state)) }

  /** Which state each operation may find itself in, and that a live session has an open wire. */
  predicate Shape(s: Sess) {
    (Live(s.life.state) ==> !Gone(s)) &&
    (s.life.state == DISCONNECTED ==> Gone(s) || s.op.MenuWait?) &&
    (s.life.state == ERROR ==> AtRest(s.op) && Gone(s)) &&
    (s.life.state == CONNECTING ==> s.op.Dialing? || (s.op.MenuWait? && !Gone(s))) &&
    (s.op.Dialing? || s.op.MenuWait? ==> !Live(s.life.state)) &&
    (s.life.state == COMMAND_RUNNING ==> IsExec(s.op)) &&
    (IsExec(s.op) ==> s.life.state == COMMAND_RUNNING || s.life.state == ASSET_SHELL || Dead(s.life.state)) &&
    (IsLeave(s.op) ==> s.life.state == ASSET_SHELL || Dead(s.life.state)) &&
    (s.op.ListWait? ==> s.life.state == JUMPSERVER_MENU || Dead(s.life.state)) &&
    (IsEnter(s.op) ==>
       ValidTarget(s.op.target) &&
       (s.life.state == ENTERING_ASSET || s.life.state == ASSET_SHELL || Dead(s.life.state)))
  }

  /** What holds of targets as long as no interrupt verification overlapped an entry. */
  predicate Binding(s: Sess) {
    Trusted(s) &&
    (IsEnter(s.op) ==>
       Dead(s.life.state) || (s.life.state == ENTERING_ASSET && s.currentTarget == Some(s.op.target))) &&
    (s.life.state == ENTERING_ASSET ==>
       s.currentTarget.Some? && s.proven.None? && (s.pending.Some? ==> s.pending == s.currentTarget) &&
       (IsEnter(s.op) || (AtRest(s.op) && s.pending.Some?))) &&
    (s.life.state != ENTERING_ASSET && !Dead(s.life.state) ==> s.pending.None?)
  }

  /** Every command script was written for a target the recorded addresses allow. */
  predicate ScriptsAllowed(writes: seq<Write>) {
    forall w <- writes :: w.Script? ==> w.onTarget.Some? && AddressesAllow(w.onTarget.value, w.addresses)
  }

  predicate Inv(s: Sess) {
    Steady(s.life) && Shape(s) && (!s.overlapped ==> Binding(s))
  }

  // ----- every step keeps the invariant -----

  /** t is a sound successor of s: the invariant holds and a death is never forgotten. */
  predicate Keeps(s: Sess, t: Sess) { Inv(t) && (s.life.wasDead ==> t.life.wasDead) }

  /** All that a state change does to a steady history. */
  lemma Moved(l: Life, next: SessionState)
    requires Steady(l) && next != CONNECTING
    ensures var m := Move(l, next);
            m.state == (if l.state == next then next else NextState(l.state, next)) &&
            (l.wasDead ==> m.wasDead) && Steady(m)
  {
  }

  /** A dead session with nothing in flight is fine whatever it remembers. */
  lemma DeadIsFine(s: Sess)
    requires Steady(s.life) && Dead(s.life.state) && AtRest(s.op)
    requires s.life.state == DISCONNECTED || s.life.state == ERROR ==> Gone(s)
    ensures Inv(s)
  {
  }

  lemma EnterFailKeeps(s: Sess, code: ErrorCode)
    requires Inv(s) && IsEnter(s.op)
    ensures Keeps(s, EnterFail(s, code))
  {
    hide AddressesAllow, ValidTarget, Move;
    if s.life.state == ENTERING_ASSET {
      Moved(s.life, DISCONNECTED);
      Moved(s.life, UNKNOWN);
      Moved(s.life, JUMPSERVER_MENU);
    }
  }

  lemma SetStateKeeps(s: Sess, next: SessionState)
    requires Inv(s) && IsEnter(s.op) && (next == UNKNOWN || (next == DISCONNECTED && Gone(s)))
    ensures Keeps(s, SetState(s, next)) && SetState(s, next).op == s.op
  {
    hide AddressesAllow, ValidTarget;
  }

  lemma EnterPollKeeps(s: Sess, o: Obs, now: int)
    requires Inv(s) && s.op.EnterWait?
    ensures Keeps(s, EnterPoll(s, o, now))
  {
    hide AddressesAllow, ValidTarget, EnterFail, Offers, Move;
    var EnterWait(target, account, chosen) := s.op;
    if s.screen.kind == ShellScreen {
      if Gone(s) {
        SetStateKeeps(s, DISCONNECTED);
        EnterFailKeeps(SetState(s, DISCONNECTED), CONNECTION_LOST);
      }
    } else if s.screen.accounts.detected && (!chosen || account.None?) {
      EnterFailKeeps(s.(pending := Some(target)), ACCOUNT_SELECTION_REQUIRED);
      EnterFailKeeps(s, WIRE_GONE);
    } else if s.screen.failure {
      var s1 := if s.screen.banner == Unreachable
                then s.(unreachable := s.unreachable[target := now + UNREACHABLE_COOLDOWN_MS]) else s;
      EnterFailKeeps(s1, FailureCode(s.screen.banner, ASSET_ENTER_TIMEOUT));
    } else {
      EnterFailKeeps(s, LateCode(s.screen.lateBanner, CONNECTION_LOST));
      EnterFailKeeps(s, LateCode(s.screen.lateBanner, ASSET_ENTER_TIMEOUT));
      EnterFailKeeps(s, ABORTED);
    }
  }

  lemma NoEmptyAddress(addresses: seq<string>)
    ensures forall ip <- NonEmpty(addresses) :: |ip| > 0
  {
  }

  lemma EnterAcceptedKeeps(s: Sess, ips: seq<string>, verified: bool)
    requires Inv(s) && s.op.EnterProbe? && AddressesAllow(s.op.target, ips)
    ensures Keeps(s, EnterAccepted(s, s.op.target, ips, verified))
  {
    hide ValidTarget, IsIpv4Literal, Move;
    Moved(s.life, ASSET_SHELL);
  }

  lemma EnterProbePollKeeps(s: Sess, o: Obs)
    requires Inv(s) && s.op.EnterProbe?
    ensures Keeps(s, EnterProbePoll(s, o))
  {
    hide AddressesAllow, ValidTarget, EnterFail, NonEmpty, VerifyTargetIdentity, EnterAccepted, Move;
    SetStateKeeps(s, UNKNOWN);
    EnterFailKeeps(SetState(s, UNKNOWN), ASSET_VERIFY_FAILED);
    EnterFailKeeps(SetState(s, UNKNOWN), TARGET_VERIFICATION_FAILED);
    if s.wireClosed {
      SetStateKeeps(s, DISCONNECTED);
      EnterFailKeeps(SetState(s, DISCONNECTED), CONNECTION_LOST);
    }
    EnterFailKeeps(s, ABORTED);
    if o.probe.Some? {
      NoEmptyAddress(o.probe.value.addresses);
      var info := o.probe.value;
      var ips := NonEmpty(info.addresses);
      MismatchIffAddressesForbid(s.op.target, info.hostname, ips, info.embedded);
      if AddressesAllow(s.op.target, ips) {
        EnterAcceptedKeeps(s, ips, true);
        EnterAcceptedKeeps(s, ips, false);
      }
    }
  }

  lemma ConnectFailKeeps(s: Sess, notified: bool, code: ErrorCode)
    requires Inv(s) && (s.op.MenuWait? || s.op.Dialing?)
    ensures Keeps(s, ConnectFail(s, notified, code))
  {
    assert Steady(s.life) && !Live(s.life.state);
    hide Inv, Move;
    Moved(s.life, DISCONNECTED);
    Moved(DropWire(s, notified).life, ERROR);
    DeadIsFine(ConnectFail(s, notified, code));
  }

  lemma MenuPollKeeps(s: Sess, o: Obs, notified: bool)
    requires Inv(s) && s.op.MenuWait?
    ensures Keeps(s, MenuPoll(s, o, notified))
  {
    hide AddressesAllow, ValidTarget, Move, DropWire;
    hide ConnectFail;
    if s.screen.kind == MenuScreen {
      Moved(s.life, JUMPSERVER_MENU);
    } else {
      Moved(s.life, UNKNOWN);
      ConnectFailKeeps(s, notified, ABORTED);
      ConnectFailKeeps(SetState(s, UNKNOWN), notified, MENU_NOT_DETECTED);
    }
  }

  lemma ExecMoveKeeps(s: Sess, next: SessionState)
    requires Inv(s) && IsExec(s.op) && (next == ASSET_SHELL || next == UNKNOWN || (next == DISCONNECTED && Gone(s)))
    ensures Keeps(s, SetState(s, next)) && SetState(s, next).op == s.op &&
            SetState(s, next).life.state != COMMAND_RUNNING
  {
    hide AddressesAllow, ValidTarget, Move;
    Moved(s.life, next);
  }

  lemma ExecReturnKeeps(s: Sess, next: SessionState, outcome: Outcome)
    requires Inv(s) && IsExec(s.op) && (next == ASSET_SHELL || next == UNKNOWN || (next == DISCONNECTED && Gone(s)))
    ensures Keeps(s, SetState(s, next)) && Keeps(s, Return(SetState(s, next), outcome))
  {
    ExecMoveKeeps(s, next);
    hide AddressesAllow, ValidTarget, SetState;
  }

  lemma ExecCaughtKeeps(s: Sess)
    requires Inv(s) && IsExec(s.op)
    ensures Keeps(s, ExecCaught(s))
  {
    ExecReturnKeeps(s, ASSET_SHELL, Failed(WRITE_FAILED));
    hide AddressesAllow, ValidTarget, SetState;
  }

  lemma ExecInterruptKeeps(s: Sess, aborting: bool, threw: bool)
    requires Inv(s) && IsExec(s.op)
    ensures Keeps(s, ExecInterrupt(s, aborting, threw))
  {
    hide AddressesAllow, ValidTarget, ExecRecovered;
    ExecRecoveredKeeps(s, aborting, false);
  }

  lemma ExecPollKeeps(s: Sess, o: Obs)
    requires Inv(s) && s.op.ExecWait?
    ensures Keeps(s, ExecPoll(s, o))
  {
    hide Inv, ExecInterrupt, Move;
    ExecReturnKeeps(s, ASSET_SHELL, Completed(o.exitCode.GetOr(0)));
    ExecReturnKeeps(SetState(s, ASSET_SHELL), UNKNOWN, Failed(COMMAND_STATE_UNKNOWN));
    if s.wireClosed { ExecReturnKeeps(s, DISCONNECTED, SignalLost); }
    ExecInterruptKeeps(s, true, o.threw);
    ExecInterruptKeeps(s, false, o.threw);
  }

  lemma ExecRecoveredKeeps(s: Sess, aborting: bool, verified: bool)
    requires Inv(s) && IsExec(s.op)
    ensures Keeps(s, ExecRecovered(s, aborting, verified))
  {
    hide Inv, SetState;
    ExecReturnKeeps(s, if verified then ASSET_SHELL else UNKNOWN, if aborting then Failed(ABORTED)
                    else TimedOut(verified));
  }

  lemma ExecPromptPollKeeps(s: Sess, o: Obs)
    requires Inv(s) && s.op.ExecPrompt?
    ensures Keeps(s, ExecPromptPoll(s, o))
  {
    hide AddressesAllow, ValidTarget, ExecCaught, ExecRecovered;
    ExecCaughtKeeps(s);
    ExecRecoveredKeeps(s, s.op.aborting, false);
  }

  lemma ExecProbePollKeeps(s: Sess, o: Obs)
    requires Inv(s) && s.op.ExecProbe?
    ensures Keeps(s, ExecProbePoll(s, o))
  {
    hide Inv, ExecRecovered;
    ExecRecoveredKeeps(s, s.op.aborting, false);
    ExecRecoveredKeeps(s, s.op.aborting, true);
  }

  lemma LeaveEndKeeps(s: Sess)
    requires Inv(s) && IsLeave(s.op)
    ensures Keeps(s, LeaveEnd(s))
  {
    hide AddressesAllow, ValidTarget, Move;
    if AtMenu(s) {
      Moved(s.life, JUMPSERVER_MENU);
    } else {
      Moved(s.life, UNKNOWN);
      hide Inv;
      DeadIsFine(LeaveEnd(s));
    }
  }

  lemma LeavePollKeeps(s: Sess, o: Obs)
    requires Inv(s) && s.op.LeaveWait?
    ensures Keeps(s, LeavePoll(s, o))
  {
    hide AddressesAllow, ValidTarget, LeaveEnd;
    LeaveEndKeeps(s);
  }

  lemma ListPollKeeps(s: Sess, o: Obs, complete: bool, paged: bool)
    requires Inv(s) && s.op.ListWait?
    ensures Keeps(s, ListPoll(s, o, complete, paged))
  {
    hide AddressesAllow, ValidTarget, Move;
    Moved(s.life, UNKNOWN);
  }

  lemma AdvanceKeeps(s: Sess, o: Obs, now: int, notified: bool, complete: bool, paged: bool)
    requires Inv(s)
    ensures Keeps(s, Advance(s, o, now, notified, complete, paged))
  {
    hide Inv, MenuPoll, EnterPoll, EnterProbePoll, ExecPoll, ExecPromptPoll, ExecProbePoll, LeavePoll, ListPoll;
    match s.op
    case MenuWait => MenuPollKeeps(s, o, notified);
    case EnterWait(_, _, _) => EnterPollKeeps(s, o, now);
    case EnterProbe(_) => EnterProbePollKeeps(s, o);
    case ExecWait => ExecPollKeeps(s, o);
    case ExecPrompt(_) => ExecPromptPollKeeps(s, o);
    case ExecProbe(_) => ExecProbePollKeeps(s, o);
    case LeaveWait(_) => LeavePollKeeps(s, o);
    case ListWait => ListPollKeeps(s, o, complete, paged);
    case _ =>
  }

  lemma CloseKeeps(s: Sess, notified: bool)
    requires Inv(s)
    ensures Keeps(s, Close(s, notified)) && Dead(Close(s, notified).life.state)
  {
    hide AddressesAllow, ValidTarget;
  }

  lemma ReturnKeeps(s: Sess, outcome: Outcome)
    requires Inv(s) && s.op.Idle?
    ensures Keeps(s, Return(s, outcome))
  {
    hide AddressesAllow;
  }

  lemma NewEntryKeeps(s: Sess, target: string, account: Option<int>)
    requires Inv(s) && s.op.Idle? && s.life.state == JUMPSERVER_MENU && ValidTarget(target)
    ensures Keeps(s, NewEntry(s, target, account))
  {
    hide AddressesAllow, ValidTarget, Move;
    Moved(s.life, ENTERING_ASSET);
  }

  lemma EnterBeginKeeps(s: Sess, target: string, account: Option<int>, now: int)
    requires Inv(s) && s.op.Idle?
    ensures Keeps(s, EnterBegin(s, target, account, now))
  {
    hide AddressesAllow, ValidTarget, Move, InCooldown, Return, NewEntry;
    ReturnKeeps(s, Failed(ASSET_NOT_FOUND));
    ReturnKeeps(s, Failed(INVALID_ARGUMENT));
    ReturnKeeps(s, Failed(ACCOUNT_SELECTION_REQUIRED));
    ReturnKeeps(s, Failed(NOT_AT_MENU));
    ReturnKeeps(s, Failed(ASSET_UNREACHABLE));
    if Parked(s, target) {
      var next := if Gone(s) then DISCONNECTED else UNKNOWN;
      var t := SetState(s.(pending := None), next);
      Moved(s.life, next);
      DeadIsFine(t);
      ReturnKeeps(t, Failed(ACCOUNT_SELECTION_EXPIRED));
    } else if s.life.state == JUMPSERVER_MENU && ValidTarget(target) {
      NewEntryKeeps(s, target, account);
    }
  }

  lemma ExecBeginKeeps(s: Sess, threw: bool)
    requires Inv(s) && s.op.Idle?
    ensures Keeps(s, ExecBegin(s, threw))
  {
    hide AddressesAllow, ValidTarget;
  }

  lemma VerificationKeeps(s: Sess, verified: bool)
    requires Inv(s)
    ensures Keeps(s, ApplyVerification(s, verified))
  {
    hide AddressesAllow, ValidTarget, Move;
    Moved(s.life, if verified then ASSET_SHELL else UNKNOWN);
  }

  lemma WireClosedKeeps(s: Sess)
    requires Inv(s)
    ensures Keeps(s, OnWireClose(s))
  {
    hide AddressesAllow, ValidTarget, Move;
    Moved(s.life, DISCONNECTED);
  }

  lemma ShortBeginsKeep(s: Sess)
    requires Inv(s) && s.op.Idle?
    ensures Keeps(s, LeaveBegin(s)) && Keeps(s, ListBegin(s)) && Keeps(s, WriteJobLine(s))
  {
    hide AddressesAllow, ValidTarget;
  }

  lemma StepKeeps(s: Sess, e: Event)
    requires Inv(s)
    ensures Keeps(s, Step(s, e))
  {
    hide AddressesAllow, ValidTarget, Advance, Close, EnterBegin, ExecBegin, ApplyVerification, OnWireClose,
         ConnectFail,
         LeaveBegin, ListBegin, WriteJobLine;
    if s.op.Idle? { ShortBeginsKeep(s); }
    match e
    case Poll(o, now, notified, complete, paged) => AdvanceKeeps(s, o, now, notified, complete, paged);
    case Disposed(notified) => CloseKeeps(s, notified);
    case WireClosed => WireClosedKeeps(s);
    case Verification(verified) => VerificationKeeps(s, verified);
    case Dialed(dialed) => if s.op.Dialing? { ConnectFailKeeps(s, false, CONNECT_FAILED); }
    case BeginEnter(wanted, account, at) => if s.op.Idle? { EnterBeginKeeps(s, wanted, account, at); }
    case BeginExec(threw) => if s.op.Idle? { ExecBeginKeeps(s, threw); }
    case _ =>
  }
}
