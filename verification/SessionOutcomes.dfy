/**
 * What every operation of session.ts answers: outcome by outcome, with the exact condition on the session
 * and on what the segment observes, what it leaves behind, and what it does when it goes on instead. All of
 * it is said of a step, and so holds wherever in a run that step is taken.
 */
module SessionOutcomes {
  import opened Basics
  import opened StateMachine
  import opened TargetVerify
  import opened Detector
  import opened Session
  import opened SessionProofs
  import opened SessionExits
  import opened EntryProtocol
  import opened SessionEvidence

  /** Waiting in a loop that only a poll of its own ends. */
  predicate Waits(op: Op) { IsEnter(op) || IsExec(op) || op.LeaveWait? || op.ListWait? || op.MenuWait? }

  lemma OnlyPollsEnd(s: Sess, e: Event)
    requires Waits(s.op) && !e.Poll?
    ensures Step(s, e).op == s.op
  {
    hide Move, Advance, EnterBegin, ExecBegin, LeaveBegin, ListBegin, WriteJobLine, ConnectDialed, LeaveResend;
  }

  // ----- exec -----

  /** The command's marker has not come, and the wire was not seen to close. */
  predicate Unanswered(s: Sess, o: Obs) { !o.matched && !s.wireClosed }

  /** The recovery saw a probe answered. */
  predicate Reproven(s: Sess, o: Obs) { s.op.ExecProbe? && o.matched && o.probe.Some? }

  /** The recovery of an exec gives up. */
  predicate Unproved(s: Sess, o: Obs)
    requires IsExec(s.op)
  {
    match s.op
    case ExecWait => Unanswered(s, o) && (o.aborted || o.expired) && (!s.wire || o.threw)
    case ExecPrompt(aborting) => Gone(s) || (!aborting && o.aborted) || (s.screen.kind != ShellScreen && o.expired)
    case ExecProbe(aborting) =>
      if o.matched then o.probe.None? else s.wireClosed || (!aborting && o.aborted) || o.expired
  }

  /** The caller has given the command up; otherwise it ran out of time. */
  predicate Aborting(s: Sess, o: Obs)
    requires IsExec(s.op)
  {
    if s.op.ExecWait? then o.aborted else s.op.aborting
  }

  /** The recovery has a shell prompt before it, and writes its probe. */
  predicate Probes(s: Sess, o: Obs) {
    s.op.ExecPrompt? && !Gone(s) && (s.op.aborting || !o.aborted) && s.screen.kind == ShellScreen
  }

  predicate ExecAnswers(s: Sess, o: Obs, outcome: Outcome)
    requires IsExec(s.op)
  {
    match outcome
    case Completed(n) => s.op.ExecWait? && o.matched && o.exitCode == Some(n)
    case SignalLost => s.op.ExecWait? && !o.matched && s.wireClosed
    case TimedOut(recovered) => !Aborting(s, o) && if recovered then Reproven(s, o) else Unproved(s, o)
    case Failed(code) =>
      (code == ABORTED && Aborting(s, o) && (Reproven(s, o) || Unproved(s, o))) ||
      (code == COMMAND_STATE_UNKNOWN && s.op.ExecWait? && o.matched && o.exitCode.None?) ||
      (code == WRITE_FAILED && Probes(s, o) && o.threw)
    case Succeeded => false
  }

  /** The state a finished exec leaves. */
  function ExecLeaves(s: Sess, o: Obs, outcome: Outcome): SessionState {
    match outcome
    case Completed(_) => ASSET_SHELL
    case SignalLost => DISCONNECTED
    case TimedOut(recovered) => if recovered then ASSET_SHELL else UNKNOWN
    case Failed(code) => if code == WRITE_FAILED || (code == ABORTED && Reproven(s, o)) then ASSET_SHELL else UNKNOWN
    case Succeeded => UNKNOWN
  }

  /**
   * What exec reports: Completed(n) exactly when the marker was found with exit code n, and every other
   * outcome exactly when its own condition holds. Nothing but a poll of its own ends an exec.
   */
  lemma ExecAnswersIff(s: Sess, e: Event, outcome: Outcome)
    requires IsExec(s.op)
    ensures Step(s, e).op == Returned(outcome) <==> e.Poll? && ExecAnswers(s, e.o, outcome)
  {
    hide Step, ExecPoll, ExecPromptPoll, ExecProbePoll, ExecAnswers;
    if e.Poll? {
      AdvanceIs(s, e.o, e.now, e.notified, e.complete, e.paged);
      if s.op.ExecWait? {
        WaitAnswers(s, e.o, outcome);
      } else if s.op.ExecPrompt? {
        PromptAnswers(s, e.o, outcome);
      } else {
        ProbeAnswers(s, e.o, outcome);
      }
    } else {
      OnlyPollsEnd(s, e);
    }
  }

  lemma WaitAnswers(s: Sess, o: Obs, outcome: Outcome)
    requires s.op.ExecWait?
    ensures ExecPoll(s, o).op == Returned(outcome) <==> ExecAnswers(s, o, outcome)
  {
    hide Move;
  }

  lemma PromptAnswers(s: Sess, o: Obs, outcome: Outcome)
    requires s.op.ExecPrompt?
    ensures ExecPromptPoll(s, o).op == Returned(outcome) <==> ExecAnswers(s, o, outcome)
  {
    hide Move;
  }

  lemma ProbeAnswers(s: Sess, o: Obs, outcome: Outcome)
    requires s.op.ExecProbe?
    ensures ExecProbePoll(s, o).op == Returned(outcome) <==> ExecAnswers(s, o, outcome)
  {
    hide Move;
  }

  /** And the session it leaves: nothing but the state has changed, and a dead session stays dead. */
  lemma ExecLeavesBehind(s: Sess, e: Event, outcome: Outcome)
    requires Inv(s) && IsExec(s.op) && Step(s, e).op == Returned(outcome)
    ensures e.Poll? && Left(s, Step(s, e), ExecLeaves(s, e.o, outcome))
  {
    ExecAnswersIff(s, e, outcome);
    AdvanceIs(s, e.o, e.now, e.notified, e.complete, e.paged);
    assert ExecState(s) by { hide Binding, Steady, Step, ExecAnswers; }
    hide Step, Inv, ExecPoll, ExecPromptPoll, ExecProbePoll, ExecAnswers, ExecLeaves, Left;
    if s.op.ExecWait? {
      WaitLeaves(s, e.o, outcome);
    } else if s.op.ExecPrompt? {
      PromptLeaves(s, e.o, outcome);
    } else {
      ProbeLeaves(s, e.o, outcome);
    }
  }

  /** Only state and operation differ, and a session that was not dead is in this state now. */
  predicate Left(s: Sess, t: Sess, state: SessionState) {
    t == s.(life := t.life, op := t.op) && if Dead(s.life.state) then Dead(t.life.state) else t.life.state == state
  }

  /** Where an exec's requests for a state lead. */
  lemma ExecLands(s: Sess, next: SessionState)
    requires ExecState(s) && (next == ASSET_SHELL || next == UNKNOWN || next == DISCONNECTED)
    ensures var t := SetState(s, next);
            Left(s, t, next) && t.op == s.op && ExecState(t) && t.wireClosed == s.wireClosed
  {
  }

  lemma WaitLeaves(s: Sess, o: Obs, outcome: Outcome)
    requires s.op.ExecWait? && ExecState(s) && ExecPoll(s, o).op == Returned(outcome)
    ensures Left(s, ExecPoll(s, o), ExecLeaves(s, o, outcome))
  {
    hide SetState, Gone, ExecPoll;
    WaitIs(s, o);
    ExecLands(s, ASSET_SHELL);
    ExecLands(s, UNKNOWN);
    ExecLands(s, DISCONNECTED);
    ExecLands(SetState(s, ASSET_SHELL), UNKNOWN);
  }

  lemma WaitIs(s: Sess, o: Obs)
    requires s.op.ExecWait?
    ensures var t := ExecPoll(s, o); var gaveUp := if o.aborted then Failed(ABORTED) else TimedOut(false);
            if o.matched && o.exitCode.None?
            then t == SetState(SetState(s, ASSET_SHELL), UNKNOWN).(op := Returned(Failed(COMMAND_STATE_UNKNOWN)))
            else if o.matched then t == SetState(s, ASSET_SHELL).(op := Returned(Completed(o.exitCode.value)))
            else if s.wireClosed then t == SetState(s, DISCONNECTED).(op := Returned(SignalLost))
            else if !o.aborted && !o.expired then t == s
            else if Gone(s) || o.threw then t == SetState(s, UNKNOWN).(op := Returned(gaveUp))
            else t.op == ExecPrompt(o.aborted)
  {
    hide SetState, Gone;
  }

  lemma PromptLeaves(s: Sess, o: Obs, outcome: Outcome)
    requires s.op.ExecPrompt? && ExecState(s) && ExecPromptPoll(s, o).op == Returned(outcome)
    ensures Left(s, ExecPromptPoll(s, o), ExecLeaves(s, o, outcome))
  {
    hide SetState;
    ExecLands(s, ASSET_SHELL);
    ExecLands(s, UNKNOWN);
  }

  lemma ProbeLeaves(s: Sess, o: Obs, outcome: Outcome)
    requires s.op.ExecProbe? && ExecState(s) && ExecProbePoll(s, o).op == Returned(outcome)
    ensures Left(s, ExecProbePoll(s, o), ExecLeaves(s, o, outcome))
  {
    hide SetState;
    ExecLands(s, ASSET_SHELL);
    ExecLands(s, UNKNOWN);
  }

  /** Otherwise it sends its Ctrl+C once the caller gives up or time is up, then its probe at a prompt, or waits on. */
  lemma ExecGoesOn(s: Sess, o: Obs, now: int, notified: bool, complete: bool, paged: bool)
    requires IsExec(s.op)
    ensures var t := Step(s, Poll(o, now, notified, complete, paged));
            t.op.Returned? ||
            if s.op.ExecWait? && Unanswered(s, o) && (o.aborted || o.expired)
            then t == s.(writes := s.writes + [CtrlC(false)], op := ExecPrompt(o.aborted))
            else if Probes(s, o) then t == s.(writes := s.writes + [Probe], op := ExecProbe(s.op.aborting))
            else t == s
  {
    AdvanceIs(s, o, now, notified, complete, paged);
    hide Move, Step;
  }

  // ----- enter: the first segment -----

  /** This call answers the prompt left on the screen for its target, or is refused for it. */
  predicate AtOwnPrompt(s: Sess, target: string) { s.life.state == ENTERING_ASSET && s.pending == Some(target) }

  /** The target could not be reached, and the time it is left alone for is not over. */
  predicate Cooling(s: Sess, target: string, now: int) { target in s.unreachable && now < s.unreachable[target] }

  predicate Admissible(target: string, account: Option<int>) {
    ValidTarget(target) && (account.None? || account.value >= 0)
  }

  /** The prompt is on the screen of a live session and the caller brings an answer. */
  predicate Resumes(s: Sess, target: string, account: Option<int>) {
    AtOwnPrompt(s, target) && s.screen.accounts.detected && account.Some? && !Gone(s)
  }

  /** When enter is refused, by reason. */
  predicate EntryRefused(s: Sess, target: string, account: Option<int>, now: int, code: ErrorCode) {
    var listed := s.screen.accounts.detected;
    (code == ASSET_NOT_FOUND && !ValidTarget(target)) ||
    (code == INVALID_ARGUMENT && ValidTarget(target) && !Admissible(target, account)) ||
    (Admissible(target, account) &&
     ((code == ACCOUNT_SELECTION_EXPIRED && AtOwnPrompt(s, target) && !listed) ||
      (code == ACCOUNT_SELECTION_REQUIRED && AtOwnPrompt(s, target) && listed && account.None?) ||
      (code == NOT_AT_MENU && s.life.state != JUMPSERVER_MENU && !Resumes(s, target, account) &&
       (AtOwnPrompt(s, target) ==> listed && account.Some?)) ||
      (code == ASSET_UNREACHABLE && s.life.state == JUMPSERVER_MENU && Cooling(s, target, now))))
  }

  /**
   * The first segment of enter refuses for exactly one reason, each with its exact condition; it resumes exactly
   * at its own prompt; and it types its target line exactly at the menu for a target that is not cooling down.
   */
  lemma EntryBeginsIff(s: Sess, target: string, account: Option<int>, now: int, code: ErrorCode)
    requires s.op.Idle?
    ensures var t := Step(s, BeginEnter(target, account, now));
            (t.op == Returned(Failed(code)) <==> EntryRefused(s, target, account, now, code)) &&
            (t.op == EnterWait(target, account, false) && t.writes == s.writes <==>
               Admissible(target, account) && Resumes(s, target, account)) &&
            (t.writes != s.writes <==>
               Admissible(target, account) && s.life.state == JUMPSERVER_MENU && !Cooling(s, target, now))
  {
    hide ValidTarget, Admit, EnterExpired, NewEntry, EntryRefused, Admissible, Resumes, Cooling, Advance;
    EntryAdmission(s, target, account, now, code);
    ExpiredSegment(s);
    NewEntrySegment(s, target, account);
  }

  /** A first segment from s to t, for every reason: refused, resumed or begun exactly as its conditions say. */
  ghost predicate BeginsEntry(s: Sess, t: Sess, target: string, account: Option<int>, now: int) {
    (forall code :: t.op == Returned(Failed(code)) <==> EntryRefused(s, target, account, now, code)) &&
    (t.op == EnterWait(target, account, false) && t.writes == s.writes <==>
       Admissible(target, account) && Resumes(s, target, account)) &&
    t.writes == if Admissible(target, account) && s.life.state == JUMPSERVER_MENU && !Cooling(s, target, now)
                then s.writes + [TargetLine(target)] else s.writes
  }

  lemma EntryBeginsAre(s: Sess, target: string, account: Option<int>, now: int)
    requires s.op.Idle?
    ensures BeginsEntry(s, EnterBegin(s, target, account, now), target, account, now)
  {
    hide EnterBegin, EntryRefused, Admissible, Resumes, Cooling, Advance;
    forall code
      ensures EnterBegin(s, target, account, now).op == Returned(Failed(code)) <==>
              EntryRefused(s, target, account, now, code)
    {
      EntryBeginsIff(s, target, account, now, code);
    }
    EntryBeginsIff(s, target, account, now, NOT_AT_MENU);
    EntryTypes(s, target, account, now);
  }

  lemma EntryTypes(s: Sess, target: string, account: Option<int>, now: int)
    ensures var t := EnterBegin(s, target, account, now);
            t.writes == s.writes || t.writes == s.writes + [TargetLine(target)]
  {
    hide Admit, EnterExpired, NewEntry;
    ExpiredSegment(s);
    NewEntrySegment(s, target, account);
  }

  /** The order of the tests, reason by reason. */
  lemma EntryAdmission(s: Sess, target: string, account: Option<int>, now: int, code: ErrorCode)
    ensures var a := Admit(s, target, account, now);
            (EntryRefused(s, target, account, now, code) <==>
               if code == ACCOUNT_SELECTION_EXPIRED then a.Lapsed? else a == Refused(code)) &&
            a != Refused(ACCOUNT_SELECTION_EXPIRED) &&
            (a.Resumed? <==> Admissible(target, account) && Resumes(s, target, account)) &&
            (a.Admitted? <==>
               Admissible(target, account) && s.life.state == JUMPSERVER_MENU && !Cooling(s, target, now))
  {
    hide ValidTarget, Gone;
  }

  /** A refusal touches nothing, but an expired prompt gives the session up. */
  lemma RefusedEntryTouchesNothing(s: Sess, target: string, account: Option<int>, now: int, code: ErrorCode)
    requires s.op.Idle? && EntryRefused(s, target, account, now, code)
    ensures var t := Step(s, BeginEnter(target, account, now));
            t.op == Returned(Failed(code)) &&
            if code == ACCOUNT_SELECTION_EXPIRED
            then t == s.(life := t.life, pending := None, op := t.op) &&
                 t.life.state == (if Gone(s) then DISCONNECTED else UNKNOWN)
            else t == s.(op := t.op)
  {
    EntryAdmission(s, target, account, now, code);
    if code == ACCOUNT_SELECTION_EXPIRED { ExpiryGivesUp(s); }
    hide ValidTarget, Admit, EnterExpired, Admissible, Resumes, Cooling, Advance, NewEntry;
  }

  lemma ExpiryGivesUp(s: Sess)
    ensures var t := EnterExpired(s);
            t == s.(life := t.life, pending := None, op := Returned(Failed(ACCOUNT_SELECTION_EXPIRED))) &&
            (s.life.state == ENTERING_ASSET ==> t.life.state == if Gone(s) then DISCONNECTED else UNKNOWN)
  {
  }

  /** What the first segment changes when it is not refused. */
  lemma EntryBegun(s: Sess, target: string, account: Option<int>, now: int)
    requires s.op.Idle? && Admissible(target, account)
    ensures var t := Step(s, BeginEnter(target, account, now));
            Resumes(s, target, account) ==> t == s.(op := EnterWait(target, account, false))
    ensures var t := Step(s, BeginEnter(target, account, now));
            s.life.state == JUMPSERVER_MENU && !Cooling(s, target, now) ==>
              t == s.(life := t.life, unreachable := s.unreachable - {target}, currentTarget := Some(target),
                      proven := None, screen := BLANK_SCREEN, writes := s.writes + [TargetLine(target)],
                      op := EnterWait(target, account, account.None?)) &&
              t.life.state == ENTERING_ASSET
  {
    EntryAdmission(s, target, account, now, NOT_AT_MENU);
    hide ValidTarget, Admit, EnterExpired, Admissible, Resumes, Cooling, Advance, EntryRefused;
  }

  // ----- enter: the wait -----

  /** An account list is displayed that this call may still answer, or must not. */
  predicate Asked(s: Sess)
    requires s.op.EnterWait?
  {
    s.screen.kind != ShellScreen && s.screen.accounts.detected && (!s.op.chosen || s.op.account.None?)
  }

  /** The caller's account is among those displayed and was not typed yet. */
  predicate Choosable(s: Sess)
    requires s.op.EnterWait?
  {
    !s.op.chosen && s.op.account.Some? && Offers(s.screen.accounts, s.op.account.value)
  }

  /** Neither a shell nor a list nor a failure is on the screen. */
  predicate NothingShown(s: Sess)
    requires s.op.EnterWait?
  {
    s.screen.kind != ShellScreen && !Asked(s) && !s.screen.failure
  }

  /** The wait ends without anything shown. */
  predicate WaitIsOver(s: Sess, o: Obs)
    requires s.op.EnterWait?
  {
    NothingShown(s) && (Gone(s) || (!o.aborted && o.expired))
  }

  predicate FailureShown(s: Sess, banner: Banner)
    requires s.op.EnterWait?
  {
    s.screen.kind != ShellScreen && !Asked(s) && s.screen.failure && s.screen.banner == banner
  }

  predicate Unclassified(b: Banner) { b == Unreachable || b == OtherBanner }

  predicate EntryFails(s: Sess, o: Obs, code: ErrorCode)
    requires s.op.EnterWait?
  {
    match code
    case ASSET_NOT_AUTHORIZED =>
      FailureShown(s, NotAuthorized) || (WaitIsOver(s, o) && s.screen.lateBanner == NotAuthorized)
    case ASSET_NOT_FOUND => FailureShown(s, NotFound) || (WaitIsOver(s, o) && s.screen.lateBanner == NotFound)
    case ASSET_UNREACHABLE => FailureShown(s, Unreachable)
    case ASSET_ENTER_TIMEOUT =>
      FailureShown(s, OtherBanner) || (WaitIsOver(s, o) && !Gone(s) && Unclassified(s.screen.lateBanner))
    case CONNECTION_LOST =>
      Gone(s) && (s.screen.kind == ShellScreen || (WaitIsOver(s, o) && Unclassified(s.screen.lateBanner)))
    case ACCOUNT_SELECTION_REQUIRED => Asked(s) && !Choosable(s)
    case WIRE_GONE => Asked(s) && Choosable(s) && !s.wire
    case ABORTED => NothingShown(s) && !Gone(s) && o.aborted
    case _ => false
  }

  /** The wait of enter ends in failure for exactly one reason; it never ends well, and only its own polls end it. */
  lemma EntryFailsIff(s: Sess, e: Event, outcome: Outcome)
    requires s.op.EnterWait?
    ensures Step(s, e).op == Returned(outcome) <==> e.Poll? && outcome.Failed? && EntryFails(s, e.o, outcome.code)
  {
    hide Step, EnterPoll, EntryFails;
    if e.Poll? {
      AdvanceIs(s, e.o, e.now, e.notified, e.complete, e.paged);
      EntryPollFails(s, e.o, e.now, outcome);
    } else {
      OnlyPollsEnd(s, e);
    }
  }

  lemma EntryPollFails(s: Sess, o: Obs, now: int, outcome: Outcome)
    requires s.op.EnterWait?
    ensures EnterPoll(s, o, now).op == Returned(outcome) <==> outcome.Failed? && EntryFails(s, o, outcome.code)
  {
    hide EnterPoll, EntryFails, Asked;
    if s.screen.kind != ShellScreen && !Asked(s) {
      UnaskedFails(s, o, now, outcome);
    } else {
      ShownFails(s, o, now, outcome);
    }
  }

  lemma ShownFails(s: Sess, o: Obs, now: int, outcome: Outcome)
    requires s.op.EnterWait? && (s.screen.kind == ShellScreen || Asked(s))
    ensures EnterPoll(s, o, now).op == Returned(outcome) <==> outcome.Failed? && EntryFails(s, o, outcome.code)
  {
    hide Offers, EnterFail, SetState, Gone;
    forall t: Sess, code ensures EnterFail(t, code).op == Returned(Failed(code)) { EnterFailEnds(t, code); }
  }

  lemma UnaskedFails(s: Sess, o: Obs, now: int, outcome: Outcome)
    requires s.op.EnterWait? && s.screen.kind != ShellScreen && !Asked(s)
    ensures EnterPoll(s, o, now).op == Returned(outcome) <==> outcome.Failed? && EntryFails(s, o, outcome.code)
  {
    hide Offers, EnterFail, SetState, Gone;
    forall t: Sess, code ensures EnterFail(t, code).op == Returned(Failed(code)) { EnterFailEnds(t, code); }
  }

  /** Otherwise it types the account ID it was given, or its probe into a shell, or waits on. */
  lemma EntryGoesOn(s: Sess, o: Obs, now: int, notified: bool, complete: bool, paged: bool)
    requires s.op.EnterWait?
    ensures var t := Step(s, Poll(o, now, notified, complete, paged));
            t.op.Returned? ||
            if s.screen.kind == ShellScreen then t == s.(writes := s.writes + [Probe], op := EnterProbe(s.op.target))
            else if Asked(s)
            then s.op.account.Some? &&
                 t == s.(writes := s.writes + [AccountId(s.op.account.value, s.screen.accounts)],
                         op := s.op.(chosen := true))
            else t == s
  {
    AdvanceIs(s, o, now, notified, complete, paged);
    hide Move, Step, RecoverAfterFailedEnter, Offers;
  }

  // ----- enter: the identity probe -----

  predicate ProbeEnds(s: Sess, o: Obs, outcome: Outcome)
    requires s.op.EnterProbe?
  {
    var answered := o.matched && o.probe.Some?;
    var allowed := answered && AddressesAllow(s.op.target, NonEmpty(o.probe.value.addresses));
    match outcome
    case Succeeded => allowed
    case Failed(code) =>
      (code == TARGET_VERIFICATION_FAILED && answered && !allowed) ||
      (code == CONNECTION_LOST && !o.matched && s.wireClosed) ||
      (code == ABORTED && Unanswered(s, o) && o.aborted) ||
      (code == ASSET_VERIFY_FAILED &&
       ((o.matched && o.probe.None?) || (Unanswered(s, o) && !o.aborted && o.expired)))
    case _ => false
  }

  /** The identity probe succeeds or fails for exactly one reason; only its own polls end it. */
  lemma IdentityIff(s: Sess, e: Event, outcome: Outcome)
    requires Inv(s) && s.op.EnterProbe?
    ensures Step(s, e).op == Returned(outcome) <==> e.Poll? && ProbeEnds(s, e.o, outcome)
  {
    assert ValidTarget(s.op.target);
    hide Inv, Step, EnterProbePoll, ProbeEnds;
    if e.Poll? {
      AdvanceIs(s, e.o, e.now, e.notified, e.complete, e.paged);
      IdentityPoll(s, e.o, outcome);
    } else {
      OnlyPollsEnd(s, e);
    }
  }

  lemma IdentityPoll(s: Sess, o: Obs, outcome: Outcome)
    requires s.op.EnterProbe? && ValidTarget(s.op.target)
    ensures EnterProbePoll(s, o).op == Returned(outcome) <==> ProbeEnds(s, o, outcome)
  {
    hide EnterFail, NonEmpty, VerifyTargetIdentity, AddressesAllow, ValidTarget, SetState;
    if o.matched && o.probe.Some? {
      var info := o.probe.value;
      NoEmptyAddress(info.addresses);
      MismatchIffAddressesForbid(s.op.target, info.hostname, NonEmpty(info.addresses), info.embedded);
    }
    forall t: Sess, code
      ensures EnterFail(t, code).writes == t.writes && EnterFail(t, code).op == Returned(Failed(code))
    {
      EnterFailEnds(t, code);
    }
  }

  /**
   * What an accepted shell is recorded as: the addresses the probe read, and verified exactly on evidence that
   * names the target. The target's cooldown and any pending prompt are forgotten.
   */
  lemma IdentityAccepted(s: Sess, e: Event)
    requires Inv(s) && s.op.EnterProbe? && Step(s, e).op == Returned(Succeeded)
    ensures var t := Step(s, e);
            e.Poll? && e.o.probe.Some? &&
            t == s.(life := t.life, currentIps := NonEmpty(e.o.probe.value.addresses),
                    currentVerified := t.currentVerified, proven := Some(s.op.target),
                    unreachable := s.unreachable - {s.op.target}, pending := None, op := t.op) &&
            (t.currentVerified <==>
               if IsIpv4Literal(s.op.target) then s.op.target in t.currentIps
               else e.o.probe.value.embedded && e.o.probe.value.hostname == Some(s.op.target)) &&
            (s.life.state == ENTERING_ASSET || s.life.state == ASSET_SHELL ==> t.life.state == ASSET_SHELL)
  {
    hide Step, EnterProbePoll;
    IdentityIff(s, e, Succeeded);
    AdvanceIs(s, e.o, e.now, e.notified, e.complete, e.paged);
    assert ValidTarget(s.op.target);
    hide Inv;
    AcceptedAs(s, e.o);
  }

  lemma AcceptedAs(s: Sess, o: Obs)
    requires s.op.EnterProbe? && ValidTarget(s.op.target) && EnterProbePoll(s, o).op == Returned(Succeeded)
    ensures var t := EnterProbePoll(s, o);
            o.probe.Some? &&
            t == s.(life := t.life, currentIps := NonEmpty(o.probe.value.addresses),
                    currentVerified := t.currentVerified, proven := Some(s.op.target),
                    unreachable := s.unreachable - {s.op.target}, pending := None, op := t.op) &&
            (t.currentVerified <==>
               if IsIpv4Literal(s.op.target) then s.op.target in t.currentIps
               else o.probe.value.embedded && o.probe.value.hostname == Some(s.op.target)) &&
            (s.life.state == ENTERING_ASSET || s.life.state == ASSET_SHELL ==> t.life.state == ASSET_SHELL)
  {
    hide EnterFail, NonEmpty, VerifyTargetIdentity, AddressesAllow, ValidTarget, IsIpv4Literal, SetState, Move;
    IdentityPoll(s, o, Succeeded);
    var info := o.probe.value;
    NoEmptyAddress(info.addresses);
    MismatchIffAddressesForbid(s.op.target, info.hostname, NonEmpty(info.addresses), info.embedded);
    ShellReached(s, NonEmpty(info.addresses));
  }

  lemma ShellReached(s: Sess, ips: seq<string>)
    requires s.op.EnterProbe?
    ensures forall verified :: var t := EnterAccepted(s, s.op.target, ips, verified);
              t == s.(life := t.life, currentIps := ips, currentVerified := verified, proven := Some(s.op.target),
                      unreachable := s.unreachable - {s.op.target}, pending := None, op := Returned(Succeeded)) &&
              (s.life.state == ENTERING_ASSET || s.life.state == ASSET_SHELL ==> t.life.state == ASSET_SHELL)
  {
  }

  // ----- enter: where a failure lands -----

  /** The segment that fails has already given the session up for UNKNOWN or DISCONNECTED. */
  predicate GivesUpFor(s: Sess, o: Obs, state: SessionState)
    requires IsEnter(s.op)
  {
    match s.op
    case EnterWait(_, _, _) => state == DISCONNECTED && s.screen.kind == ShellScreen
    case EnterProbe(_) =>
      if !o.matched && s.wireClosed then state == DISCONNECTED
      else state == UNKNOWN && (o.matched || !o.aborted)
  }

  /** The state in which a failed entry leaves a session it found entering. */
  function EntryLandsAt(s: Sess, o: Obs): SessionState
    requires IsEnter(s.op)
  {
    if GivesUpFor(s, o, UNKNOWN) then UNKNOWN
    else if GivesUpFor(s, o, DISCONNECTED) || Gone(s) then DISCONNECTED
    else if s.screen.accounts.detected then ENTERING_ASSET
    else if s.screen.menuPrompt then JUMPSERVER_MENU
    else UNKNOWN
  }

  /** What of the session a failed entry may have changed. */
  predicate EntryCleanedUp(s: Sess, e: Event, t: Sess)
    requires IsEnter(s.op) && e.Poll?
  {
    t == s.(life := t.life, op := t.op, pending := t.pending, currentTarget := t.currentTarget,
            unreachable := t.unreachable) &&
    t.unreachable == (if t.op == Returned(Failed(ASSET_UNREACHABLE))
                      then s.unreachable[s.op.target := e.now + UNREACHABLE_COOLDOWN_MS] else s.unreachable) &&
    t.currentTarget == (if t.life.state == JUMPSERVER_MENU then None else s.currentTarget) &&
    t.pending == if t.life.state == ENTERING_ASSET then PendingThen(s) else None
  }

  /** Exactly where a failed entry leaves a session that was still entering, and what it has forgotten by then. */
  lemma FailedEntryLandsAt(s: Sess, e: Event)
    requires Inv(s) && IsEnter(s.op) && s.life.state == ENTERING_ASSET
    requires var t := Step(s, e); t.op.Returned? && t.op.outcome.Failed?
    ensures var t := Step(s, e);
            e.Poll? && t.life.state == EntryLandsAt(s, e.o) && EntryCleanedUp(s, e, t)
  {
    assert e.Poll? by { if !e.Poll? { OnlyPollsEnd(s, e); } hide Step; }
    AdvanceIs(s, e.o, e.now, e.notified, e.complete, e.paged);
    hide Step, Inv, EntryCleanedUp, EntryLandsAt, EnterPoll, EnterProbePoll;
    if s.op.EnterWait? {
      WaitLandsAt(s, e);
    } else {
      ProbeLandsAt(s, e);
    }
  }

  /** The catch block of enter in a session that is still entering, and in one that was given up. */
  lemma CatchLandsAt(s: Sess, code: ErrorCode)
    requires s.life.state == ENTERING_ASSET || s.life.state == UNKNOWN || s.life.state == DISCONNECTED
    ensures var t := EnterFail(s, code);
            var found := if s.life.state != ENTERING_ASSET then s.life.state else if Gone(s) then DISCONNECTED
                         else if s.screen.accounts.detected then ENTERING_ASSET
                         else if s.screen.menuPrompt then JUMPSERVER_MENU else UNKNOWN;
            t.life.state == found &&
            t == s.(life := t.life, op := Returned(Failed(code)),
                    pending := if found != ENTERING_ASSET then None
                               else if s.pending.None? then s.currentTarget else s.pending,
                    currentTarget := if found == JUMPSERVER_MENU then None else s.currentTarget)
  {
  }

  lemma WaitLandsAt(s: Sess, e: Event)
    requires s.op.EnterWait? && s.life.state == ENTERING_ASSET && e.Poll? && EnterPoll(s, e.o, e.now).op.Returned?
    ensures var t := EnterPoll(s, e.o, e.now); t.life.state == EntryLandsAt(s, e.o) && EntryCleanedUp(s, e, t)
  {
    hide EnterFail, Offers, SetState, FailureCode, LateCode, EntryCleanedUp, EntryLandsAt;
    CaughtLandsAt(s, e);
    NoUnreachable(s);
    if s.screen.kind == ShellScreen { LostShellLandsAt(s, e); }
    if Refuses(s) { RefusedLandsAt(s, e); }
    UnreachableLandsAt(s, e);
  }

  lemma LostShellLandsAt(s: Sess, e: Event)
    requires s.op.EnterWait? && s.life.state == ENTERING_ASSET && e.Poll? && s.screen.kind == ShellScreen
    ensures var t := EnterFail(SetState(s, DISCONNECTED), CONNECTION_LOST);
            t.life.state == EntryLandsAt(s, e.o) && EntryCleanedUp(s, e, t)
  {
    LostShell(s);
    hide SetState, EnterFail;
    CatchLandsAt(SetState(s, DISCONNECTED), CONNECTION_LOST);
  }

  lemma LostShell(s: Sess)
    requires s.life.state == ENTERING_ASSET
    ensures var t := SetState(s, DISCONNECTED); t == s.(life := t.life) && t.life.state == DISCONNECTED
  {
  }

  lemma RefusedLandsAt(s: Sess, e: Event)
    requires s.op.EnterWait? && s.life.state == ENTERING_ASSET && e.Poll? && Refuses(s)
    ensures var t := EnterFail(s.(pending := Some(s.op.target)), ACCOUNT_SELECTION_REQUIRED);
            t.life.state == EntryLandsAt(s, e.o) && EntryCleanedUp(s, e, t)
  {
    CatchLandsAt(s.(pending := Some(s.op.target)), ACCOUNT_SELECTION_REQUIRED);
    hide EnterFail;
  }

  lemma UnreachableLandsAt(s: Sess, e: Event)
    requires s.op.EnterWait? && s.life.state == ENTERING_ASSET && e.Poll?
    ensures var t := EnterFail(s.(unreachable := s.unreachable[s.op.target := e.now + UNREACHABLE_COOLDOWN_MS]),
                               ASSET_UNREACHABLE);
            s.screen.kind != ShellScreen && !Refuses(s) ==>
              t.life.state == EntryLandsAt(s, e.o) && EntryCleanedUp(s, e, t)
  {
    CatchLandsAt(s.(unreachable := s.unreachable[s.op.target := e.now + UNREACHABLE_COOLDOWN_MS]), ASSET_UNREACHABLE);
    hide EnterFail;
  }

  lemma CaughtLandsAt(s: Sess, e: Event)
    requires s.op.EnterWait? && s.life.state == ENTERING_ASSET && e.Poll?
    ensures forall code | code != ASSET_UNREACHABLE && s.screen.kind != ShellScreen && !Refuses(s) ::
              var t := EnterFail(s, code); t.life.state == EntryLandsAt(s, e.o) && EntryCleanedUp(s, e, t)
  {
    hide EnterFail;
    forall code | code != ASSET_UNREACHABLE && s.screen.kind != ShellScreen && !Refuses(s)
      ensures var t := EnterFail(s, code); t.life.state == EntryLandsAt(s, e.o) && EntryCleanedUp(s, e, t)
    {
      CatchLandsAt(s, code);
    }
  }

  lemma NoUnreachable(s: Sess)
    ensures LateCode(s.screen.lateBanner, CONNECTION_LOST) != ASSET_UNREACHABLE
    ensures LateCode(s.screen.lateBanner, ASSET_ENTER_TIMEOUT) != ASSET_UNREACHABLE
    ensures FailureCode(s.screen.banner, ASSET_ENTER_TIMEOUT) == ASSET_UNREACHABLE <==> s.screen.banner == Unreachable
  {
  }

  lemma ProbeLandsAt(s: Sess, e: Event)
    requires s.op.EnterProbe? && s.life.state == ENTERING_ASSET && e.Poll?
    requires var t := EnterProbePoll(s, e.o); t.op.Returned? && t.op.outcome.Failed?
    ensures var t := EnterProbePoll(s, e.o); t.life.state == EntryLandsAt(s, e.o) && EntryCleanedUp(s, e, t)
  {
    assert SetState(s, DISCONNECTED).life.state == DISCONNECTED && SetState(s, UNKNOWN).life.state == UNKNOWN;
    CatchLandsAt(SetState(s, DISCONNECTED), CONNECTION_LOST);
    CatchLandsAt(SetState(s, UNKNOWN), ASSET_VERIFY_FAILED);
    CatchLandsAt(SetState(s, UNKNOWN), TARGET_VERIFICATION_FAILED);
    CatchLandsAt(s, ABORTED);
    hide EnterFail, NonEmpty, VerifyTargetIdentity, Move;
  }

  // ----- leave -----

  /** Some form of the menu is on the screen. */
  predicate MenuShown(s: Sess) { s.screen.kind == MenuScreen || s.screen.menuPrompt }

  /** One wait for the menu is over, and in vain. */
  predicate WaitedInVain(s: Sess, o: Obs) { !MenuShown(s) && (Gone(s) || (!o.aborted && o.expired)) }

  /** Another exit is safe and still allowed. */
  predicate MayRetry(s: Sess)
    requires s.op.LeaveWait?
  {
    s.screen.shellPrompt && s.op.attempt < LEAVE_RETRIES
  }

  predicate LeaveAnswers(s: Sess, o: Obs, outcome: Outcome)
    requires s.op.LeaveWait?
  {
    (outcome == Succeeded && MenuShown(s)) ||
    (outcome == Failed(ABORTED) && !MenuShown(s) && !Gone(s) && o.aborted) ||
    (outcome == Failed(MENU_RETURN_FAILED) && WaitedInVain(s, o) && !MayRetry(s))
  }

  /**
   * leave succeeds exactly when the menu shows, and another exit is prepared exactly when a wait was in vain while
   * the screen still shows the asset's own prompt; otherwise it fails or waits on.
   */
  lemma LeaveAnswersIff(s: Sess, e: Event, outcome: Outcome)
    requires s.op.LeaveWait?
    ensures var t := Step(s, e);
            (t.op == Returned(outcome) <==> e.Poll? && LeaveAnswers(s, e.o, outcome)) &&
            (t.op.LeaveBackoff? <==> e.Poll? && WaitedInVain(s, e.o) && MayRetry(s)) &&
            (e.Poll? && !t.op.Returned? ==>
               t == s.(op := if t.op.LeaveBackoff? then LeaveBackoff(s.op.attempt + 1) else s.op))
  {
    hide Step, LeavePoll, LeaveAnswers, WaitedInVain, MayRetry;
    if e.Poll? {
      AdvanceIs(s, e.o, e.now, e.notified, e.complete, e.paged);
      LeavePollAnswers(s, e.o, outcome);
    } else {
      OnlyPollsEnd(s, e);
    }
  }

  lemma LeavePollAnswers(s: Sess, o: Obs, outcome: Outcome)
    requires s.op.LeaveWait?
    ensures var t := LeavePoll(s, o);
            (t.op == Returned(outcome) <==> LeaveAnswers(s, o, outcome)) &&
            (t.op.LeaveBackoff? <==> WaitedInVain(s, o) && MayRetry(s)) &&
            (!t.op.Returned? ==> t == s.(op := if t.op.LeaveBackoff? then LeaveBackoff(s.op.attempt + 1) else s.op))
  {
    hide Move, Gone;
  }

  /** What a finished leave leaves behind: the menu without a target, a session given up, or, aborted, no change. */
  lemma LeaveLeavesBehind(s: Sess, e: Event)
    requires Inv(s) && s.op.LeaveWait? && Step(s, e).op.Returned?
    ensures var t := Step(s, e);
            t == s.(life := t.life, op := t.op, currentTarget := if t.op.outcome == Succeeded then None
                                                                 else s.currentTarget) &&
            if Dead(s.life.state) then Dead(t.life.state)
            else t.life.state == (if t.op.outcome == Succeeded then JUMPSERVER_MENU
                                  else if t.op.outcome == Failed(ABORTED) then ASSET_SHELL else UNKNOWN)
  {
    hide Step, LeavePoll;
    assert e.Poll? by { if !e.Poll? { OnlyPollsEnd(s, e); } }
    AdvanceIs(s, e.o, e.now, e.notified, e.complete, e.paged);
    assert s.life.state == ASSET_SHELL || Dead(s.life.state) by { hide Binding, Steady; }
    hide Inv;
    LeavePollLeaves(s, e.o);
  }

  lemma LeavePollLeaves(s: Sess, o: Obs)
    requires s.op.LeaveWait? && (s.life.state == ASSET_SHELL || Dead(s.life.state)) && LeavePoll(s, o).op.Returned?
    ensures var t := LeavePoll(s, o);
            t == s.(life := t.life, op := t.op, currentTarget := if t.op.outcome == Succeeded then None
                                                                 else s.currentTarget) &&
            if Dead(s.life.state) then Dead(t.life.state)
            else t.life.state == (if t.op.outcome == Succeeded then JUMPSERVER_MENU
                                  else if t.op.outcome == Failed(ABORTED) then ASSET_SHELL else UNKNOWN)
  {
    hide SetState, Gone, LeavePoll;
    LeavePollIs(s, o);
    LeaveLands(s, UNKNOWN);
    LeaveLands(s.(currentTarget := None), JUMPSERVER_MENU);
  }

  lemma LeavePollIs(s: Sess, o: Obs)
    requires s.op.LeaveWait?
    ensures var t := LeavePoll(s, o); var menu := SetState(s.(currentTarget := None), JUMPSERVER_MENU);
            if MenuShown(s) then t == menu.(op := Returned(Succeeded))
            else if !Gone(s) && o.aborted then t == s.(op := Returned(Failed(ABORTED)))
            else if !Gone(s) && !o.expired then t == s
            else if s.screen.shellPrompt && s.op.attempt < LEAVE_RETRIES then t.op.LeaveBackoff?
            else t == SetState(s, UNKNOWN).(op := Returned(Failed(MENU_RETURN_FAILED)))
  {
    hide SetState, Gone;
  }

  lemma LeaveLands(s: Sess, next: SessionState)
    requires s.life.state == ASSET_SHELL || Dead(s.life.state)
    requires next == JUMPSERVER_MENU || next == UNKNOWN
    ensures var t := SetState(s, next);
            t == s.(life := t.life) && if Dead(s.life.state) then Dead(t.life.state) else t.life.state == next
  {
  }

  /** The next exit is typed if there is a wire to type it to; nothing else continues a leave that backs off. */
  lemma ExitAgain(s: Sess, e: Event)
    requires s.op.LeaveBackoff?
    ensures var t := Step(s, e);
            if !e.Resend? then t.op == s.op
            else if s.wire then t == s.(writes := s.writes + [ExitLine], op := LeaveWait(s.op.attempt))
            else t == s.(op := Returned(Failed(WIRE_GONE)))
  {
    hide Move, Advance, EnterBegin, ExecBegin, LeaveBegin, ListBegin, WriteJobLine, ConnectDialed;
    if e.Poll? { AdvanceIs(s, e.o, e.now, e.notified, e.complete, e.paged); }
  }

  // ----- asset list -----

  predicate ListAnswers(s: Sess, e: Event, outcome: Outcome)
    requires e.Poll?
  {
    (outcome == Failed(ABORTED) && e.o.aborted) ||
    (outcome == Failed(CONNECTION_LOST) && !e.o.aborted && Gone(s)) ||
    (!e.o.aborted && !Gone(s) &&
     if s.screen.kind == ShellScreen then outcome == Failed(UNKNOWN_STATE)
     else outcome == Succeeded && (e.complete || e.o.expired))
  }

  /** listAssets answers for exactly one reason, and gives the session up for a shell or a pager on the screen. */
  lemma ListAnswersIff(s: Sess, e: Event, outcome: Outcome)
    requires s.op.ListWait?
    ensures var t := Step(s, e);
            (t.op == Returned(outcome) <==> e.Poll? && ListAnswers(s, e, outcome)) &&
            (e.Poll? && !t.op.Returned? ==> t == s)
  {
    hide Step, ListPoll, ListAnswers;
    if e.Poll? {
      AdvanceIs(s, e.o, e.now, e.notified, e.complete, e.paged);
      ListPollAnswers(s, e, outcome);
    } else {
      OnlyPollsEnd(s, e);
    }
  }

  lemma ListPollAnswers(s: Sess, e: Event, outcome: Outcome)
    requires s.op.ListWait? && e.Poll?
    ensures var t := ListPoll(s, e.o, e.complete, e.paged);
            (t.op == Returned(outcome) <==> ListAnswers(s, e, outcome)) && (!t.op.Returned? ==> t == s)
  {
    hide SetState, Gone, ListPoll;
    ListPollIs(s, e.o, e.complete, e.paged);
  }

  lemma ListLeavesBehind(s: Sess, e: Event)
    requires Inv(s) && s.op.ListWait? && Step(s, e).op.Returned?
    ensures var t := Step(s, e);
            e.Poll? && t == s.(life := t.life, op := t.op) &&
            if Dead(s.life.state) then Dead(t.life.state)
            else t.life.state == (if t.op.outcome == Failed(UNKNOWN_STATE) || (t.op.outcome == Succeeded && e.paged)
                                  then UNKNOWN else JUMPSERVER_MENU)
  {
    hide Step, ListPoll;
    assert e.Poll? by { if !e.Poll? { OnlyPollsEnd(s, e); } }
    AdvanceIs(s, e.o, e.now, e.notified, e.complete, e.paged);
    assert s.life.state == JUMPSERVER_MENU || Dead(s.life.state) by { hide Binding, Steady; }
    hide Inv;
    ListPollLeaves(s, e.o, e.complete, e.paged);
  }

  lemma ListPollLeaves(s: Sess, o: Obs, complete: bool, paged: bool)
    requires s.life.state == JUMPSERVER_MENU || Dead(s.life.state)
    requires ListPoll(s, o, complete, paged).op.Returned? && s.op.ListWait?
    ensures var t := ListPoll(s, o, complete, paged);
            t == s.(life := t.life, op := t.op) &&
            if Dead(s.life.state) then Dead(t.life.state)
            else t.life.state == (if t.op.outcome == Failed(UNKNOWN_STATE) || (t.op.outcome == Succeeded && paged)
                                  then UNKNOWN else JUMPSERVER_MENU)
  {
    hide SetState, Gone, ListPoll;
    ListLands(s);
    ListPollIs(s, o, complete, paged);
  }

  lemma ListPollIs(s: Sess, o: Obs, complete: bool, paged: bool)
    ensures var t := ListPoll(s, o, complete, paged);
            if o.aborted then t == s.(op := Returned(Failed(ABORTED)))
            else if Gone(s) then t == s.(op := Returned(Failed(CONNECTION_LOST)))
            else if s.screen.kind == ShellScreen then t == SetState(s, UNKNOWN).(op := Returned(Failed(UNKNOWN_STATE)))
            else if complete || o.expired
            then t == (if paged then SetState(s, UNKNOWN) else s).(op := Returned(Succeeded)) else t == s
  {
    hide SetState, Gone;
  }

  lemma ListLands(s: Sess)
    requires s.life.state == JUMPSERVER_MENU || Dead(s.life.state)
    ensures var t := SetState(s, UNKNOWN); t == s.(life := t.life) && t.life.state == UNKNOWN
  {
  }

  // ----- connect -----

  predicate ConnectAnswers(s: Sess, e: Event, outcome: Outcome) {
    if s.op.Dialing? then outcome == Failed(CONNECT_FAILED) && e == Dialed(false)
    else
      e.Poll? &&
      if s.screen.kind == MenuScreen then outcome == Succeeded
      else if Gone(s) then outcome == Failed(MENU_NOT_DETECTED)
      else (outcome == Failed(ABORTED) && e.o.aborted) ||
           (outcome == Failed(MENU_NOT_DETECTED) && !e.o.aborted && e.o.expired)
  }

  /** connect succeeds exactly when the menu is on the screen, and fails for exactly one reason each. */
  lemma ConnectAnswersIff(s: Sess, e: Event, outcome: Outcome)
    requires s.op.Dialing? || s.op.MenuWait?
    ensures var t := Step(s, e);
            (t.op == Returned(outcome) <==> ConnectAnswers(s, e, outcome)) &&
            (e == Dialed(true) && s.op.Dialing? ==> t == s.(wire := true, wireClosed := false, op := MenuWait))
  {
    hide Step, DropWire, SetState;
    if s.op.MenuWait? {
      if e.Poll? {
        AdvanceIs(s, e.o, e.now, e.notified, e.complete, e.paged);
      } else {
        OnlyPollsEnd(s, e);
      }
    } else {
      DialingWaits(s, e);
    }
  }

  lemma DialingWaits(s: Sess, e: Event)
    requires s.op.Dialing?
    ensures if e.Dialed? then Step(s, e) == ConnectDialed(s, e.dialed) else Step(s, e).op == s.op
  {
    hide Move, Advance, EnterBegin, ExecBegin, LeaveBegin, ListBegin, WriteJobLine, ConnectDialed, LeaveResend;
    if e.Poll? { AdvanceIs(s, e.o, e.now, e.notified, e.complete, e.paged); }
  }

  /**
   * ERROR, unless the menu was missed or the close callback ran at once: both end in UNKNOWN, from which no move to
   * ERROR is legal.
   */
  function FailedAs(s: Sess, e: Event, outcome: Outcome): SessionState {
    if outcome == Failed(MENU_NOT_DETECTED) || (e.Poll? && s.wire && e.notified) then UNKNOWN else ERROR
  }

  /** A failed connect has no wire and is dead; a successful one is at the menu, unless it was given up meanwhile. */
  lemma ConnectLeavesBehind(s: Sess, e: Event)
    requires Inv(s) && (s.op.Dialing? || s.op.MenuWait?) && Step(s, e).op.Returned?
    ensures var t := Step(s, e);
            if t.op.outcome == Succeeded
            then t == s.(life := t.life, op := t.op) &&
                 if s.life.state == CONNECTING then t.life.state == JUMPSERVER_MENU else Dead(t.life.state)
            else !t.wire && t.wireClosed && Dead(t.life.state) &&
                 (s.life.state == CONNECTING ==> t.life.state == FailedAs(s, e, t.op.outcome))
  {
    assert !Live(s.life.state) by { hide Step, Binding, Steady; }
    hide Inv, Step, MenuPoll, ConnectDialed, ConnectFail, DropWire;
    if s.op.MenuWait? {
      assert e.Poll? by { if !e.Poll? { OnlyPollsEnd(s, e); } }
      AdvanceIs(s, e.o, e.now, e.notified, e.complete, e.paged);
      MenuLeaves(s, e.o, e.notified);
    } else {
      DialingWaits(s, e);
      DialLeaves(s, e.dialed);
    }
  }

  lemma MenuLeaves(s: Sess, o: Obs, notified: bool)
    requires s.op.MenuWait? && !Live(s.life.state) && MenuPoll(s, o, notified).op.Returned?
    ensures var t := MenuPoll(s, o, notified);
            if t.op.outcome == Succeeded
            then t == s.(life := t.life, op := t.op) &&
                 if s.life.state == CONNECTING then t.life.state == JUMPSERVER_MENU else Dead(t.life.state)
            else !t.wire && t.wireClosed && Dead(t.life.state) &&
                 (s.life.state == CONNECTING ==>
                    t.life.state == if t.op.outcome == Failed(MENU_NOT_DETECTED) || (s.wire && notified) then UNKNOWN
                                    else ERROR)
  {
    hide ConnectFail;
    if s.screen.kind != MenuScreen {
      FailedConnect(s, notified, ABORTED);
      FailedConnect(SetState(s, UNKNOWN), notified, MENU_NOT_DETECTED);
      hide SetState;
    }
  }

  lemma DialLeaves(s: Sess, dialed: bool)
    requires s.op.Dialing?
    ensures var t := ConnectDialed(s, dialed);
            t.op.Returned? ==> t.op.outcome == Failed(CONNECT_FAILED) && !t.wire && t.wireClosed &&
                               Dead(t.life.state) && (s.life.state == CONNECTING ==> t.life.state == ERROR)
  {
    FailedConnect(s, false, CONNECT_FAILED);
    hide ConnectFail;
  }

  lemma FailedConnect(s: Sess, notified: bool, code: ErrorCode)
    ensures var t := ConnectFail(s, notified, code);
            t.op == Returned(Failed(code)) && !t.wire && t.wireClosed && Dead(t.life.state) &&
            (s.life.state == CONNECTING ==> t.life.state == if s.wire && notified then UNKNOWN else ERROR) &&
            (s.life.state == UNKNOWN ==> t.life.state == UNKNOWN)
  {
  }

  // ----- from outside -----

  /** A closed session has no wire, target, cooldown or pending prompt left, and is DISCONNECTED if that is legal. */
  lemma DisposalGoes(s: Sess, notified: bool)
    ensures var t := Step(s, Disposed(notified));
            t == s.(life := t.life, wire := false, wireClosed := true, currentTarget := None, screen := BLANK_SCREEN,
                    unreachable := map[], pending := None) &&
            t.life.state == if s.life.state == CONNECTING && !(s.wire && notified) then UNKNOWN else DISCONNECTED
  {
  }

  /** What arrives from outside touches what it names and nothing else. */
  lemma OutsideGoes(s: Sess, screen: Screen)
    ensures Step(s, Data(screen)) == s.(screen := screen)
    ensures Step(s, InterruptWrite) == if Gone(s) then s else s.(writes := s.writes + [CtrlC(true)])
    ensures Step(s, ProbeWrite) == if Gone(s) then s else s.(writes := s.writes + [Probe])
    ensures Step(s, Consume) == if s.op.Returned? then s.(op := Idle) else s
  {
    hide Move, Advance, Close;
  }

  /** A wire that closes ends in DISCONNECTED if that is legal. */
  lemma WireLossGoes(s: Sess)
    ensures var t := Step(s, WireClosed);
            if !s.wire && !s.wireClosed then t == s
            else t == s.(wireClosed := true, life := t.life) &&
                 t.life.state == if s.life.state == CONNECTING then UNKNOWN else DISCONNECTED
  {
    hide Advance, Close;
  }

  /** A verification ends in ASSET_SHELL if it succeeds inside an asset, and in UNKNOWN otherwise. */
  lemma VerificationGoes(s: Sess, verified: bool)
    ensures var t := Step(s, Verification(verified));
            t == s.(life := t.life, overlapped := s.overlapped || (verified && s.life.state == ENTERING_ASSET)) &&
            t.life.state == if Inside(s.life.state) && verified then ASSET_SHELL else UNKNOWN
  {
    hide Advance, Close;
  }

  // ----- the other beginnings -----

  /**
   * exec types its script exactly in a shell over an open wire whose write does not throw, leave its exit exactly
   * in a shell, the listing its key exactly at the menu over an open wire; otherwise each says why not.
   */
  lemma BeginningsIff(s: Sess, threw: bool)
    requires s.op.Idle?
    ensures var t := Step(s, BeginExec(threw)); var shell := s.life.state == ASSET_SHELL;
            (t.op == ExecWait <==> t.writes == s.writes + [Script(s.currentTarget, s.currentIps)]) &&
            (t.op == ExecWait <==> shell && !Gone(s) && !threw) &&
            (t.op == Returned(Failed(NOT_IN_ASSET)) <==> !shell) &&
            (t.op == Returned(SignalLost) <==> shell && Gone(s)) &&
            (t.op == Returned(Failed(WRITE_FAILED)) <==> shell && !Gone(s) && threw) &&
            (t.op == ExecWait ==> t.life.state == COMMAND_RUNNING) &&
            t == s.(life := t.life, writes := t.writes, op := t.op) && (t.writes != s.writes ==> t.op == ExecWait)
    ensures Step(s, BeginLeave) == if s.life.state != ASSET_SHELL then s.(op := Returned(Failed(NOT_IN_ASSET)))
                                   else s.(writes := s.writes + [ExitLine], op := LeaveWait(0))
    ensures Step(s, BeginList) == if s.life.state != JUMPSERVER_MENU then s.(op := Returned(Failed(NOT_AT_MENU)))
                                  else if Gone(s) then s.(op := Returned(Failed(CONNECTION_LOST)))
                                  else s.(writes := s.writes + [ListKey], op := ListWait)
    ensures Step(s, JobWrite) == if Gone(s) then s else s.(writes := s.writes + [JobLine])
  {
    hide Advance, Close, EnterBegin;
    assert s.life.state == ASSET_SHELL ==> Move(s.life, COMMAND_RUNNING).state == COMMAND_RUNNING;
    hide Move;
  }
}
