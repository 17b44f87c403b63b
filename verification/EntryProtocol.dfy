/** The asset entry protocol of enter(): what one call types and how it can fail. */
module EntryProtocol {
  import opened Basics
  import opened StateMachine
  import opened TargetVerify
  import opened Detector
  import opened Session
  import opened SessionProofs
  import opened SessionTheorems

  // ----- the entry protocol -----

  predicate IsEnterLine(w: Write) { w.TargetLine? || w.AccountId? }

  /** What one enter call may have typed: its target line unless it resumes a prompt, then at most one account ID. */
  predicate EntryLines(lines: seq<Write>, resumed: bool, target: string, account: Option<int>) {
    var first := if resumed then [] else [TargetLine(target)];
    lines == [] || lines == first ||
    (lines == first + [lines[|lines| - 1]] && IsAnswer(lines[|lines| - 1], account))
  }

  /** An account ID the caller asked for, offered by a detected list. */
  predicate IsAnswer(w: Write, account: Option<int>) {
    w.AccountId? && account == Some(w.index) && Offers(w.list, w.index)
  }

  /** Where the call stands, given the lines it has typed. */
  predicate EntryStage(op: Op, lines: seq<Write>, resumed: bool, target: string, account: Option<int>) {
    match op
    case EnterWait(t, a, chosen) =>
      t == target && a == account && EntryLines(lines, resumed, target, account) &&
      (!(chosen && account.Some?) ==> lines == if resumed then [] else [TargetLine(target)]) &&
      (account.None? ==> chosen)
    case EnterProbe(_) => EntryLines(lines, resumed, target, account)
    case Returned(_) => EntryLines(lines, resumed, target, account)
    case _ => false
  }

  function EnterLines(ws: seq<Write>): seq<Write> { Filter(ws, IsEnterLine) }

  /** The wire as this call sees it: everything written since it began. */
  function Since(s0: Sess, s: Sess): seq<Write>
    requires |s0.writes| <= |s.writes|
  {
    s.writes[|s0.writes|..]
  }

  /** One more write by anyone: an entry line shows up, everything else is filtered out. */
  lemma LinesAppend(s0: Sess, s: Sess, t: Sess, w: Write)
    requires |s0.writes| <= |s.writes| && t.writes == s.writes + [w]
    ensures EnterLines(Since(s0, t)) == EnterLines(Since(s0, s)) + if IsEnterLine(w) then [w] else []
  {
    assert Since(s0, t) == Since(s0, s) + [w];
    FilterAppend(Since(s0, s), [w], IsEnterLine);
    assert Filter([w], IsEnterLine) == if IsEnterLine(w) then [w] else [];
  }

  /** What the first segment does: refuse without a byte, resume without a byte, or type the target line. */
  lemma EnterBeginSegment(s: Sess, target: string, account: Option<int>, now: int)
    ensures var t := EnterBegin(s, target, account, now);
            (t.writes == s.writes && t.op.Returned? && t.op.outcome.Failed?) ||
            (CanResume(s, target, account) && account.Some? && t.writes == s.writes &&
             t.op == EnterWait(target, account, false)) ||
            (!CanResume(s, target, account) && t.writes == s.writes + [TargetLine(target)] &&
             t.op == EnterWait(target, account, account.None?))
  {
    AdmissionFacts(s, target, account, now);
    ExpiredSegment(s);
    NewEntrySegment(s, target, account);
    hide Admit, NewEntry, EnterExpired, CanResume;
  }

  lemma AdmissionFacts(s: Sess, target: string, account: Option<int>, now: int)
    ensures Admit(s, target, account, now).Resumed? ==> CanResume(s, target, account) && account.Some?
    ensures Admit(s, target, account, now).Admitted? ==>
              !CanResume(s, target, account) && s.life.state == JUMPSERVER_MENU && ValidTarget(target)
    ensures Admit(s, target, account, now).Lapsed? ==> Parked(s, target)
  {
    hide ValidTarget, InCooldown, Gone;
  }

  lemma ExpiredSegment(s: Sess)
    ensures EnterExpired(s).writes == s.writes && EnterExpired(s).op == Returned(Failed(ACCOUNT_SELECTION_EXPIRED))
  {
  }

  lemma NewEntrySegment(s: Sess, target: string, account: Option<int>)
    ensures var t := NewEntry(s, target, account);
            t.writes == s.writes + [TargetLine(target)] && t.op == EnterWait(target, account, account.None?)
  {
    hide Move;
  }

  lemma EnterBeginStage(s: Sess, target: string, account: Option<int>, now: int)
    ensures var t := EnterBegin(s, target, account, now);
            |s.writes| <= |t.writes| &&
              EntryStage(t.op, EnterLines(Since(s, t)), CanResume(s, target, account), target, account)
  {
    EnterBeginSegment(s, target, account, now);
    hide EnterBegin, CanResume;
    var t := EnterBegin(s, target, account, now);
    assert Since(s, s) == [] && EnterLines([]) == [];
    if t.writes == s.writes {
      assert Since(s, t) == [];
    } else {
      LinesAppend(s, s, t, TargetLine(target));
    }
  }

  /** What one segment of an entry types, and where it goes. */
  lemma EnterSegment(s: Sess, o: Obs, now: int)
    requires s.op.EnterWait?
    ensures var t := EnterPoll(s, o, now); var EnterWait(target, account, chosen) := s.op;
            (t.writes == s.writes && (t.op == s.op || t.op.Returned?)) ||
            (t.writes == s.writes + [Probe] && t.op == EnterProbe(target)) ||
            (!chosen && t.op == EnterWait(target, account, true) && account.Some? &&
             t.writes == s.writes + [AccountId(account.value, s.screen.accounts)] &&
               Offers(s.screen.accounts, account.value))
  {
    hide Move, Offers, FailureCode, LateCode, EnterFail;
    forall t: Sess, code
      ensures EnterFail(t, code).writes == t.writes && EnterFail(t, code).op == Returned(Failed(code))
    {
      EnterFailEnds(t, code);
    }
  }

  lemma EnterFailEnds(s: Sess, code: ErrorCode)
    ensures EnterFail(s, code).writes == s.writes && EnterFail(s, code).op == Returned(Failed(code))
  {
    hide Move;
  }

  lemma ProbeSegment(s: Sess, o: Obs)
    requires s.op.EnterProbe?
    ensures var t := EnterProbePoll(s, o); t.writes == s.writes && (t.op == s.op || t.op.Returned?)
  {
    hide Move, NonEmpty, VerifyTargetIdentity, EnterFail;
    forall t: Sess, code
      ensures EnterFail(t, code).writes == t.writes && EnterFail(t, code).op == Returned(Failed(code))
    {
      EnterFailEnds(t, code);
    }
  }

  /** Whatever happens outside the operation in flight, it neither ends nor types an entry line. */
  lemma OutsideSegment(s: Sess, e: Event)
    requires (IsEnter(s.op) || s.op.Returned?) && !e.Poll? && !e.Consume?
    ensures var t := Step(s, e);
            t.op == s.op && (t.writes == s.writes || t.writes == s.writes + [CtrlC(true)] ||
                             t.writes == s.writes + [Probe])
  {
    hide Move, Advance, EnterBegin, ExecBegin, LeaveBegin, ListBegin, WriteJobLine, ConnectDialed, LeaveResend;
  }

  lemma EntrySegmentStep(s0: Sess, s: Sess, t: Sess, resumed: bool, target: string, account: Option<int>)
    requires |s0.writes| <= |s.writes|
    requires EntryStage(s.op, EnterLines(Since(s0, s)), resumed, target, account)
    requires t.writes == s.writes || t.writes == s.writes + [CtrlC(true)] || t.writes == s.writes + [Probe]
    requires t.op == s.op || t.op.Returned? || (t.op.EnterProbe? && s.op.EnterWait?)
    ensures |s0.writes| <= |t.writes| && EntryStage(t.op, EnterLines(Since(s0, t)), resumed, target, account)
  {
    hide EnterLines, EntryLines;
    if t.writes != s.writes {
      LinesAppend(s0, s, t, t.writes[|t.writes| - 1]);
      assert EnterLines(Since(s0, s)) + [] == EnterLines(Since(s0, s));
    } else {
      assert Since(s0, t) == Since(s0, s);
    }
  }

  lemma EntryAnswerStep(s0: Sess, s: Sess, t: Sess, w: Write, resumed: bool, target: string, account: Option<int>)
    requires |s0.writes| <= |s.writes| && s.op == EnterWait(target, account, false)
    requires EntryStage(s.op, EnterLines(Since(s0, s)), resumed, target, account)
    requires t.writes == s.writes + [w] && IsAnswer(w, account) && t.op == EnterWait(target, account, true)
    ensures |s0.writes| <= |t.writes| && EntryStage(t.op, EnterLines(Since(s0, t)), resumed, target, account)
  {
    hide EnterLines, Offers;
    LinesAppend(s0, s, t, w);
  }

  lemma EntryStep(s0: Sess, s: Sess, e: Event, resumed: bool, target: string, account: Option<int>)
    requires |s0.writes| <= |s.writes| && !e.Consume?
    requires EntryStage(s.op, EnterLines(Since(s0, s)), resumed, target, account)
    ensures var t := Step(s, e);
            |s0.writes| <= |t.writes| && EntryStage(t.op, EnterLines(Since(s0, t)), resumed, target, account)
  {
    hide EnterLines, EntryLines, EnterPoll, EnterProbePoll, Offers;
    var t := Step(s, e);
    if !e.Poll? {
      OutsideSegment(s, e);
      EntrySegmentStep(s0, s, t, resumed, target, account);
    } else if s.op.EnterWait? {
      EnterSegment(s, e.o, e.now);
      if t.op.EnterWait? && t.op != s.op {
        EntryAnswerStep(s0, s, t, AccountId(account.value, s.screen.accounts), resumed, target, account);
      } else {
        EntrySegmentStep(s0, s, t, resumed, target, account);
      }
    } else {
      if s.op.EnterProbe? { ProbeSegment(s, e.o); }
      EntrySegmentStep(s0, s, t, resumed, target, account);
    }
  }

  /**
   * From its first segment until its caller takes the result, and whatever interleaves, one enter call
   * types its target line (unless it resumes a pending prompt) and then at most one account ID: the
   * caller's own index, offered by a list that was detected at that moment.
   */
  lemma {:induction false} OneEntryPerCall(s0: Sess, target: string, account: Option<int>, at: int, events: seq<Event>)
    requires s0.op.Idle? && forall e <- events :: !e.Consume?
    ensures var s := Run(Step(s0, BeginEnter(target, account, at)), events);
            |s0.writes| <= |s.writes| &&
            EntryStage(s.op, EnterLines(Since(s0, s)), CanResume(s0, target, account), target, account)
    decreases |events|
  {
    if events == [] {
      EnterBeginStage(s0, target, account, at);
    } else {
      var before := events[..|events| - 1];
      OneEntryPerCall(s0, target, account, at, before);
      EntryStep(s0, Run(Step(s0, BeginEnter(target, account, at)), before), events[|events| - 1],
                CanResume(s0, target, account), target, account);
    }
  }

  /** The account an answer names is the only one of the displayed list with that number. */
  lemma AnswerIsUnique(w: Write, account: Option<int>)
    requires IsAnswer(w, account)
    ensures w.list.detected && |w.list.options| >= 2 && Contiguous(w.list.options) &&
            Occurrences(w.list.options, w.index) == 1
  {
    OfferedIsUnique(w.list, w.index);
  }

  // ----- how an entry fails -----

  /** The only states a failed entry leaves behind. */
  predicate EntryFailureState(s: Sess) {
    (s.life.state == ENTERING_ASSET && s.screen.accounts.detected && !Gone(s) &&
     s.pending.Some? && s.pending == s.currentTarget) ||
    (s.life.state == JUMPSERVER_MENU && s.currentTarget.None? && s.screen.menuPrompt) ||
    (s.life.state == DISCONNECTED && Gone(s)) ||
    s.life.state == UNKNOWN
  }

  // When the failing segment begins, the outcome is already decided by what it finds.

  /** A list is displayed that this call will not answer: it leaves its own target pending. */
  predicate Refuses(s: Sess) {
    s.op.EnterWait? && s.screen.kind != ShellScreen && s.screen.accounts.detected &&
    (s.op.account.None? || (!s.op.chosen && !Offers(s.screen.accounts, s.op.account.value)))
  }

  /** The prompt pending once the call failed on a displayed list. */
  function PendingThen(s: Sess): Option<string>
    requires IsEnter(s.op)
  {
    if Refuses(s) then Some(s.op.target) else if s.pending.None? then s.currentTarget else s.pending
  }

  /** The failing segment itself gives the session up: a lost shell, a lost wire, a failed or wrong probe. */
  predicate GivesUp(s: Sess, o: Obs) {
    (s.op.EnterWait? && s.screen.kind == ShellScreen) || (s.op.EnterProbe? && (o.matched || s.wireClosed || !o.aborted))
  }

  /**
   * Where a failing segment will land well: it gives the session up, or the session is dead, or still entering
   * with nothing on screen that belongs to another target.
   */
  predicate LandsWell(s: Sess, o: Obs)
    requires IsEnter(s.op)
  {
    GivesUp(s, o) || Dead(s.life.state) ||
    (s.life.state == ENTERING_ASSET &&
     (s.screen.accounts.detected && !Gone(s) ==> s.currentTarget.Some? && PendingThen(s) == s.currentTarget))
  }

  /** The catch block of enter, in a session that may be overlapped. */
  lemma EnterFailLandsIff(s: Sess, code: ErrorCode)
    requires Inv(s) && IsEnter(s.op)
    ensures EntryFailureState(EnterFail(s, code)) <==>
            Dead(s.life.state) ||
            (s.life.state == ENTERING_ASSET &&
             (s.screen.accounts.detected && !Gone(s) ==>
                s.currentTarget.Some? && (if s.pending.None? then s.currentTarget else s.pending) == s.currentTarget))
  {
    hide AddressesAllow, ValidTarget, Binding, Move;
    Moved(s.life, DISCONNECTED);
    Moved(s.life, JUMPSERVER_MENU);
    Moved(s.life, UNKNOWN);
  }

  /** Which segment a poll runs while an entry is in flight. */
  lemma EntryPollIs(s: Sess, o: Obs, now: int, notified: bool, complete: bool, paged: bool)
    requires IsEnter(s.op)
    ensures Step(s, Poll(o, now, notified, complete, paged)) ==
            if s.op.EnterWait? then EnterPoll(s, o, now) else EnterProbePoll(s, o)
  {
    hide EnterPoll, EnterProbePoll;
  }

  lemma GivenUpLands(s: Sess, next: SessionState, code: ErrorCode)
    requires Inv(s) && IsEnter(s.op) && (next == UNKNOWN || (next == DISCONNECTED && Gone(s)))
    ensures EntryFailureState(EnterFail(SetState(s, next), code))
  {
    SetStateKeeps(s, next);
    GivenUpIsDead(s, next);
    hide Inv, SetState, EntryFailureState;
    EnterFailLandsIff(SetState(s, next), code);
  }

  lemma GivenUpIsDead(s: Sess, next: SessionState)
    requires next == UNKNOWN || next == DISCONNECTED
    ensures Dead(SetState(s, next).life.state)
  {
  }

  /**
   * Exactly how a failed entry leaves the session, in every interleaving: parked on a list that is still
   * displayed and answerable for its own target, at the menu with no target, disconnected with the wire
   * gone, or unknown, if and only if the session the failing segment finds promises it. It does not when
   * an interrupt verification has called it a shell meanwhile, or when the displayed list is pending for
   * another target.
   */
  lemma FailedEntryLandsIff(events: seq<Event>, o: Obs, now: int, notified: bool, complete: bool, paged: bool)
    requires IsEnter(Run(CONNECTED, events).op)
    ensures var s := Run(CONNECTED, events); var t := Step(s, Poll(o, now, notified, complete, paged));
            t.op.Returned? && t.op.outcome.Failed? ==> (EntryFailureState(t) <==> LandsWell(s, o))
  {
    var s := Run(CONNECTED, events);
    RunKeeps(CONNECTED, events);
    hide Run, Step, EnterPoll, EnterProbePoll, EntryFailureState, LandsWell, Inv;
    EntryPollIs(s, o, now, notified, complete, paged);
    if s.op.EnterWait? { FailedPollLandsIff(s, o, now); } else { FailedProbeLandsIff(s, o); }
  }

  /** Leaving the call's own target pending, or starting a cooldown, keeps the invariant. */
  lemma RemembersSoundly(s: Sess, now: int)
    requires Inv(s) && s.op.EnterWait?
    ensures Inv(s.(pending := Some(s.op.target)))
    ensures Inv(s.(unreachable := s.unreachable[s.op.target := now + UNREACHABLE_COOLDOWN_MS]))
  {
    hide AddressesAllow, ValidTarget;
  }

  lemma FailedPollLandsIff(s: Sess, o: Obs, now: int)
    requires Inv(s) && s.op.EnterWait?
    ensures var t := EnterPoll(s, o, now); t.op.Returned? ==> (EntryFailureState(t) <==> LandsWell(s, o))
  {
    RemembersSoundly(s, now);
    hide Inv, EnterFail, Offers, Move, EntryFailureState;
    var EnterWait(target, account, chosen) := s.op;
    if s.screen.kind == ShellScreen {
      if Gone(s) { GivenUpLands(s, DISCONNECTED, CONNECTION_LOST); }
    } else if Refuses(s) {
      EnterFailLandsIff(s.(pending := Some(target)), ACCOUNT_SELECTION_REQUIRED);
    } else {
      var cooled := if s.screen.banner == Unreachable
                    then s.(unreachable := s.unreachable[target := now + UNREACHABLE_COOLDOWN_MS]) else s;
      EnterFailLandsIff(s, WIRE_GONE);
      EnterFailLandsIff(cooled, FailureCode(s.screen.banner, ASSET_ENTER_TIMEOUT));
      EnterFailLandsIff(s, LateCode(s.screen.lateBanner, CONNECTION_LOST));
      EnterFailLandsIff(s, LateCode(s.screen.lateBanner, ASSET_ENTER_TIMEOUT));
      EnterFailLandsIff(s, ABORTED);
    }
  }

  lemma FailedProbeLandsIff(s: Sess, o: Obs)
    requires Inv(s) && s.op.EnterProbe?
    ensures var t := EnterProbePoll(s, o);
            t.op.Returned? && t.op.outcome.Failed? ==> (EntryFailureState(t) <==> LandsWell(s, o))
  {
    hide Inv, EnterFail, NonEmpty, VerifyTargetIdentity, Move, EntryFailureState;
    GivenUpLands(s, UNKNOWN, ASSET_VERIFY_FAILED);
    GivenUpLands(s, UNKNOWN, TARGET_VERIFICATION_FAILED);
    EnterFailLandsIff(s, ABORTED);
    if s.wireClosed { GivenUpLands(s, DISCONNECTED, CONNECTION_LOST); }
  }

  /** As long as no interrupt verification overlapped an entry, every failed entry lands well. */
  lemma FailedEntryLands(events: seq<Event>, o: Obs, now: int, notified: bool, complete: bool, paged: bool)
    requires var s := Run(CONNECTED, events); !s.overlapped && IsEnter(s.op)
    ensures var s := Run(CONNECTED, events); var t := Step(s, Poll(o, now, notified, complete, paged));
            LandsWell(s, o) && (t.op.Returned? && t.op.outcome.Failed? ==> EntryFailureState(t))
  {
    RunKeeps(CONNECTED, events);
    FailedEntryLandsIff(events, o, now, notified, complete, paged);
    hide Run, Step, AddressesAllow, ValidTarget;
  }

  /** An interrupt verification during the entry, and the caller gives up: the failed entry leaves a shell behind. */
  lemma FailedEntryLeavesShell(target: string) returns (events: seq<Event>, last: Event)
    requires ValidTarget(target)
    ensures var s := Run(CONNECTED, events); var t := Step(s, last);
            s.op == EnterWait(target, None, true) && t.op == Returned(Failed(ABORTED)) &&
            t.life.state == ASSET_SHELL && !EntryFailureState(t)
  {
    hide Run;
    hide ValidTarget, Close, MenuPoll, ExecPoll, LeavePoll, ListPoll, EnterProbePoll;
    events := ReachMenu();
    events := OverlappedEntry(events, target);
    last := Poll(QUIESCENT.(aborted := true), 0, true, false, false);
  }

  const TWO_ACCOUNTS: AccountSelection := Selection(true, [AccountOption(0, "root"), AccountOption(1, "admin")])

  lemma Park(before: seq<Event>, target: string) returns (events: seq<Event>)
    requires AtFreshMenu(Run(CONNECTED, before))
    requires ValidTarget(target)
    ensures var s := Run(CONNECTED, events);
            s.life.state == ENTERING_ASSET && s.op == Returned(Failed(ACCOUNT_SELECTION_REQUIRED)) && !Gone(s) &&
            s.unreachable == map[] && s.pending == Some(target)
  {
    hide Run;
    hide ValidTarget, Close, MenuPoll, ExecPoll, LeavePoll, ListPoll, EnterProbePoll, Offers;
    var t := EntryShows(before, target, None, BLANK_SCREEN.(accounts := TWO_ACCOUNTS));
    events := Extend(t, Poll(QUIESCENT, 0, true, false, false));
  }

  lemma ParkThenLeave(before: seq<Event>, target: string) returns (events: seq<Event>)
    requires AtFreshMenu(Run(CONNECTED, before))
    requires ValidTarget(target)
    ensures var s := Run(CONNECTED, events);
            AtFreshMenu(s) && s.pending == Some(target)
  {
    hide Run;
    hide ValidTarget, Close, MenuPoll, ExecPoll, LeavePoll, ListPoll, EnterPoll, EnterProbePoll, EnterBegin, ListBegin;
    var t := Park(before, target);
    t := Extend(t, Consume);
    t := ProvenMeanwhile(t, BLANK_SCREEN);
    events := LeaveAsset(t);
  }

  lemma AnsweredEntry(before: seq<Event>, target: string) returns (events: seq<Event>)
    requires AtFreshMenu(Run(CONNECTED, before))
    requires ValidTarget(target) && Run(CONNECTED, before).pending != Some(target)
    ensures var s := Run(CONNECTED, events);
            s.life.state == ENTERING_ASSET && s.op == EnterWait(target, Some(0), true) && !Gone(s) &&
            s.screen == BLANK_SCREEN.(accounts := TWO_ACCOUNTS) &&
            s.currentTarget == Some(target) && s.pending == Run(CONNECTED, before).pending
  {
    hide Run;
    hide ValidTarget, Close, MenuPoll, ExecPoll, LeavePoll, ListPoll, EnterProbePoll;
    var t := EntryShows(before, target, Some(0), BLANK_SCREEN.(accounts := TWO_ACCOUNTS));
    assert TWO_ACCOUNTS.options[0].index == 0;
    events := Extend(t, Poll(QUIESCENT, 0, true, false, false));
  }

  /**
   * The other way: a list left pending for one target outlives that entry, and an entry of a second
   * target that fails while its own list is on screen stays parked under the first target's name.
   */
  lemma FailedEntryParksAnother(first: string, second: string) returns (events: seq<Event>, last: Event)
    requires ValidTarget(first) && ValidTarget(second) && first != second
    ensures var s := Run(CONNECTED, events); var t := Step(s, last);
            IsEnter(s.op) && s.op.target == second && t.op == Returned(Failed(ABORTED)) &&
            t.life.state == ENTERING_ASSET && t.pending == Some(first) && t.currentTarget == Some(second) &&
              !EntryFailureState(t)
  {
    hide Run;
    hide ValidTarget, Close, MenuPoll, ExecPoll, LeavePoll, ListPoll, EnterProbePoll, Offers;
    events := ReachMenu();
    events := ParkThenLeave(events, first);
    events := AnsweredEntry(events, second);
    last := Poll(QUIESCENT.(aborted := true), 0, true, false, false);
  }
}
