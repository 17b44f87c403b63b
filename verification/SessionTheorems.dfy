/** The promises of session.ts, over every run of a session that is connected once. */
module SessionTheorems {
  import opened Basics
  import opened StateMachine
  import opened TargetVerify
  import opened Detector
  import opened Session
  import opened SessionProofs

  // ----- every reachable session -----

  lemma {:induction false} RunKeeps(s: Sess, events: seq<Event>)
    requires Inv(s)
    ensures Inv(Run(s, events))
    decreases |events|
  {
    if events != [] {
      RunKeeps(s, events[..|events| - 1]);
      StepKeeps(Run(s, events[..|events| - 1]), events[|events| - 1]);
    }
  }

  lemma {:induction false} RunAppend(s: Sess, before: seq<Event>, after: seq<Event>)
    ensures Run(s, before + after) == Run(Run(s, before), after)
    decreases |after|
  {
    if after == [] {
      assert before + after == before;
    } else {
      var all := before + after;
      assert all[..|all| - 1] == before + after[..|after| - 1];
      RunAppend(s, before, after[..|after| - 1]);
    }
  }

  /**
   * A session is live during one contiguous interval, and only over an open wire: whatever arrives
   * late (a finished command, a verification, a leave, a dial completing after a close), a session
   * that was seen dead is never seen live again.
   */
  lemma LiveOnce(before: seq<Event>, after: seq<Event>)
    ensures var s := Run(CONNECTED, before); var t := Run(CONNECTED, before + after);
            (Live(t.life.state) ==> t.wire && !t.wireClosed) &&
            !t.life.revived &&
            (Dead(s.life.state) ==> Dead(t.life.state))
  {
    assert Inv(CONNECTED);
    RunKeeps(CONNECTED, before);
    RunAppend(CONNECTED, before, after);
    DeadRuns(Run(CONNECTED, before), after);
  }

  lemma {:induction false} DeadRuns(s: Sess, events: seq<Event>)
    requires Inv(s)
    ensures Keeps(s, Run(s, events))
    decreases |events|
  {
    if events != [] {
      var t := Run(s, events[..|events| - 1]);
      DeadRuns(s, events[..|events| - 1]);
      StepKeeps(t, events[|events| - 1]);
    }
  }

  /**
   * Between operations no session is in COMMAND_RUNNING, so the batch loop is never left because an
   * error found the command still running.
   */
  lemma NeverRunningAtRest(events: seq<Event>)
    ensures var s := Run(CONNECTED, events); AtRest(s.op) ==> s.life.state != COMMAND_RUNNING
  {
    RunKeeps(CONNECTED, events);
    hide Run;
  }

  // ----- never on the wrong machine -----

  /** A wire that is gone stays gone, and nothing dials again. */
  predicate Wired(s: Sess, t: Sess) { (Gone(s) && !s.op.Dialing? ==> Gone(t)) && (t.op.Dialing? ==> s.op.Dialing?) }

  /** Nothing handed to the wire, or one write that is neither a command script nor a job line. */
  predicate Quiet(s: Sess, t: Sess) {
    t.overlapped == s.overlapped && Wired(s, t) &&
    (t.writes == s.writes ||
     (t.writes != [] && t.writes == s.writes + [t.writes[|t.writes| - 1]] &&
      !t.writes[|t.writes| - 1].Script? && !t.writes[|t.writes| - 1].JobLine?))
  }

  predicate Silent(s: Sess, t: Sess) { t.overlapped == s.overlapped && Wired(s, t) && t.writes == s.writes }

  lemma EndsAreSilent(s: Sess, code: ErrorCode, notified: bool)
    ensures IsEnter(s.op) ==> Silent(s, EnterFail(s, code))
    ensures Silent(s, ConnectFail(s, notified, code))
    ensures Silent(s, Close(s, notified))
    ensures Silent(s, LeaveEnd(s))
  {
    hide Move;
    if IsEnter(s.op) { EnterFailIsSilent(s, code); }
    hide EnterFail;
  }

  lemma EnterFailIsSilent(s: Sess, code: ErrorCode)
    ensures Silent(s, EnterFail(s, code))
  {
    hide Move;
  }

  lemma EnterIsQuiet(s: Sess, o: Obs, now: int)
    ensures s.op.EnterWait? ==> Quiet(s, EnterPoll(s, o, now))
    ensures s.op.EnterProbe? ==> Quiet(s, EnterProbePoll(s, o))
  {
    hide EnterPoll, EnterProbePoll, Quiet;
    if s.op.EnterWait? { EnterPollIsQuiet(s, o, now); }
    if s.op.EnterProbe? { EnterProbeIsQuiet(s, o); }
  }

  lemma EnterPollIsQuiet(s: Sess, o: Obs, now: int)
    requires s.op.EnterWait?
    ensures Quiet(s, EnterPoll(s, o, now))
  {
    hide Move, EnterFail, Offers, FailureCode, LateCode;
    forall t: Sess, code | IsEnter(t.op) ensures Silent(t, EnterFail(t, code)) { EnterFailIsSilent(t, code); }
  }

  lemma EnterProbeIsQuiet(s: Sess, o: Obs)
    requires s.op.EnterProbe?
    ensures Quiet(s, EnterProbePoll(s, o))
  {
    hide Move, EnterFail, NonEmpty, VerifyTargetIdentity;
    forall t: Sess, code | IsEnter(t.op) ensures Silent(t, EnterFail(t, code)) { EnterFailIsSilent(t, code); }
  }

  lemma ExecEndsAreSilent(s: Sess, aborting: bool)
    ensures Silent(s, ExecRecovered(s, aborting, false)) && Silent(s, ExecRecovered(s, aborting, true)) &&
            Silent(s, ExecCaught(s))
  {
    hide Move;
  }

  lemma ExecIsQuiet(s: Sess, o: Obs)
    ensures Quiet(s, ExecPoll(s, o))
    ensures s.op.ExecPrompt? ==> Quiet(s, ExecPromptPoll(s, o))
    ensures s.op.ExecProbe? ==> Quiet(s, ExecProbePoll(s, o))
  {
    hide Move, ExecRecovered, ExecCaught, ExecInterrupt, ExecPromptPoll, ExecProbePoll, Quiet;
    ExecPollIsQuiet(s, o);
    if s.op.ExecPrompt? { ExecPromptIsQuiet(s, o); }
    if s.op.ExecProbe? { ExecProbeIsQuiet(s, o); }
  }

  lemma ExecPollIsQuiet(s: Sess, o: Obs)
    ensures Quiet(s, ExecPoll(s, o))
  {
    hide Move, ExecRecovered;
    ExecEndsAreSilent(s, true);
    ExecEndsAreSilent(s, false);
  }

  lemma ExecPromptIsQuiet(s: Sess, o: Obs)
    requires s.op.ExecPrompt?
    ensures Quiet(s, ExecPromptPoll(s, o))
  {
    hide Move, ExecRecovered, ExecCaught;
    ExecEndsAreSilent(s, s.op.aborting);
  }

  lemma ExecProbeIsQuiet(s: Sess, o: Obs)
    requires s.op.ExecProbe?
    ensures Quiet(s, ExecProbePoll(s, o))
  {
    hide Move, ExecRecovered;
    ExecEndsAreSilent(s, s.op.aborting);
  }

  lemma OtherWaitsAreSilent(s: Sess, o: Obs, notified: bool, complete: bool, paged: bool)
    ensures Silent(s, MenuPoll(s, o, notified))
    ensures s.op.LeaveWait? ==> Silent(s, LeavePoll(s, o))
    ensures Silent(s, ListPoll(s, o, complete, paged))
  {
    hide Move, ConnectFail, LeaveEnd;
    EndsAreSilent(s, ABORTED, notified);
    EndsAreSilent(SetState(s, UNKNOWN), MENU_NOT_DETECTED, notified);
  }

  lemma AdvanceIsQuiet(s: Sess, o: Obs, now: int, notified: bool, complete: bool, paged: bool)
    ensures Quiet(s, Advance(s, o, now, notified, complete, paged))
  {
    hide MenuPoll, EnterPoll, EnterProbePoll, ExecPoll, ExecPromptPoll, ExecProbePoll, LeavePoll, ListPoll;
    EnterIsQuiet(s, o, now);
    ExecIsQuiet(s, o);
    OtherWaitsAreSilent(s, o, notified, complete, paged);
  }

  lemma NewEntryIsQuiet(s: Sess, wanted: string, account: Option<int>)
    ensures Silent(s, EnterExpired(s)) && Quiet(s, NewEntry(s, wanted, account))
  {
    hide Move;
  }

  lemma EnterBeginIsQuiet(s: Sess, wanted: string, account: Option<int>, at: int)
    ensures Quiet(s, EnterBegin(s, wanted, account, at))
  {
    NewEntryIsQuiet(s, wanted, account);
    hide ValidTarget, InCooldown, CanResume, EnterExpired, NewEntry, Parked;
  }

  lemma OtherBeginsAreQuiet(s: Sess)
    ensures Quiet(s, LeaveBegin(s)) && Quiet(s, ListBegin(s))
    ensures s.op.LeaveBackoff? ==> Quiet(s, LeaveResend(s))
  {
    hide Move;
  }

  /** A command script is written only when an exec begins in a shell. */
  predicate WritesScript(s: Sess, e: Event, t: Sess) {
    e.BeginExec? && s.life.state == ASSET_SHELL && !Gone(s) && t.overlapped == s.overlapped && Wired(s, t) &&
    t.writes == s.writes + [Script(s.currentTarget, s.currentIps)]
  }

  /** A job line is written only for a job, over an open wire. */
  predicate WritesJobLine(s: Sess, e: Event, t: Sess) { e.JobWrite? && !Gone(s) && t == Put(s, JobLine) }

  /** One step hands the wire at most one write. */
  lemma StepWrites(s: Sess, e: Event)
    ensures var t := Step(s, e);
            Quiet(s, t) || WritesScript(s, e, t) || WritesJobLine(s, e, t) ||
            (e.Verification? && t.writes == s.writes && Wired(s, t) && (s.overlapped ==> t.overlapped))
  {
    hide Move, Advance, Close, EnterBegin, ExecBegin, LeaveBegin, ListBegin, LeaveResend, ConnectFail;
    match e
    case Poll(o, now, notified, complete, paged) => AdvanceIsQuiet(s, o, now, notified, complete, paged);
    case Disposed(notified) => EndsAreSilent(s, ABORTED, notified);
    case Dialed(_) => EndsAreSilent(s, CONNECT_FAILED, false);
    case BeginEnter(wanted, account, at) => EnterBeginIsQuiet(s, wanted, account, at);
    case BeginExec(threw) => ExecBeginWrites(s, threw);
    case _ => OtherBeginsAreQuiet(s);
  }

  lemma ExecBeginWrites(s: Sess, threw: bool)
    ensures var t := ExecBegin(s, threw); Quiet(s, t) || WritesScript(s, BeginExec(threw), t)
  {
    hide Move;
  }

  /**
   * In every interleaving without an interrupt verification landing inside an entry, every command
   * script the session ever wrote was written for its current target, and the addresses recorded by
   * the entry that bound it were empty or contained that target when it is an IPv4 literal.
   */
  lemma {:induction false} ScriptsOnTheRightMachine(events: seq<Event>)
    ensures var s := Run(CONNECTED, events); !s.overlapped ==> ScriptsAllowed(s.writes)
    decreases |events|
  {
    if events != [] {
      var before := events[..|events| - 1];
      var s := Run(CONNECTED, before);
      ScriptsOnTheRightMachine(before);
      RunKeeps(CONNECTED, before);
      var e := events[|events| - 1];
      StepWrites(s, e);
      hide Step, AddressesAllow;
    }
  }

  /**
   * The exact condition: from a reachable session no verification overlapped so far, applying an
   * interrupt verification leaves a shell that may be trusted unless it says "shell" while an entry is
   * in progress.
   */
  lemma VerificationTrustedIffNotEntering(events: seq<Event>, verified: bool)
    requires !Run(CONNECTED, events).overlapped
    ensures var s := Run(CONNECTED, events);
            Trusted(ApplyVerification(s, verified)) <==> !(verified && s.life.state == ENTERING_ASSET)
  {
    var s := Run(CONNECTED, events);
    RunKeeps(CONNECTED, events);
    hide AddressesAllow, ValidTarget;
  }

  /** A run that does it, built in stages: the session reaches the menu, */
  lemma ReachMenu() returns (events: seq<Event>)
    ensures AtFreshMenu(Run(CONNECTED, events))
  {
    var t := MenuSeen();
    hide Run, MenuPoll, Close, ConnectFail, EnterBegin, EnterPoll, EnterProbePoll, ExecPoll, LeavePoll, ListPoll;
    events := Extend(t, Consume);
  }

  lemma MenuSeen() returns (events: seq<Event>)
    ensures var s := Run(CONNECTED, events);
            s.life.state == JUMPSERVER_MENU && s.op == Returned(Succeeded) && !Gone(s) && s.unreachable == map[]
  {
    assert Run(CONNECTED, []) == CONNECTED;
    hide Run, Close, ConnectFail, EnterBegin, EnterPoll, EnterProbePoll, ExecPoll, ExecPromptPoll, ExecProbePoll,
         LeavePoll, ListPoll;
    var t := Extend([], Dialed(true));
    t := Extend(t, Data(BLANK_SCREEN.(kind := MenuScreen)));
    events := Extend(t, Poll(QUIESCENT, 0, true, false, false));
  }

  /** enters one asset and proves its identity, */
  lemma VisitAsset(before: seq<Event>, target: string) returns (events: seq<Event>)
    requires AtFreshMenu(Run(CONNECTED, before))
    requires ValidTarget(target) && IsIpv4Literal(target)
    ensures var s := Run(CONNECTED, events);
            s.life.state == ASSET_SHELL && s.op.Idle? && !Gone(s) && s.unreachable == map[] && s.currentIps == [target]
  {
    hide Run;
    hide ValidTarget, IsIpv4Literal, NonEmpty, VerifyTargetIdentity, Close, MenuPoll, ExecPoll, LeavePoll, ListPoll,
         EnterFail;
    OneAddress(target);
    var t := ShellSeen(before, target);
    t := Extend(t, Poll(QUIESCENT.(matched := true, probe := Some(ProbeInfo(None, [target], false))), 0, true, false,
                        false));
    events := Extend(t, Consume);
  }

  lemma OneAddress(target: string)
    requires ValidTarget(target)
    ensures NonEmpty([target]) == [target]
    ensures VerifyTargetIdentity(target, None, [target], false) != Mismatch
  {
    FilterAll([target], (ip: string) => |ip| > 0);
    MismatchIffAddressesForbid(target, None, [target], false);
  }

  predicate AtFreshMenu(s: Sess) { s.life.state == JUMPSERVER_MENU && s.op.Idle? && !Gone(s) && s.unreachable == map[] }

  /** An entry from the menu, and what then appears on the screen. */
  lemma EntryShows(before: seq<Event>, target: string, account: Option<int>, screen: Screen)
      returns (events: seq<Event>)
    requires AtFreshMenu(Run(CONNECTED, before)) && ValidTarget(target) && (account.Some? ==> account.value >= 0)
    ensures var s0 := Run(CONNECTED, before); var s := Run(CONNECTED, events);
            s.life.state == ENTERING_ASSET && s.op == EnterWait(target, account, account.None?) && s.screen == screen &&
            !Gone(s) && s.unreachable == map[] && s.currentTarget == Some(target) &&
            s.pending == s0.pending && s.currentIps == s0.currentIps
  {
    hide Run;
    hide ValidTarget, Close, MenuPoll, EnterPoll, ExecPoll, LeavePoll, ListPoll, EnterFail, EnterProbePoll;
    var t := Extend(before, BeginEnter(target, account, 0));
    events := Extend(t, Data(screen));
  }

  lemma ShellSeen(before: seq<Event>, target: string) returns (events: seq<Event>)
    requires AtFreshMenu(Run(CONNECTED, before))
    requires ValidTarget(target)
    ensures var s := Run(CONNECTED, events);
            s.life.state == ENTERING_ASSET && s.op == EnterProbe(target) && !Gone(s) && s.unreachable == map[]
  {
    hide Run;
    hide ValidTarget, Close, MenuPoll, ExecPoll, LeavePoll, ListPoll, EnterFail, EnterProbePoll;
    var t := EntryShows(before, target, None, BLANK_SCREEN.(kind := ShellScreen));
    events := Extend(t, Poll(QUIESCENT, 0, true, false, false));
  }

  lemma LeaveConfirmed(before: seq<Event>) returns (events: seq<Event>)
    requires var s := Run(CONNECTED, before); s.life.state == ASSET_SHELL && s.op.Idle?
    ensures var s := Run(CONNECTED, events); s.op == LeaveWait(0) && s.screen == BLANK_SCREEN.(menuPrompt := true)
    ensures var s := Run(CONNECTED, before); var t := Run(CONNECTED, events);
            t == s.(op := t.op, screen := t.screen, writes := t.writes)
  {
    hide Run;
    var t := Extend(before, BeginLeave);
    events := Extend(t, Data(BLANK_SCREEN.(menuPrompt := true)));
  }

  /** leaves it, */
  lemma LeaveAsset(before: seq<Event>) returns (events: seq<Event>)
    requires var s := Run(CONNECTED, before);
             s.life.state == ASSET_SHELL && s.op.Idle? && !Gone(s) &&
             s.unreachable == map[]
    ensures var s := Run(CONNECTED, events);
            AtFreshMenu(s) &&
            s.currentIps == Run(CONNECTED, before).currentIps && s.pending == Run(CONNECTED, before).pending
  {
    hide Run;
    hide Close, MenuPoll, ExecPoll, EnterPoll, ListPoll, EnterProbePoll, EnterBegin;
    var t := LeaveConfirmed(before);
    t := Extend(t, Poll(QUIESCENT, 0, true, false, false));
    events := Extend(t, Consume);
  }

  /**
   * and is then interrupted while it enters another one. The caller gives up on that entry, and the
   * next exec is written for the second asset while the recorded addresses are those of the first.
   */
  lemma OverlapReachesTheWrongMachine(first: string, second: string) returns (events: seq<Event>)
    requires ValidTarget(first) && IsIpv4Literal(first) && ValidTarget(second) && IsIpv4Literal(second) &&
             first != second
    ensures var s := Run(CONNECTED, events); s.overlapped && !ScriptsAllowed(s.writes)
  {
    hide Run;
    hide ValidTarget, IsIpv4Literal, Close, MenuPoll, ExecPoll, LeavePoll, ListPoll, EnterProbePoll;
    var t := ReachMenu();
    t := VisitAsset(t, first);
    t := LeaveAsset(t);
    t := InterruptedEntry(t, second);
    events := Extend(t, BeginExec(false));
    var s := Run(CONNECTED, events);
    assert s.writes[|s.writes| - 1] == Script(Some(second), [first]);
  }

  /**
   * An interrupt from outside during an entry: Ctrl+C, a shell prompt, the probe and its answer; then the
   * screen goes on.
   */
  lemma ProvenMeanwhile(before: seq<Event>, screen: Screen) returns (events: seq<Event>)
    requires var s := Run(CONNECTED, before); s.life.state == ENTERING_ASSET && !Gone(s)
    ensures var s0 := Run(CONNECTED, before); var s := Run(CONNECTED, events);
            s.life.state == ASSET_SHELL && s.overlapped && s.screen == screen &&
            s == s0.(life := s.life, overlapped := s.overlapped, screen := s.screen, writes := s.writes) &&
            s.writes == s0.writes + [CtrlC(true)] + [Probe]
  {
    hide Run;
    var t := Extend(before, InterruptWrite);
    t := Extend(t, Data(BLANK_SCREEN.(kind := ShellScreen)));
    t := Extend(t, ProbeWrite);
    t := Extend(t, Verification(true));
    events := Extend(t, Data(screen));
  }

  lemma OverlappedEntry(before: seq<Event>, target: string) returns (events: seq<Event>)
    requires AtFreshMenu(Run(CONNECTED, before))
    requires ValidTarget(target)
    ensures var s := Run(CONNECTED, events);
            s.life.state == ASSET_SHELL && s.op == EnterWait(target, None, true) && s.screen == BLANK_SCREEN &&
              !Gone(s) &&
            s.overlapped && s.currentTarget == Some(target) && s.currentIps == Run(CONNECTED, before).currentIps
  {
    hide Run;
    hide ValidTarget;
    var t := EntryShows(before, target, None, BLANK_SCREEN);
    hide Step;
    events := ProvenMeanwhile(t, BLANK_SCREEN);
  }

  lemma InterruptedEntry(before: seq<Event>, target: string) returns (events: seq<Event>)
    requires AtFreshMenu(Run(CONNECTED, before))
    requires ValidTarget(target)
    ensures var s := Run(CONNECTED, events);
            s.life.state == ASSET_SHELL && s.op.Idle? && !Gone(s) && s.overlapped &&
            s.currentTarget == Some(target) && s.currentIps == Run(CONNECTED, before).currentIps
  {
    hide Run;
    hide ValidTarget, Close, MenuPoll, ExecPoll, LeavePoll, ListPoll, EnterProbePoll;
    var t := OverlappedEntry(before, target);
    t := Extend(t, Poll(QUIESCENT.(aborted := true), 0, true, false, false));
    events := Extend(t, Consume);
  }

  const QUIESCENT := Obs(false, false, false, None, None, false)

  /** One more event at the end of a run. */
  lemma Extend(events: seq<Event>, e: Event) returns (longer: seq<Event>)
    ensures Run(CONNECTED, longer) == Step(Run(CONNECTED, events), e)
  {
    longer := events + [e];
    assert longer[..|events|] == events;
  }
}
