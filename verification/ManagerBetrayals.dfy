/** Runs in which the PTY and the flag that guards it part, and one that types a job line into a dead shell. */
module ManagerBetrayals {
  import opened Basics
  import opened StateMachine
  import opened TargetVerify
  import opened Detector
  import opened Session
  import opened SessionTheorems
  import opened Manager
  import opened ManagerProofs
  import opened ManagerPty

  const YES: Reply := Reply(true, true, false, 0, false)

  function Polled(o: Obs): Session.Event { Poll(o, 0, false, false, false) }

  /** One more event at the end of a run. */
  lemma More(events: seq<Manager.Event>, e: Manager.Event) returns (longer: seq<Manager.Event>)
    ensures Manager.Run(INIT, longer) == Manager.Step(Manager.Run(INIT, events), e)
  {
    longer := events + [e];
    assert longer[..|events|] == events;
  }

  /** One more event of one session. */
  lemma MoreOf(events: seq<Manager.Event>, sid: nat, e: Session.Event) returns (longer: seq<Manager.Event>)
    requires Valid(Manager.Run(INIT, events), sid) && Autonomous(e)
    ensures var w := Manager.Run(INIT, events);
            Manager.Run(INIT, longer) == Update(w, sid, Session.Step(w.sessions[sid], e))
  {
    hide Session.Step;
    longer := More(events, OnSession(sid, e));
  }

  /** Nothing is going on: no session, no turn, no claim. */
  predicate AtRestWithout(w: World) { w.turn.None? && w.cur.None? && NoActiveJob(w) && !w.disposed && w.oob == [] }

  lemma StartsAtRest()
    ensures Manager.Run(INIT, []) == INIT && AtRestWithout(INIT)
  {
  }

  /** Past its password a turn dials a fresh session. */
  predicate DialingNow(w0: World, w: World, kind: Kind, next: After) {
    var sid := |w0.sessions|;
    w == w0.(sessions := w0.sessions + [CONNECTED], cur := Some(sid),
             turn := Some(NewTurn(kind, 0).(stage := Opening(next), sid := sid)))
  }

  lemma ReachDial(before: seq<Manager.Event>, kind: Kind, next: After) returns (events: seq<Manager.Event>)
    requires AtRestWithout(Manager.Run(INIT, before))
    requires (kind.Connect? && next.ToFinish?) || (kind.StartJob? && next.ToNavigate?)
    ensures DialingNow(Manager.Run(INIT, before), Manager.Run(INIT, events), kind, next)
  {
    hide Manager.Run;
    hide AfterConnect, Session.Step;
    var t := More(before, BeginTurn(kind, true, false, 0, false));
    events := More(t, ResumeTurn(YES));
  }

  lemma MenuNeverShows(late: Session.Event)
    requires late == Polled(QUIESCENT.(expired := true))
    ensures Session.Step(Session.Step(CONNECTED, Dialed(true)), late).op == Returned(Failed(MENU_NOT_DETECTED))
  {
    hide Move;
  }

  /** A connect whose menu never shows: its session is dropped, and its wire will report the loss later. */
  lemma ReplacedSession() returns (events: seq<Manager.Event>)
    ensures var w := Manager.Run(INIT, events); AtRestWithout(w) && |w.sessions| == 1
  {
    var late := Polled(QUIESCENT.(expired := true));
    assert Manager.Run(INIT, []) == INIT;
    hide Manager.Run;
    var t := ReachDial([], Connect, ToFinish);
    MenuNeverShows(late);
    hide AfterConnect, Session.Step, Begin, BeginInterrupt, BeginStop, Dispose, OnSessionLost, Verdict, Conclude;
    t := MoreOf(t, 0, Dialed(true));
    t := MoreOf(t, 0, late);
    events := More(t, ResumeTurn(YES));
  }

  /** The startJob turn is entering its target. */
  predicate EnteringNow(w0: World, w: World, job: string, target: string) {
    var sid := |w0.sessions|;
    |w.sessions| == sid + 1 && w == w0.(sessions := w.sessions, cur := Some(sid), turn := w.turn) &&
    w.turn == Some(NewTurn(StartJob(job, target, None), 0).(stage := Entering, sid := sid, origin := sid,
                                                            dials := 1)) &&
    var s := w.sessions[sid];
    s.life.state == ENTERING_ASSET && s.op == EnterWait(target, None, true) && !Gone(s) && !s.overlapped &&
    s.currentTarget == Some(target) && s.writes == [TargetLine(target)]
  }

  predicate MenuNow(s: Sess) {
    s.life.state == JUMPSERVER_MENU && s.op == Returned(Succeeded) && !Gone(s) && !s.overlapped &&
      s.unreachable == map[] &&
    s.pending.None? && s.writes == []
  }

  lemma ReachEntering(before: seq<Manager.Event>, job: string, target: string) returns (events: seq<Manager.Event>)
    requires AtRestWithout(Manager.Run(INIT, before)) && ValidTarget(target)
    ensures EnteringNow(Manager.Run(INIT, before), Manager.Run(INIT, events), job, target)
  {
    hide Manager.Run;
    hide ValidTarget;
    var sid := |Manager.Run(INIT, before).sessions|;
    var t := ReachMenuThere(before, job, target);
    EntersNow(Manager.Run(INIT, t).sessions[sid], target);
    hide EnterBegin, Session.Step;
    events := More(t, ResumeTurn(YES));
  }

  lemma EntersNow(s: Sess, target: string)
    requires MenuNow(s) && ValidTarget(target)
    ensures var t := EnterBegin(s.(op := Idle), target, None, 0);
            t.life.state == ENTERING_ASSET && t.op == EnterWait(target, None, true) && !Gone(t) && !t.overlapped &&
            t.currentTarget == Some(target) && t.writes == [TargetLine(target)]
  {
    hide ValidTarget;
  }

  lemma ReachMenuThere(before: seq<Manager.Event>, job: string, target: string) returns (events: seq<Manager.Event>)
    requires AtRestWithout(Manager.Run(INIT, before))
    ensures var w0 := Manager.Run(INIT, before); var w := Manager.Run(INIT, events); var sid := |w0.sessions|;
            |w.sessions| == sid + 1 && w == w0.(sessions := w.sessions, cur := Some(sid), turn := w.turn) &&
            w.turn == Some(NewTurn(StartJob(job, target, None), 0).(stage := Opening(ToNavigate), sid := sid)) &&
            MenuNow(w.sessions[sid])
  {
    hide Manager.Run;
    var sid := |Manager.Run(INIT, before).sessions|;
    var t := ReachDial(before, StartJob(job, target, None), ToNavigate);
    t := MoreOf(t, sid, Dialed(true));
    t := MoreOf(t, sid, Data(BLANK_SCREEN.(kind := MenuScreen)));
    events := MoreOf(t, sid, Polled(QUIESCENT));
  }

  /** The startJob turn has entered its target and waits for its gate. */
  predicate AtGate(w0: World, w: World, job: string, target: string) {
    var sid := |w0.sessions|;
    |w.sessions| == sid + 1 && w == w0.(sessions := w.sessions, cur := Some(sid), turn := w.turn) &&
    w.turn == Some(NewTurn(StartJob(job, target, None), 0).(stage := Gate, sid := sid, origin := sid, dials := 1)) &&
    InShell(w.sessions[sid], target)
  }

  predicate InShell(s: Sess, target: string) {
    s.life.state == ASSET_SHELL && s.op.Idle? && !Gone(s) && !s.overlapped && s.currentTarget == Some(target)
  }

  lemma ReachGate(before: seq<Manager.Event>, job: string, target: string) returns (events: seq<Manager.Event>)
    requires AtRestWithout(Manager.Run(INIT, before)) && ValidTarget(target)
    ensures AtGate(Manager.Run(INIT, before), Manager.Run(INIT, events), job, target)
  {
    hide Manager.Run;
    hide ValidTarget;
    var sid := |Manager.Run(INIT, before).sessions|;
    var t := ReachEntering(before, job, target);
    var s := Manager.Run(INIT, t).sessions[sid];
    ProvesNow(s, target);
    hide Session.Step;
    t := MoreOf(t, sid, Data(BLANK_SCREEN.(kind := ShellScreen)));
    t := MoreOf(t, sid, Polled(QUIESCENT));
    t := MoreOf(t, sid, Polled(QUIESCENT.(matched := true, probe := Some(ProbeInfo(None, [], false)))));
    events := More(t, ResumeTurn(YES));
  }

  lemma ProvesNow(s: Sess, target: string)
    requires s.life.state == ENTERING_ASSET && s.op == EnterWait(target, None, true) && !Gone(s) && !s.overlapped
    requires s.currentTarget == Some(target)
    ensures var s1 := Session.Step(s, Data(BLANK_SCREEN.(kind := ShellScreen)));
            var s2 := Session.Step(s1, Polled(QUIESCENT));
            var s3 := Session.Step(s2, Polled(QUIESCENT.(matched := true, probe := Some(ProbeInfo(None, [], false)))));
            s3.op == Returned(Succeeded) && InShell(s3.(op := Idle), target)
  {
    assert NonEmpty([]) == [];
    assert VerifyTargetIdentity(target, None, [], false) != Mismatch by { hide IsIpv4Literal, Trim; }
    hide VerifyTargetIdentity, NonEmpty, EnterFail;
  }

  // ----- the two betrayals -----

  /** The gate opens: the job's line is typed, and the job claims the PTY. */
  lemma JobRuns(before: seq<Manager.Event>, sid: nat, job: string) returns (events: seq<Manager.Event>)
    requires var w := Manager.Run(INIT, before);
             w.turn.Some? && w.turn.value.stage.Gate? && w.turn.value.sid == sid && Valid(w, sid) &&
               !Gone(w.sessions[sid]) &&
             w.turn.value.kind.StartJob? && w.turn.value.kind.job == job
    ensures var w := Manager.Run(INIT, before); var w1 := Manager.Run(INIT, events);
            w1 == Finish(Update(w, sid, Put(w.sessions[sid], JobLine)))
                    .(activeJob := Some(job), typed := w.typed + [JobLineOf(w, w.turn.value)])
  {
    hide Manager.Run;
    hide Session.Step;
    events := More(before, ResumeTurn(YES));
  }

  /** Nobody owns the PTY, says the flag, and so exec types its script into the running job. */
  lemma ExecIntrudes(before: seq<Manager.Event>, sid: nat) returns (events: seq<Manager.Event>)
    requires var w := Manager.Run(INIT, before);
             w.turn.None? && w.cur == Some(sid) && Valid(w, sid) && NoActiveJob(w) && Taken(w.sessions[sid]) &&
             w.sessions[sid].life.state == ASSET_SHELL
    ensures !Typing(Manager.Run(INIT, events))
  {
    hide Manager.Run;
    var s := Manager.Run(INIT, before).sessions[sid];
    hide Session.Step, Streaming, Exclusive;
    IntrudedAppend(s.writes, Script(s.currentTarget, s.currentIps));
    events := More(before, BeginTurn(Exec, true, false, 0, false));
    var w1 := Manager.Run(INIT, events);
    assert w1.sessions[sid].writes == s.writes + [Script(s.currentTarget, s.currentIps)];
  }

  /**
   * A connect fails and its session is replaced; a job is started; then the first session's wire reports
   * its loss. The claim of the running job is dropped, and the next exec is typed into it.
   */
  lemma StaleReportBetrays(target: string) returns (events: seq<Manager.Event>)
    requires ValidTarget(target)
    ensures !Typing(Manager.Run(INIT, events))
  {
    hide Manager.Run;
    hide ValidTarget, Taken;
    var t := ReplacedSession();
    t := ReachGate(t, "job", target);
    t := JobRuns(t, 1, "job");
    JobTakes(Manager.Run(INIT, t).sessions[1]);
    hide Session.Step, Streaming, Exclusive, Finish;
    t := More(t, SessionLost(0));
    events := ExecIntrudes(t, 1);
  }

  lemma JobTakes(s: Sess)
    requires !Gone(s) && s.writes != [] && s.writes[|s.writes| - 1] == JobLine
    ensures Taken(s)
  {
  }

  /**
   * An interrupt is sent while startJob waits for its gate; the job's line follows it; then the interrupt
   * concludes, verified, and drops the claim of a job that was never interrupted.
   */
  lemma EarlyInterruptBetrays(target: string) returns (events: seq<Manager.Event>)
    requires ValidTarget(target)
    ensures !Typing(Manager.Run(INIT, events))
  {
    hide Manager.Run;
    hide ValidTarget, Taken, Session.Step, Streaming, Exclusive;
    StartsAtRest();
    var t := ReachGate([], "job", target);
    t := More(t, Interrupt(false));
    t := JobRuns(t, 0, "job");
    JobTakes(Manager.Run(INIT, t).sessions[0]);
    t := SettledInterrupt(t);
    events := ExecIntrudes(t, 0);
  }

  lemma SettledInterrupt(before: seq<Manager.Event>) returns (events: seq<Manager.Event>)
    requires var w := Manager.Run(INIT, before);
             |w.oob| == 1 && w.oob[0].progress.Verifying? && w.oob[0].job.None? && w.oob[0].sid == 0 && Valid(w, 0) &&
             w.sessions[0].life.state == ASSET_SHELL && w.stoppingJob.None?
    ensures var w := Manager.Run(INIT, before); var w1 := Manager.Run(INIT, events);
            w1.turn == w.turn && w1.cur == w.cur && NoActiveJob(w1) && w1.sessions == w.sessions
  {
    hide Manager.Run;
    var w := Manager.Run(INIT, before);
    assert ApplyVerification(w.sessions[0], true) == w.sessions[0] by { hide Manager.Run; }
    hide ApplyVerification, Session.Step, Begin, Resume, BeginInterrupt, BeginStop, Dispose, OnSessionLost;
    var t := More(before, Resolved(0, true));
    events := More(t, Concluded(0));
  }

  /**
   * The third way: the wire does not take the Ctrl+C of an interrupt. It was not sent, and the claim of the job
   * it did not reach is dropped all the same.
   */
  lemma UnsentInterruptBetrays(target: string) returns (events: seq<Manager.Event>)
    requires ValidTarget(target)
    ensures !Typing(Manager.Run(INIT, events))
  {
    hide Manager.Run;
    hide ValidTarget, Taken, Session.Step, Streaming, Exclusive;
    StartsAtRest();
    var t := ReachGate([], "job", target);
    t := JobRuns(t, 0, "job");
    JobTakes(Manager.Run(INIT, t).sessions[0]);
    t := More(t, Interrupt(true));
    t := More(t, Concluded(0));
    events := ExecIntrudes(t, 0);
  }

  /** The interrupt fails instead: the session is UNKNOWN over an open wire, and startJob still types its line. */
  lemma JobLineIntoUnknown(target: string) returns (events: seq<Manager.Event>)
    requires ValidTarget(target)
    ensures var w := Manager.Run(INIT, events);
            |w.typed| == 1 && w.typed[0].JobCommand? && w.typed[0].state == UNKNOWN && w.activeJob == Some("job") &&
            !w.typed[0].overlapped
  {
    hide Manager.Run;
    hide ValidTarget, Session.Step;
    StartsAtRest();
    var t := ReachGate([], "job", target);
    t := More(t, Interrupt(false));
    t := More(t, Resolved(0, false));
    events := JobRuns(t, 0, "job");
  }
}
