/** Wrong-machine safety and PTY exclusivity over every run of the manager. */
module ManagerProofs {
  import opened Basics
  import opened StateMachine
  import opened TargetVerify
  import opened Detector
  import opened Session
  import opened SessionProofs
  import opened SessionTheorems
  import opened EntryProtocol
  import opened Manager

  // ----- what must hold of everything typed -----

  /**
   * A script or job line is typed while activeJob is null (what that says about the PTY itself is in
   * ManagerPty). A script of run or of a batch for a target goes to a session that is running a command on
   * that very target, with recorded addresses that allow it. A job line goes to its target's shell, unless
   * a verification that failed meanwhile has made the session UNKNOWN: startJob does not look again.
   */
  predicate SafelyTyped(e: Typed) {
    e.claimed.None? &&
    (e.CommandScript? && e.want.Some? ==>
       e.state == COMMAND_RUNNING && e.onTarget == e.want &&
       (!e.overlapped ==> AddressesAllow(e.want.value, e.addresses))) &&
    (e.JobCommand? && !e.overlapped ==> (InItsShell(e) <==> e.state != UNKNOWN))
  }

  predicate InItsShell(e: Typed)
    requires e.JobCommand?
  {
    e.state == ASSET_SHELL && e.onTarget == Some(e.target) && AddressesAllow(e.target, e.addresses)
  }

  // ----- the invariant -----

  ghost predicate Base(w: World) {
    (w.cur.Some? ==> Valid(w, w.cur.value)) &&
    (forall c <- w.oob :: Valid(w, c.sid)) &&
    (forall k :: 0 <= k < |w.sessions| ==> Inv(w.sessions[k])) &&
    (forall e <- w.typed :: SafelyTyped(e)) && Claimed(w.activeJob, w.typed)
  }

  /** The job that owns the PTY has typed its line there. */
  ghost predicate Claimed(owner: Option<string>, typed: seq<Typed>) {
    owner.Some? ==> exists e <- typed :: e.JobCommand? && e.job == owner.value
  }

  ghost predicate AllIdle(w: World) { forall k :: 0 <= k < |w.sessions| ==> w.sessions[k].op.Idle? }

  /** The turn works on known sessions (it is past its first connect). */
  predicate Located(stage: Stage) {
    !(stage.Password? && stage.next != ToHealed) && !(stage.Opening? && stage.next != ToHealed)
  }

  /** The turn has asserted that no job owns the PTY. */
  predicate Checked(t: Turn) {
    t.kind.StartJob? || t.kind.Exec? || ((t.kind.RunCommand? || t.kind.Batch?) && Located(t.stage))
  }

  predicate TypesFor(kind: Kind) { kind.RunCommand? || kind.Batch? }

  /** Still on the target, or no longer usable at all. */
  predicate Held(s: Sess, target: string) { s.currentTarget == Some(target) || Dead(s.life.state) }

  /** In the target's shell, or no longer usable at all. */
  predicate Landed(s: Sess, target: string) {
    s.overlapped || Dead(s.life.state) || (s.life.state == ASSET_SHELL && s.currentTarget == Some(target))
  }

  /** On the way there: an entry of that very target, which lands when it succeeds. */
  predicate Heading(s: Sess, target: string) {
    s.overlapped ||
    ((IsEnter(s.op) || s.op.Returned?) && (IsEnter(s.op) ==> s.op.target == target) &&
     (s.op.Returned? && !s.op.outcome.Failed? ==> Landed(s, target)))
  }

  predicate StageFits(t: Turn) {
    (t.stage.Top? || t.stage.Probing? ==> t.kind.Batch?) &&
    (t.stage.Sleeping? ==> Retries(t.kind)) &&
    (t.stage.Gate? ==> Retries(t.kind)) &&
    (t.stage.Running? ==> TypesFor(t.kind) || t.kind.Exec?) &&
    (t.kind.Exec? ==> t.stage.Running?)
  }

  ghost predicate TurnInv(w: World, t: Turn) {
    (forall k :: 0 <= k < |w.sessions| ==> w.sessions[k].op.Idle? || (Awaits(t.stage) && k == t.sid)) &&
    (t.stage.Probing? && Valid(w, t.sid) ==> IsExec(w.sessions[t.sid].op) || w.sessions[t.sid].op.Returned?) &&
    (t.kind.StartJob? && t.stage.Entering? && Valid(w, t.sid) ==> Heading(w.sessions[t.sid], t.kind.target)) &&
    TurnFacts(w, t)
  }

  /** The part of a turn's invariant that does not speak of the operation in flight. */
  ghost predicate TurnFacts(w: World, t: Turn) {
    (Located(t.stage) ==> Valid(w, t.sid) && Valid(w, t.origin)) && (t.stage.Opening? ==> Valid(w, t.sid)) &&
    (Checked(t) ==> w.activeJob.None?) && StageFits(t) &&
    (TypesFor(t.kind) && (t.stage.Gate? || t.stage.Probing?) ==> Held(w.sessions[t.sid], TargetOf(t.kind))) &&
    (t.kind.StartJob? && t.stage.Gate? ==> Landed(w.sessions[t.sid], t.kind.target))
  }

  ghost predicate WorldInv(w: World) {
    Base(w) && if w.turn.None? then AllIdle(w) else TurnInv(w, w.turn.value)
  }

  // ----- what the sessions promise -----

  lemma DeadStays(s: Sess, s1: Sess)
    requires Inv(s) && Keeps(s, s1)
    ensures Dead(s.life.state) ==> Dead(s1.life.state)
  {
  }

  /** Whatever a session does by itself outside enter and leave, its target stays or it dies. */
  lemma HeldThrough(s: Sess, e: Session.Event, target: string)
    requires Inv(s) && Held(s, target) && (AtRest(s.op) || IsExec(s.op))
    requires Autonomous(e) || e.WireClosed? || e.ProbeWrite? || e.Verification?
    ensures Held(Session.Step(s, e), target)
  {
    StepKeeps(s, e);
    DeadStays(s, Session.Step(s, e));
    hide Inv, Keeps;
    if e.Poll? && IsExec(s.op) {
      ExecHolds(s, e);
    } else {
      hide Move, ConnectFail, Advance;
      if AtRest(s.op) && (e.Poll? || e.Dialed? || e.Resend?) { OthersIgnorePolls(s, e); }
    }
  }

  lemma ExecHolds(s: Sess, e: Session.Event)
    requires IsExec(s.op) && e.Poll?
    ensures Session.Step(s, e).currentTarget == s.currentTarget
  {
    hide Move, ExecRecovered, ExecCaught;
    ExecEndsHold(s, true);
    ExecEndsHold(s, false);
  }

  lemma ExecEndsHold(s: Sess, aborting: bool)
    ensures ExecRecovered(s, aborting, true).currentTarget == s.currentTarget
    ensures ExecRecovered(s, aborting, false).currentTarget == s.currentTarget
    ensures ExecCaught(s).currentTarget == s.currentTarget
  {
    hide Move;
  }

  /** A session in its target's shell stays there or dies; an entry keeps heading for its target. */
  lemma LandedThrough(s: Sess, e: Session.Event, target: string)
    requires Inv(s) && (Autonomous(e) || e.WireClosed? || e.ProbeWrite? || e.Verification?)
    ensures Landed(s, target) && AtRest(s.op) ==> Landed(Session.Step(s, e), target)
    ensures Heading(s, target) ==> Heading(Session.Step(s, e), target)
  {
    hide Inv, Keeps;
    StepKeeps(s, e);
    DeadStays(s, Session.Step(s, e));
    if IsEnter(s.op) && e.Poll? {
      hide Session.Step, EnterPoll, EnterProbePoll;
      EntryLands(s, e.o, e.now);
      EntryPollIs(s, e.o, e.now, e.notified, e.complete, e.paged);
    } else if e.Poll? || e.Dialed? || e.Resend? {
      hide Session.Step;
      StepWrites(s, e);
      if AtRest(s.op) || IsEnter(s.op) { OthersIgnorePolls(s, e); }
    } else {
      hide Session.Step;
      OutsideLands(s, e, target);
    }
  }

  lemma OutsideLands(s: Sess, e: Session.Event, target: string)
    requires e.Data? || e.WireClosed? || e.ProbeWrite? || e.Verification?
    requires Dead(s.life.state) ==> Dead(Session.Step(s, e).life.state)
    ensures Landed(s, target) ==> Landed(Session.Step(s, e), target)
    ensures Heading(s, target) ==> Heading(Session.Step(s, e), target)
  {
    GivenUpMoves(s.life);
    assert s.life.state == ASSET_SHELL ==> Move(s.life, ASSET_SHELL) == s.life;
    hide Move;
  }

  lemma GivenUpMoves(l: Life)
    ensures Dead(Move(l, DISCONNECTED).state) && Dead(Move(l, UNKNOWN).state)
  {
  }

  lemma OthersIgnorePolls(s: Sess, e: Session.Event)
    requires (AtRest(s.op) && e.Poll?) || ((AtRest(s.op) || IsEnter(s.op)) && (e.Dialed? || e.Resend?))
    ensures Session.Step(s, e) == s
  {
  }

  lemma EntryLands(s: Sess, o: Obs, now: int)
    requires Inv(s) && IsEnter(s.op)
    ensures Heading(if s.op.EnterWait? then EnterPoll(s, o, now) else EnterProbePoll(s, o), s.op.target)
  {
    hide AddressesAllow, ValidTarget, Offers, NonEmpty, VerifyTargetIdentity, FailureCode, LateCode, EnterFail;
    forall t: Sess, code ensures EnterFail(t, code).op == Returned(Failed(code)) { EnterFailReturns(t, code); }
  }

  lemma EnterFailReturns(s: Sess, code: ErrorCode)
    ensures EnterFail(s, code).op == Returned(Failed(code))
  {
    hide Move;
  }

  /** An operation in flight stays in flight or returns; an idle session stays idle. */
  lemma OpThrough(s: Sess, e: Session.Event)
    requires Autonomous(e) || e.WireClosed? || e.ProbeWrite? || e.Verification?
    ensures var s1 := Session.Step(s, e);
            (s.op.Idle? ==> s1.op.Idle?) && (s.op.Returned? ==> s1.op == s.op) &&
            (IsExec(s.op) ==> IsExec(s1.op) || s1.op.Returned?)
  {
    hide Move, ConnectFail, EnterPoll, EnterProbePoll, LeavePoll, ListPoll, MenuPoll;
  }

  // ----- sessions moving under the turn -----

  /** Replacing one session by a sound successor keeps the world sound. */
  lemma SessionMoves(w: World, sid: nat, s1: Sess)
    requires WorldInv(w) && Valid(w, sid) && Inv(s1)
    requires var s := w.sessions[sid];
             (s.op.Idle? ==> s1.op.Idle?) && (s.op.Returned? ==> s1.op == s.op) &&
               (IsExec(s.op) ==> IsExec(s1.op) || s1.op.Returned?)
    requires forall target | Held(w.sessions[sid], target) &&
             (AtRest(w.sessions[sid].op) || IsExec(w.sessions[sid].op)) ::
               Held(s1, target)
    requires forall target | Landed(w.sessions[sid], target) && AtRest(w.sessions[sid].op) :: Landed(s1, target)
    requires forall target | Heading(w.sessions[sid], target) :: Heading(s1, target)
    ensures WorldInv(Update(w, sid, s1))
  {
    hide Inv, Held, SafelyTyped, Retries, Landed, Heading;
  }

  /** Giving up claims, and the list of verifications in flight, do not matter to the turn. */
  lemma ClaimsDrop(w: World, w1: World)
    requires WorldInv(w) && forall c <- w1.oob :: Valid(w, c.sid)
    requires w1 == w.(activeJob := w1.activeJob, stoppingJob := w1.stoppingJob, oob := w1.oob, cur := w1.cur,
                      disposed := w1.disposed)
    requires w1.activeJob == w.activeJob || w1.activeJob.None?
    requires w1.cur == w.cur || w1.cur.None?
    ensures WorldInv(w1)
  {
    hide Inv, Held, SafelyTyped, Retries;
  }

  lemma AutonomousKeeps(w: World, sid: nat, e: Session.Event)
    requires WorldInv(w) && Valid(w, sid) && (Autonomous(e) || e.WireClosed? || e.ProbeWrite? || e.Verification?)
    ensures WorldInv(Update(w, sid, Session.Step(w.sessions[sid], e)))
  {
    var s := w.sessions[sid];
    StepKeeps(s, e);
    OpThrough(s, e);
    forall target | Held(s, target) && (AtRest(s.op) || IsExec(s.op)) ensures Held(Session.Step(s, e), target) {
      HeldThrough(s, e, target);
    }
    forall target | Landed(s, target) && AtRest(s.op) ensures Landed(Session.Step(s, e), target) {
      LandedThrough(s, e, target);
    }
    forall target | Heading(s, target) ensures Heading(Session.Step(s, e), target) { LandedThrough(s, e, target); }
    hide Session.Step, Held, Inv, Landed, Heading;
    SessionMoves(w, sid, Session.Step(s, e));
  }

  lemma CloseCurrentKeeps(w: World, notified: bool)
    requires WorldInv(w)
    ensures WorldInv(CloseCurrent(w, notified))
    ensures Base(w) && AllIdle(w) ==> AllIdle(CloseCurrent(w, notified))
  {
    if w.cur.Some? {
      var s := w.sessions[w.cur.value];
      CloseKeeps(s, notified);
      hide Close, Inv, SafelyTyped;
      CloseOp(s, notified);
      SessionMoves(w, w.cur.value, Close(s, notified));
      var w1 := Update(w, w.cur.value, Close(s, notified));
      ClaimsDrop(w1, OnSessionLost(w1));
    }
  }

  lemma CloseOp(s: Sess, notified: bool)
    ensures Close(s, notified).op == s.op
  {
    hide Move;
  }

  // ----- out of band -----

  lemma CtrlCKeeps(s: Sess)
    requires Inv(s)
    ensures Inv(Put(s, CtrlC(true)))
  {
    hide AddressesAllow, ValidTarget;
  }

  lemma BeginInterruptKeeps(w: World, threw: bool)
    requires WorldInv(w)
    ensures WorldInv(BeginInterrupt(w, threw))
  {
    if LiveCurrent(w) {
      var sid := w.cur.value;
      CtrlCKeeps(w.sessions[sid]);
      hide Inv, SafelyTyped;
      SessionMoves(w, sid, Put(w.sessions[sid], CtrlC(true)));
      var sends := CanInterrupt(w.sessions[sid]) && !threw;
      var w1 := if sends then Update(w, sid, Put(w.sessions[sid], CtrlC(true))) else w;
      ClaimsDrop(w1, BeginInterrupt(w, threw));
    }
  }

  lemma BeginStopKeeps(w: World, job: string, threw: bool)
    requires WorldInv(w)
    ensures WorldInv(BeginStop(w, job, threw))
  {
    if w.cur.Some? {
      var sid := w.cur.value;
      CtrlCKeeps(w.sessions[sid]);
      hide Inv, SafelyTyped;
      SessionMoves(w, sid, Put(w.sessions[sid], CtrlC(true)));
      var sends := CanInterrupt(w.sessions[sid]) && !threw;
      var w1 := if sends then Update(w, sid, Put(w.sessions[sid], CtrlC(true))) else w;
      if BeginStop(w, job, threw) != w { ClaimsDrop(w1, BeginStop(w, job, threw)); }
    } else if BeginStop(w, job, threw) != w {
      ClaimsDrop(w, BeginStop(w, job, threw));
    }
  }

  lemma VerdictKeeps(w: World, i: nat, verified: bool)
    requires WorldInv(w) && i < |w.oob|
    ensures WorldInv(Verdict(w, i, verified))
  {
    var c := w.oob[i];
    AutonomousKeeps(w, c.sid, Session.Event.Verification(verified));
    hide Inv, SafelyTyped, ApplyVerification;
    if c.progress.Verifying? {
      ClaimsDrop(Update(w, c.sid, ApplyVerification(w.sessions[c.sid], verified)), Verdict(w, i, verified));
    }
  }

  lemma ConcludeKeeps(w: World, i: nat)
    requires WorldInv(w) && i < |w.oob|
    ensures WorldInv(Conclude(w, i))
  {
    var c := w.oob[i];
    var verified := c.progress.Applied? && c.progress.verified;
    AutonomousKeeps(w, c.sid, Session.Event.Verification(verified));
    hide Inv, SafelyTyped, ApplyVerification;
    if !c.progress.Verifying? {
      var w1 := if c.job.None? then w else Update(w, c.sid, ApplyVerification(w.sessions[c.sid], verified));
      ClaimsDrop(w1, Conclude(w, i));
    }
  }

  lemma OutOfBandKeeps(w: World, e: Manager.Event)
    requires WorldInv(w) && !e.BeginTurn? && !e.ResumeTurn?
    ensures WorldInv(Manager.Step(w, e))
  {
    hide Inv, SafelyTyped, Session.Step, BeginInterrupt, BeginStop, Verdict, Conclude, CloseCurrent;
    match e
    case OnSession(sid, e) => if Valid(w, sid) && Autonomous(e) { AutonomousKeeps(w, sid, e); }
    case SessionLost(sid) =>
      if Valid(w, sid) {
        AutonomousKeeps(w, sid, WireClosed);
        var w1 := Update(w, sid, Session.Step(w.sessions[sid], WireClosed));
        ClaimsDrop(w1, OnSessionLost(w1));
      }
    case Interrupt(threw) => BeginInterruptKeeps(w, threw);
    case StopJob(job, threw) => BeginStopKeeps(w, job, threw);
    case ProbeAsked(i) => if i < |w.oob| { AutonomousKeeps(w, w.oob[i].sid, ProbeWrite); }
    case Resolved(i, verified) => if i < |w.oob| { VerdictKeeps(w, i, verified); }
    case Concluded(i) => if i < |w.oob| { ConcludeKeeps(w, i); }
    case DisposeManager(notified) =>
      var w1 := w.(disposed := true);
      ClaimsDrop(w, w1);
      CloseCurrentKeeps(w1, notified);
      ClaimsDrop(CloseCurrent(w1, notified), Dispose(w, notified));
    case _ =>
  }

  // ----- the segments of a turn -----

  /** A running segment: no operation is in flight, and the turn's own checks have been made. */
  ghost predicate Ready(w: World, t: Turn) {
    Base(w) && AllIdle(w) && Valid(w, t.sid) && Valid(w, t.origin) &&
    (TypesFor(t.kind) || t.kind.StartJob? || t.kind.Exec? ==> w.activeJob.None?)
  }

  lemma FinishKeeps(w: World)
    requires Base(w) && AllIdle(w)
    ensures WorldInv(Finish(w)) && WorldInv(Finish(w.(cur := None)))
  {
    hide Inv, SafelyTyped;
  }

  lemma NavigatedKeeps(w: World, t: Turn)
    requires Ready(w, t) && !t.kind.Exec? && (t.kind.StartJob? ==> Landed(w.sessions[t.sid], t.kind.target))
    ensures WorldInv(Navigated(w, t))
  {
    hide Inv, SafelyTyped;
    FinishKeeps(w);
  }

  lemma EnterKeeps(w: World, t: Turn, now: int)
    requires Ready(w, t) && !t.kind.Exec?
    ensures WorldInv(Enter(w, t, now))
  {
    EnterBeginKeeps(w.sessions[t.sid], TargetOf(t.kind), AccountOf(t.kind), now);
    EnterBeginHeads(w.sessions[t.sid], TargetOf(t.kind), AccountOf(t.kind), now);
    hide Inv, SafelyTyped, EnterBegin, Heading;
  }

  lemma EnterBeginHeads(s: Sess, target: string, account: Option<int>, now: int)
    ensures Heading(EnterBegin(s, target, account, now), target)
  {
    hide Admit, Move;
  }

  lemma EnterIfAllowedKeeps(w: World, t: Turn, now: int)
    requires Ready(w, t) && !t.kind.Exec?
    ensures WorldInv(EnterIfAllowed(w, t, now))
  {
    hide Inv, SafelyTyped, Enter, CanResume, Finish;
    EnterKeeps(w, t, now);
    FinishKeeps(w);
  }

  lemma LeaveKeeps(w: World, t: Turn)
    requires Ready(w, t) && !t.kind.Exec?
    ensures WorldInv(Update(w, t.sid, LeaveBegin(w.sessions[t.sid])).(turn := Some(t.(stage := Leaving))))
  {
    ShortBeginsKeep(w.sessions[t.sid]);
    hide Inv, SafelyTyped, LeaveBegin;
  }

  lemma NavigateKeeps(w: World, t: Turn, now: int)
    requires Ready(w, t) && !t.kind.Exec?
    ensures WorldInv(Navigate(w, t, now))
  {
    hide Inv, SafelyTyped, Navigated, EnterIfAllowed, LeaveBegin;
    var s := w.sessions[t.sid];
    if s.life.state == ASSET_SHELL && BoundTo(s, TargetOf(t.kind)) { NavigatedKeeps(w, t); }
    LeaveKeeps(w, t);
    EnterIfAllowedKeeps(w, t, now);
  }

  /** Before the first session is located: what a turn carries into and out of connectLocked. */
  ghost predicate Connecting(w: World, t: Turn, next: After) {
    Base(w) && AllIdle(w) &&
    (next.ToHealed? ==> Valid(w, t.sid) && Valid(w, t.origin)) &&
    (t.kind.StartJob? ==> w.activeJob.None?) &&
    (next.ToHealed? && TypesFor(t.kind) ==> w.activeJob.None?) && !t.kind.Exec?
  }

  lemma AfterConnectKeeps(w: World, t: Turn, next: After, now: int)
    requires Connecting(w, t, next)
    ensures WorldInv(AfterConnect(w, t, next, now))
  {
    hide Inv, SafelyTyped, Navigate, EnterIfAllowed, Finish;
    FinishKeeps(w);
    if LiveCurrent(w) {
      var sid := w.cur.value;
      var here := t.(sid := sid, origin := if next.ToHealed? then t.origin else sid);
      if next.ToHealed? {
        EnterIfAllowedKeeps(w, here, now);
      } else if t.kind.ListAssets? {
        ListKeeps(w, here);
      } else if t.kind.StartJob? || NoActiveJob(w) {
        NavigateKeeps(w, here, now);
      }
    }
  }

  lemma ListKeeps(w: World, t: Turn)
    requires Ready(w, t) && t.kind.ListAssets?
    ensures WorldInv(Update(w, t.sid, ListBegin(w.sessions[t.sid])).(turn := Some(t.(stage := Listing))))
  {
    ShortBeginsKeep(w.sessions[t.sid]);
    hide Inv, SafelyTyped, ListBegin;
  }

  lemma ConnectLockedKeeps(w: World, t: Turn, next: After, configured: bool, now: int)
    requires Connecting(w, t, next)
    ensures WorldInv(ConnectLocked(w, t, next, configured, now))
  {
    hide Inv, SafelyTyped, AfterConnect, Finish;
    AfterConnectKeeps(w, t, next, now);
    FinishKeeps(w);
  }

  lemma OpenKeeps(w: World, t: Turn, next: After, notified: bool)
    requires Connecting(w, t, next) && WorldInv(w)
    ensures WorldInv(Open(w, t, next, notified))
  {
    assert Inv(CONNECTED);
    CloseCurrentKeeps(w, notified);
    CloseCurrentFacts(w, notified);
    hide Inv, SafelyTyped, CloseCurrent;
  }

  lemma CloseCurrentFacts(w: World, notified: bool)
    ensures var c := CloseCurrent(w, notified);
            |c.sessions| == |w.sessions| && c.turn == w.turn && c.oob == w.oob && c.typed == w.typed &&
            (w.activeJob.None? ==> c.activeJob.None?)
  {
    hide Close;
  }

  lemma HealKeeps(w: World, t: Turn, configured: bool, notified: bool)
    requires Ready(w, t) && !t.kind.Exec? && WorldInv(w.(turn := None))
    ensures WorldInv(Heal(w, t, configured, notified))
  {
    CloseCurrentKeeps(w.(turn := None), notified);
    CloseCurrentFacts(w, notified);
    CloseCurrentFacts(w.(turn := None), notified);
    CloseCurrentIgnoresTurn(w, notified);
    hide Inv, SafelyTyped, CloseCurrent;
    var dropped := ReleasePty(CloseCurrent(w, notified)).(cur := None);
    assert Base(dropped) && AllIdle(dropped);
    FinishKeeps(dropped);
  }

  lemma CloseCurrentIgnoresTurn(w: World, notified: bool)
    ensures CloseCurrent(w.(turn := None), notified) == CloseCurrent(w, notified).(turn := None)
  {
    hide Close;
  }

  /** What an exec does to the session it begins on. */
  lemma ExecFacts(s: Sess, threw: bool)
    requires Inv(s)
    ensures var s1 := ExecBegin(s, threw);
            s1.currentTarget == s.currentTarget && s1.currentIps == s.currentIps && s1.overlapped == s.overlapped &&
            (IsExec(s1.op) || s1.op.Returned?) &&
            (s1.writes != s.writes ==> s.life.state == ASSET_SHELL && s1.life.state == COMMAND_RUNNING)
  {
    assert s.life.state == ASSET_SHELL ==> Move(s.life, COMMAND_RUNNING).state == COMMAND_RUNNING;
    hide Inv, Move;
  }

  lemma ExecuteKeeps(w: World, t: Turn, stage: Stage, threw: bool)
    requires Ready(w, t) && (TypesFor(t.kind) || t.kind.Exec?) && (stage.Running? || (stage.Probing? && t.kind.Batch?))
    requires TypesFor(t.kind) ==> Held(w.sessions[t.sid], TargetOf(t.kind))
    ensures WorldInv(Execute(w, t, stage, threw))
  {
    var s := w.sessions[t.sid];
    var s1 := ExecBegin(s, threw);
    ExecBeginKeeps(s, threw);
    ExecFacts(s, threw);
    DeadStays(s, s1);
    if s1.writes != s.writes { ExecIsSafe(w, t, threw); }
    hide Inv, ExecBegin, AddressesAllow, SafelyTyped;
    var w1 := Update(w, t.sid, s1).(turn := Some(t.(stage := stage)));
    assert WorldInv(w1);
    hide WorldInv;
    forall e | SafelyTyped(e) ensures WorldInv(w1.(typed := w1.typed + [e])) { TypedGrows(w1, e); }
  }

  lemma TypedGrows(w: World, e: Typed)
    requires WorldInv(w) && SafelyTyped(e)
    ensures WorldInv(w.(typed := w.typed + [e]))
  {
    hide Inv, SafelyTyped, Held, Retries;
  }

  /**
   * The script an exec types is safe: the target is held, and a held target of a live shell is allowed by its
   * addresses.
   */
  lemma ExecIsSafe(w: World, t: Turn, threw: bool)
    requires Ready(w, t) && (TypesFor(t.kind) || t.kind.Exec?)
    requires TypesFor(t.kind) ==> Held(w.sessions[t.sid], TargetOf(t.kind))
    requires ExecBegin(w.sessions[t.sid], threw).writes != w.sessions[t.sid].writes
    ensures var s1 := ExecBegin(w.sessions[t.sid], threw);
            var want := if t.kind.Exec? then None else Some(TargetOf(t.kind));
            SafelyTyped(CommandScript(want, s1.life.state, s1.currentTarget,
                                      s1.currentIps, w.activeJob, s1.overlapped))
  {
    var s := w.sessions[t.sid];
    ExecFacts(s, threw);
    assert !s.overlapped ==> s.currentTarget.Some? && AddressesAllow(s.currentTarget.value, s.currentIps);
    hide Inv, ExecBegin, AddressesAllow;
  }

  lemma StartStreamingKeeps(w: World, t: Turn)
    requires Ready(w, t) && t.kind.StartJob? && Landed(w.sessions[t.sid], t.kind.target)
    ensures WorldInv(StartStreaming(w, t))
  {
    if !Gone(w.sessions[t.sid]) { JobLineIsSafe(w, t); }
    ShortBeginsKeep(w.sessions[t.sid]);
    WriteJobLineOp(w.sessions[t.sid]);
    hide Inv, WriteJobLine, SafelyTyped, JobLineOf, Landed;
    FinishKeeps(w);
    FinishKeeps(Update(w, t.sid, WriteJobLine(w.sessions[t.sid])));
    assert JobLineOf(w, t).JobCommand? && JobLineOf(w, t).job == t.kind.job by { JobLineIs(w, t); }
  }

  lemma JobLineIs(w: World, t: Turn)
    requires Valid(w, t.sid) && t.kind.StartJob?
    ensures JobLineOf(w, t).JobCommand? && JobLineOf(w, t).job == t.kind.job
  {
  }

  /** The line of a job goes to its target's proven shell, or the session has just become UNKNOWN. */
  lemma JobLineIsSafe(w: World, t: Turn)
    requires Ready(w, t) && t.kind.StartJob? && Landed(w.sessions[t.sid], t.kind.target) && !Gone(w.sessions[t.sid])
    ensures SafelyTyped(JobLineOf(w, t))
  {
    assert Inv(w.sessions[t.sid]) && w.sessions[t.sid].op.Idle?;
    hide AddressesAllow, ValidTarget, Base;
  }

  lemma WriteJobLineOp(s: Sess)
    ensures WriteJobLine(s).op == s.op
  {
  }

  // ----- a turn begins, or goes on -----

  lemma BeginKeeps(w: World, kind: Kind, configured: bool, notified: bool, now: int, threw: bool)
    requires WorldInv(w) && w.turn.None?
    ensures WorldInv(Begin(w, kind, configured, notified, now, threw))
  {
    hide Inv, SafelyTyped, ConnectLocked, Navigate, Execute, LeaveBegin, CloseCurrent;
    match kind
    case Connect => ConnectLockedKeeps(w, NewTurn(kind, 0), ToFinish, configured, now);
    case EnterAsset(_, _) => if LiveCurrent(w) { NavigateKeeps(w, NewTurn(kind, w.cur.value), now); }
    case Exec => if LiveCurrent(w) && NoActiveJob(w) { ExecuteKeeps(w, NewTurn(kind, w.cur.value), Running, threw); }
    case LeaveAsset => if LiveCurrent(w) { LeaveKeeps(w, NewTurn(kind, w.cur.value)); }
    case CloseSession =>
      ClaimsDrop(w, ReleasePty(w));
      CloseCurrentKeeps(ReleasePty(w), notified);
      ClaimsDrop(CloseCurrent(ReleasePty(w), notified), CloseCurrent(ReleasePty(w), notified).(cur := None));
    case StartJob(_, _, _) =>
      if NoActiveJob(w) { ConnectLockedKeeps(w, NewTurn(kind, 0), ToNavigate, configured, now); }
    case _ => ConnectLockedKeeps(w, NewTurn(kind, 0), ToNavigate, configured, now);
  }

  lemma AfterEnterKeeps(w: World, t: Turn, outcome: Outcome)
    requires Ready(w, t) && !t.kind.Exec?
    requires t.kind.StartJob? && !outcome.Failed? ==> Landed(w.sessions[t.sid], t.kind.target)
    ensures WorldInv(AfterEnter(w, t, outcome))
  {
    hide Inv, SafelyTyped, Navigated, Finish, Landed;
    if !outcome.Failed? { NavigatedKeeps(w, t); }
    FinishKeeps(w);
  }

  lemma AfterOperationKeeps(w: World, t: Turn, outcome: Outcome, r: Reply)
    requires Base(w) && AllIdle(w) && Awaits(t.stage) && TurnFacts(w, t)
    requires t.kind.StartJob? && t.stage.Entering? && !outcome.Failed? ==> Landed(w.sessions[t.sid], t.kind.target)
    ensures WorldInv(AfterOperation(w, t, outcome, r))
  {
    hide Inv, SafelyTyped, AfterConnect, EnterIfAllowed, Heal, AfterEnter, Finish, Held, Landed;
    FinishKeeps(w);
    match t.stage
    case Opening(next) => if !outcome.Failed? && !t.kind.Exec? { AfterConnectKeeps(w, t, next, r.now); }
    case Leaving =>
      EnterIfAllowedKeeps(w, t, r.now);
      if !t.kind.Exec? { HealKeeps(w, t, r.configured, r.notified); }
    case Entering => AfterEnterKeeps(w, t, outcome);
    case _ => BatchGoesOn(w, t);
    hide WorldInv;
  }

  /** A batch behind its existence probe, or behind a command. */
  lemma BatchGoesOn(w: World, t: Turn)
    requires Base(w) && AllIdle(w) && TurnFacts(w, t)
    ensures t.stage.Probing? ==> WorldInv(Manager.At(w, t, Gate)) && WorldInv(Manager.At(w, t, Top))
    ensures t.stage.Running? && t.kind.Batch? ==> WorldInv(Manager.At(w, t, Top))
  {
    hide Inv, SafelyTyped, Held, Landed;
  }

  lemma AfterGateKeeps(w: World, t: Turn, ok: bool, threw: bool)
    requires Ready(w, t) && StageFits(t) && t.stage.Gate? && !t.kind.Exec? &&
             (TypesFor(t.kind) ==> Held(w.sessions[t.sid], TargetOf(t.kind)))
    requires t.kind.StartJob? ==> Landed(w.sessions[t.sid], t.kind.target)
    ensures WorldInv(AfterGate(w, t, ok, threw))
  {
    hide Inv, SafelyTyped, Execute, StartStreaming, Finish, Held, Landed;
    FinishKeeps(w);
    if t.kind.StartJob? { StartStreamingKeeps(w, t); } else { ExecuteKeeps(w, t, Running, threw); }
  }

  lemma ResumeKeeps(w: World, t: Turn, r: Reply)
    requires WorldInv(w) && w.turn == Some(t)
    ensures WorldInv(Resume(w, t, r))
  {
    if Valid(w, t.sid) && Awaits(t.stage) {
      var s := w.sessions[t.sid];
      if s.op.Returned? {
        ConsumeKeeps(s);
        var w1 := Update(w, t.sid, s.(op := Idle));
        assert Base(w1) && AllIdle(w1) && TurnFacts(w1, t) by { hide Inv, SafelyTyped, Retries; }
        hide AfterOperation, WorldInv;
        AfterOperationKeeps(w1, t, s.op.outcome, r);
      }
    } else {
      ResumeRestKeeps(w, t, r);
    }
  }

  lemma ConsumeKeeps(s: Sess)
    requires Inv(s) && s.op.Returned?
    ensures Inv(s.(op := Idle))
  {
    hide AddressesAllow, ValidTarget;
  }

  lemma ResumeRestKeeps(w: World, t: Turn, r: Reply)
    requires WorldInv(w) && w.turn == Some(t) && !Awaits(t.stage)
    ensures WorldInv(Resume(w, t, r))
  {
    hide Inv, SafelyTyped, Open, Navigate, Execute, AfterGate, Finish, Held;
    assert Base(w) && AllIdle(w) && TurnInv(w, t);
    FinishKeeps(w);
    match t.stage
    case Password(next) => if !t.kind.Exec? { OpenKeeps(w, t, next, r.notified); }
    case Sleeping =>
      var woken := if t.retry.Some? then Some(t.retry.value.(wokeAt := Some(r.now))) else None;
      NavigateKeeps(w, t.(sid := t.origin, retry := woken), r.now);
    case Top =>
      if BoundTo(w.sessions[t.sid], TargetOf(t.kind)) {
        assert Held(w.sessions[t.sid], TargetOf(t.kind)) by { BoundIsHeld(w.sessions[t.sid], TargetOf(t.kind)); }
        ExecuteKeeps(w, t, Probing, r.threw);
      }
    case Gate => AfterGateKeeps(w, t, r.ok, r.threw);
    case _ =>
  }

  lemma BoundIsHeld(s: Sess, target: string)
    requires BoundTo(s, target)
    ensures Held(s, target)
  {
  }

  lemma WorldStepKeeps(w: World, e: Manager.Event)
    requires WorldInv(w)
    ensures WorldInv(Manager.Step(w, e))
  {
    hide Begin, Resume, WorldInv;
    match e
    case BeginTurn(kind, configured, notified, now, threw) =>
      if w.turn.None? { BeginKeeps(w, kind, configured, notified, now, threw); }
    case ResumeTurn(reply) => if w.turn.Some? { ResumeKeeps(w, w.turn.value, reply); }
    case _ => OutOfBandKeeps(w, e);
  }

  lemma {:induction false} WorldRunKeeps(events: seq<Manager.Event>)
    ensures WorldInv(Manager.Run(INIT, events))
    decreases |events|
  {
    if events != [] {
      WorldRunKeeps(events[..|events| - 1]);
      WorldStepKeeps(Manager.Run(INIT, events[..|events| - 1]), events[|events| - 1]);
    }
  }

  // ----- the theorems -----

  /**
   * Wrong-machine safety and exclusivity in every interleaving of queued turns with interrupts, job
   * stops, lost wires and disposal: every script and job line was typed while no job owned the PTY;
   * and every script run or a batch typed for T went to a session running a command on T whose
   * recorded addresses allow T, unless an interrupt verification had overlapped an entry of that session.
   */
  lemma EverythingTypedIsSafe(events: seq<Manager.Event>)
    ensures forall e <- Manager.Run(INIT, events).typed :: SafelyTyped(e)
  {
    WorldRunKeeps(events);
  }

  /** Whichever job owns the PTY, a startJob turn typed its line while no job owned it. */
  lemma OwnersWereStarted(events: seq<Manager.Event>)
    ensures var w := Manager.Run(INIT, events);
            w.activeJob.Some? ==> exists e <- w.typed :: e.JobCommand? && e.job == w.activeJob.value && e.claimed.None?
  {
    WorldRunKeeps(events);
  }
}
