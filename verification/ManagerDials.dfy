/** How often one turn types a target line: at most twice, and once when the asset was unreachable. */
module ManagerDials {
  import opened Basics
  import opened StateMachine
  import opened TargetVerify
  import opened Detector
  import opened Session
  import opened SessionProofs
  import opened SessionTheorems
  import opened EntryProtocol
  import opened Manager
  import opened ManagerProofs

  /** The turn has not yet called enter in the current attempt. */
  predicate Early(stage: Stage) { stage.Password? || stage.Opening? || stage.Leaving? || stage.Sleeping? }

  /** A retry that was resumed before the cooldown of the failed dial was over. */
  predicate Timely(r: Retry) { r.until.None? || r.wokeAt.None? || r.wokeAt.value < r.until.value }

  /** The bound on target lines, at any stage of a turn and when it ends. */
  predicate DialBound(t: Turn) {
    t.attempt <= 1 && t.dials <= t.attempt + 1 &&
    (t.retry.Some? && Timely(t.retry.value) ==> t.dials == 1)
  }

  /** A session the target was refused on: dead, or in its cooldown and on no other asset. */
  predicate Quarantined(s: Sess, target: string, until: Option<int>) {
    Dead(s.life.state) ||
    (until.Some? && target in s.unreachable && s.unreachable[target] == until.value &&
     (s.life.state == JUMPSERVER_MENU ||
      ((s.life.state == ENTERING_ASSET || s.life.state == ASSET_SHELL) && s.currentTarget == Some(target))))
  }

  function Until(s: Sess, target: string): Option<int> {
    if target in s.unreachable then Some(s.unreachable[target]) else None
  }

  /** The awaited entry that typed its target line. */
  predicate AwaitedEntry(s: Sess, target: string) {
    (IsEnter(s.op) || s.op.Returned?) &&
    (IsEnter(s.op) ==>
       s.op.target == target &&
       (Dead(s.life.state) ||
        ((s.life.state == ENTERING_ASSET || s.life.state == ASSET_SHELL) && s.currentTarget == Some(target)))) &&
    (s.op == Returned(Failed(ASSET_UNREACHABLE)) ==> Quarantined(s, target, Until(s, target)))
  }

  ghost predicate DeadAt(w: World, sid: nat) { Valid(w, sid) && Dead(w.sessions[sid].life.state) }

  /** The turn's session is the current one or dead; after a rebuild the first session is dead. */
  ghost predicate Sound(w: World, t: Turn) {
    Valid(w, t.sid) && Valid(w, t.origin) &&
    (DeadAt(w, t.sid) || w.cur == Some(t.sid)) && (Retries(t.kind) && t.sid != t.origin ==> DeadAt(w, t.origin))
  }

  ghost predicate TurnDials(w: World, t: Turn) {
    TurnBound(w, t) &&
    (t.stage.Entering? && t.attempt == 0 && t.dials == 1 ==> AwaitedEntry(w.sessions[t.sid], TargetOf(t.kind)))
  }

  /** The part that does not speak of the entry in flight. */
  ghost predicate TurnBound(w: World, t: Turn) {
    DialBound(t) && (t.attempt == 0 ==> t.retry.None?) &&
    (Early(t.stage) ==> t.dials <= t.attempt) &&
    (t.retry.Some? && Timely(t.retry.value) && Early(t.stage) ==> t.stage.Sleeping?) &&
    (if Located(t.stage) then Sound(w, t) else t.attempt == 0 && t.dials == 0) &&
    ((t.stage.Password? || t.stage.Opening?) && Located(t.stage) && Retries(t.kind) ==> DeadAt(w, t.origin)) &&
    (t.stage.Sleeping? ==> t.attempt == 1) &&
    (t.stage.Sleeping? && t.retry.Some? ==>
       t.retry.value.wokeAt.None? && Quarantined(w.sessions[t.origin], TargetOf(t.kind), t.retry.value.until))
  }

  ghost predicate Ended(w: World) { forall t <- w.finished :: DialBound(t) }

  ghost predicate Dialing(w: World) { Ended(w) && (w.turn.Some? ==> TurnDials(w, w.turn.value)) }

  // ----- sessions -----

  /** The events that reach a session from outside the operation it performs. */
  predicate FromOutside(e: Session.Event) {
    e.Data? || e.WireClosed? || e.Disposed? || e.InterruptWrite? || e.ProbeWrite? || e.Verification?
  }

  lemma QuarantineHolds(s: Sess, e: Session.Event, target: string, until: Option<int>)
    requires Inv(s) && Quarantined(s, target, until) && AtRest(s.op) && (FromOutside(e) || Autonomous(e))
    ensures Quarantined(Session.Step(s, e), target, until)
  {
    StepKeeps(s, e);
    DeadStays(s, Session.Step(s, e));
    if e.Disposed? { CloseKeeps(s, e.notified); }
    hide Inv, Keeps, Close, ConnectFail, EnterPoll, EnterProbePoll, LeavePoll, ListPoll, MenuPoll, ExecPoll,
         ExecPromptPoll, ExecProbePoll;
  }

  lemma AwaitedEntryHolds(s: Sess, e: Session.Event, target: string)
    requires Inv(s) && AwaitedEntry(s, target) && (FromOutside(e) || Autonomous(e))
    ensures AwaitedEntry(Session.Step(s, e), target)
  {
    StepKeeps(s, e);
    DeadStays(s, Session.Step(s, e));
    if s.op == Returned(Failed(ASSET_UNREACHABLE)) {
      QuarantineHolds(s, e, target, Until(s, target));
    }
    if e.Poll? && s.op.EnterWait? {
      AwaitedPoll(s, e.o, e.now, target);
    } else if e.Poll? && s.op.EnterProbe? {
      AwaitedProbe(s, e.o, target);
    } else if e.Disposed? {
      CloseKeeps(s, e.notified);
      CloseOp(s, e.notified);
    } else if !e.Poll? {
      OutsideSegment(s, e);
    }
    hide Inv, Keeps, Close, EnterPoll, EnterProbePoll, LeavePoll, ListPoll, MenuPoll, ExecPoll, ExecPromptPoll,
         ExecProbePoll;
  }

  lemma FailedQuarantine(s: Sess, code: ErrorCode, target: string)
    requires Inv(s) && IsEnter(s.op) && AwaitedEntry(s, target) &&
             (code == ASSET_UNREACHABLE ==> target in s.unreachable)
    ensures AwaitedEntry(EnterFail(s, code), target)
  {
    hide AddressesAllow, ValidTarget;
  }

  lemma AwaitedPoll(s: Sess, o: Obs, now: int, target: string)
    requires Inv(s) && AwaitedEntry(s, target) && s.op.EnterWait?
    ensures AwaitedEntry(EnterPoll(s, o, now), target)
  {
    hide AddressesAllow, ValidTarget, Offers, Quarantined, EnterFail, Move;
    var EnterWait(_, account, chosen) := s.op;
    if s.screen.kind == ShellScreen {
      if Gone(s) {
        SetStateKeeps(s, DISCONNECTED);
        Moved(s.life, DISCONNECTED);
        FailedQuarantine(SetState(s, DISCONNECTED), CONNECTION_LOST, target);
      }
    } else if s.screen.accounts.detected && (!chosen || account.None?) {
      FailedQuarantine(s.(pending := Some(target)), ACCOUNT_SELECTION_REQUIRED, target);
      FailedQuarantine(s, WIRE_GONE, target);
    } else if s.screen.failure {
      var cooled := s.(unreachable := s.unreachable[target := now + UNREACHABLE_COOLDOWN_MS]);
      FailedQuarantine(if s.screen.banner == Unreachable then cooled else s,
                       FailureCode(s.screen.banner, ASSET_ENTER_TIMEOUT), target);
    } else {
      FailedQuarantine(s, LateCode(s.screen.lateBanner, CONNECTION_LOST), target);
      FailedQuarantine(s, LateCode(s.screen.lateBanner, ASSET_ENTER_TIMEOUT), target);
      FailedQuarantine(s, ABORTED, target);
    }
  }

  lemma AwaitedProbe(s: Sess, o: Obs, target: string)
    requires Inv(s) && AwaitedEntry(s, target) && s.op.EnterProbe?
    ensures AwaitedEntry(EnterProbePoll(s, o), target)
  {
    hide AddressesAllow, ValidTarget, NonEmpty, VerifyTargetIdentity, Quarantined, EnterFail, Move;
    SetStateKeeps(s, UNKNOWN);
    Moved(s.life, UNKNOWN);
    FailedQuarantine(SetState(s, UNKNOWN), ASSET_VERIFY_FAILED, target);
    FailedQuarantine(SetState(s, UNKNOWN), TARGET_VERIFICATION_FAILED, target);
    FailedQuarantine(s, ABORTED, target);
    if s.wireClosed {
      SetStateKeeps(s, DISCONNECTED);
      Moved(s.life, DISCONNECTED);
      FailedQuarantine(SetState(s, DISCONNECTED), CONNECTION_LOST, target);
    }
  }

  // ----- the outside moves -----

  /** s1 is s after some event from outside: nothing a turn remembers about s is lost. */
  ghost predicate Follows(s: Sess, s1: Sess) {
    (Dead(s.life.state) ==> Dead(s1.life.state)) &&
    (forall target, until :: AtRest(s.op) && Quarantined(s, target, until) ==> Quarantined(s1, target, until)) &&
    (forall target :: AwaitedEntry(s, target) ==> AwaitedEntry(s1, target))
  }

  lemma StepFollows(s: Sess, e: Session.Event)
    requires Inv(s) && (FromOutside(e) || Autonomous(e))
    ensures Follows(s, Session.Step(s, e))
  {
    hide Inv, Session.Step, Quarantined, AwaitedEntry;
    StepKeeps(s, e);
    DeadStays(s, Session.Step(s, e));
    forall target, until | AtRest(s.op) && Quarantined(s, target, until)
      ensures Quarantined(Session.Step(s, e), target, until)
    {
      QuarantineHolds(s, e, target, until);
    }
    forall target | AwaitedEntry(s, target) ensures AwaitedEntry(Session.Step(s, e), target) {
      AwaitedEntryHolds(s, e, target);
    }
  }

  /** One session moved, or the current one was closed and dropped; claims and verifications are free. */
  lemma OutsideDials(w: World, w1: World, sid: nat, s1: Sess)
    requires WorldInv(w) && Dialing(w) && w1.turn == w.turn && w1.finished == w.finished
    requires w1.sessions == w.sessions ||
             (Valid(w, sid) && Follows(w.sessions[sid], s1) && w1.sessions == w.sessions[sid := s1])
    requires w1.cur == w.cur || (w1.cur.None? && forall k | w.cur == Some(k) :: DeadAt(w1, k))
    ensures Dialing(w1)
  {
    hide Inv, Base, SafelyTyped, Quarantined, AwaitedEntry, DialBound, Timely, Checked;
    if w.turn.Some? {
      var t := w.turn.value;
      if t.stage.Sleeping? { assert AtRest(w.sessions[t.origin].op); }
    }
  }

  lemma OutsideStepDials(w: World, e: Manager.Event)
    requires WorldInv(w) && Dialing(w) && !e.BeginTurn? && !e.ResumeTurn?
    ensures Dialing(Manager.Step(w, e))
  {
    hide Inv, SafelyTyped, Session.Step, Dialing, Follows, TurnInv, Close, ApplyVerification;
    var w1 := Manager.Step(w, e);
    match e
    case OnSession(sid, e) => if Valid(w, sid) && Autonomous(e) { SteppedDials(w, w1, sid, e); }
    case SessionLost(sid) => if Valid(w, sid) { SteppedDials(w, w1, sid, WireClosed); }
    case Interrupt(threw) => if LiveCurrent(w) { Interrupted(w, w1); }
    case StopJob(job, threw) => if w.cur.Some? { Interrupted(w, w1); } else { OutsideDials(w, w1, 0, FRESH); }
    case ProbeAsked(i) => if w1 != w { SteppedDials(w, w1, w.oob[i].sid, ProbeWrite); }
    case Resolved(i, verified) => if w1 != w { VerifiedDials(w, w1, w.oob[i].sid, verified); }
    case Concluded(i) =>
      if w1 != w {
        var c := w.oob[i];
        if c.job.None? { OutsideDials(w, w1, 0, FRESH); }
        else { VerifiedDials(w, w1, c.sid, c.progress.Applied? && c.progress.verified); }
      }
    case DisposeManager(notified) => DisposedDials(w, notified);
    case _ =>
  }

  lemma SteppedDials(w: World, w1: World, sid: nat, e: Session.Event)
    requires WorldInv(w) && Dialing(w) && Valid(w, sid) && (FromOutside(e) || Autonomous(e))
    requires w1.turn == w.turn && w1.finished == w.finished && w1.cur == w.cur
    requires w1.sessions == w.sessions[sid := Session.Step(w.sessions[sid], e)]
    ensures Dialing(w1)
  {
    hide Inv, SafelyTyped, Session.Step, Dialing, Follows, TurnInv;
    StepFollows(w.sessions[sid], e);
    OutsideDials(w, w1, sid, Session.Step(w.sessions[sid], e));
  }

  lemma Interrupted(w: World, w1: World)
    requires WorldInv(w) && Dialing(w) && w.cur.Some? && Valid(w, w.cur.value)
    requires w1.turn == w.turn && w1.finished == w.finished && w1.cur == w.cur
    requires w1.sessions == w.sessions ||
             (CanInterrupt(w.sessions[w.cur.value]) &&
              w1.sessions == w.sessions[w.cur.value := Put(w.sessions[w.cur.value], CtrlC(true))])
    ensures Dialing(w1)
  {
    hide Inv, SafelyTyped, Dialing, TurnInv;
    if w1.sessions == w.sessions { OutsideDials(w, w1, 0, FRESH); }
    else { SteppedDials(w, w1, w.cur.value, InterruptWrite); }
  }

  lemma VerifiedDials(w: World, w1: World, sid: nat, verified: bool)
    requires WorldInv(w) && Dialing(w) && Valid(w, sid)
    requires w1.turn == w.turn && w1.finished == w.finished && w1.cur == w.cur
    requires w1.sessions == w.sessions[sid := ApplyVerification(w.sessions[sid], verified)]
    ensures Dialing(w1)
  {
    hide Inv, SafelyTyped, Dialing, TurnInv, ApplyVerification;
    SteppedDials(w, w1, sid, Session.Event.Verification(verified));
  }

  lemma DisposedDials(w: World, notified: bool)
    requires WorldInv(w) && Dialing(w)
    ensures Dialing(Dispose(w, notified))
  {
    hide Inv, SafelyTyped, Dialing, TurnInv, Close, Follows;
    var w1 := Dispose(w, notified);
    if w.cur.Some? {
      var s := w.sessions[w.cur.value];
      CloseKeeps(s, notified);
      StepFollows(s, Disposed(notified));
      assert Session.Step(s, Disposed(notified)) == Close(s, notified);
      OutsideDials(w, w1, w.cur.value, Close(s, notified));
    } else {
      OutsideDials(w, w1, 0, FRESH);
    }
  }

  // ----- the segments of a turn -----

  /** A turn about to navigate at `now`; a timely retry is one on a session the target was refused on. */
  ghost predicate MayDial(w: World, t: Turn, now: int) {
    AboutToDial(w, t) &&
    (t.retry.Some? && Timely(t.retry.value) ==>
       t.dials == 1 && t.retry.value.wokeAt == Some(now) &&
       Quarantined(w.sessions[t.sid], TargetOf(t.kind), t.retry.value.until))
  }

  ghost predicate AboutToDial(w: World, t: Turn) {
    Closing(w) && Sound(w, t) && Inv(w.sessions[t.sid]) && w.sessions[t.sid].op.Idle? &&
    t.attempt <= 1 && t.dials <= t.attempt && (t.attempt == 0 ==> t.retry.None?)
  }

  /** Ending the turn now leaves only bounded turns behind. */
  ghost predicate Closing(w: World) { Ended(w) && (w.turn.Some? ==> DialBound(w.turn.value)) }

  lemma FinishDials(w: World)
    requires Closing(w)
    ensures Dialing(Finish(w))
  {
  }

  /** In its cooldown, or dead, or already on its way: enter types no target line. */
  lemma QuarantinedTypesNothing(s: Sess, target: string, account: Option<int>, now: int, until: Option<int>)
    requires Quarantined(s, target, until) && (until.Some? ==> now < until.value)
    ensures EnterBegin(s, target, account, now).writes == s.writes
  {
    ExpiredSegment(s);
    AdmissionFacts(s, target, account, now);
    assert !Admit(s, target, account, now).Admitted? by { hide ValidTarget; }
    hide Admit, EnterExpired, NewEntry;
  }

  /** A typed target line begins an entry that is awaited. */
  lemma TypedIsAwaited(s: Sess, target: string, account: Option<int>, now: int)
    requires EnterBegin(s, target, account, now).writes != s.writes
    ensures AwaitedEntry(EnterBegin(s, target, account, now), target)
  {
    EnterBeginTyped(s, target, account, now);
    NewEntryBinds(s, target, account);
    hide EnterBegin, NewEntry, Quarantined;
  }

  /** The only way enter types in its first segment. */
  lemma EnterBeginTyped(s: Sess, target: string, account: Option<int>, now: int)
    requires EnterBegin(s, target, account, now).writes != s.writes
    ensures s.life.state == JUMPSERVER_MENU && EnterBegin(s, target, account, now) == NewEntry(s, target, account)
  {
    AdmissionFacts(s, target, account, now);
    ExpiredSegment(s);
    hide Admit, EnterExpired, NewEntry, CanResume;
  }

  lemma NewEntryBinds(s: Sess, target: string, account: Option<int>)
    requires s.life.state == JUMPSERVER_MENU
    ensures var t := NewEntry(s, target, account);
            t.life.state == ENTERING_ASSET && t.currentTarget == Some(target) &&
              t.op == EnterWait(target, account, account.None?)
  {
  }

  lemma EnterDials(w: World, t: Turn, now: int)
    requires MayDial(w, t, now)
    ensures Dialing(Enter(w, t, now))
  {
    var s := w.sessions[t.sid];
    var target := TargetOf(t.kind);
    var s1 := EnterBegin(s, target, AccountOf(t.kind), now);
    EnterBeginKeeps(s, target, AccountOf(t.kind), now);
    DeadStays(s, s1);
    if t.retry.Some? && Timely(t.retry.value) {
      QuarantinedTypesNothing(s, target, AccountOf(t.kind), now, t.retry.value.until);
    }
    if s1.writes != s.writes { TypedIsAwaited(s, target, AccountOf(t.kind), now); }
    hide EnterBegin, Inv, AwaitedEntry, Quarantined;
  }

  lemma EnterIfAllowedDials(w: World, t: Turn, now: int)
    requires MayDial(w, t, now)
    ensures Dialing(EnterIfAllowed(w, t, now))
  {
    EnterDials(w, t, now);
    FinishDials(w);
    hide Enter, Finish, Dialing, CanResume, Inv, Quarantined;
  }

  lemma NavigatedDials(w: World, t: Turn)
    requires Closing(w) && Sound(w, t) && DialBound(t) && (t.attempt == 0 ==> t.retry.None?)
    ensures Dialing(Navigated(w, t))
  {
    FinishDials(w);
    hide Timely;
  }

  lemma LeavingDials(w: World, t: Turn)
    requires AboutToDial(w, t) && !(t.retry.Some? && Timely(t.retry.value))
    ensures Dialing(Update(w, t.sid, LeaveBegin(w.sessions[t.sid])).(turn := Some(t.(stage := Leaving))))
  {
    ShortBeginsKeep(w.sessions[t.sid]);
    DeadStays(w.sessions[t.sid], LeaveBegin(w.sessions[t.sid]));
    hide Inv, LeaveBegin, Timely, Quarantined;
  }

  lemma NavigateDials(w: World, t: Turn, now: int)
    requires MayDial(w, t, now)
    ensures Dialing(Navigate(w, t, now))
  {
    hide Inv, Navigated, EnterIfAllowed, LeaveBegin, Dialing, Closing, Finish, Timely;
    var s := w.sessions[t.sid];
    if s.life.state != ASSET_SHELL {
      EnterIfAllowedDials(w, t, now);
    } else if BoundTo(s, TargetOf(t.kind)) {
      NavigatedDials(w, t);
    } else {
      LeavingDials(w, t);
    }
  }

  lemma AfterConnectDials(w: World, t: Turn, next: After, now: int)
    requires Closing(w) && Base(w) && AllIdle(w) && t.attempt <= 1 && t.dials <= t.attempt &&
             (t.attempt == 0 ==> t.retry.None?)
    requires next.ToHealed? ==> Valid(w, t.origin) && (Retries(t.kind) ==> DeadAt(w, t.origin))
    requires t.retry.Some? ==> !Timely(t.retry.value)
    ensures Dialing(AfterConnect(w, t, next, now))
  {
    FinishDials(w);
    hide Inv, Navigate, EnterIfAllowed, ListBegin, Dialing, Finish, Timely, SafelyTyped;
    if LiveCurrent(w) {
      var sid := w.cur.value;
      var here := t.(sid := sid, origin := if next.ToHealed? then t.origin else sid);
      EnterIfAllowedDials(w, here, now);
      if !next.ToHealed? {
        NavigateDials(w, here, now);
        ListDials(w, here);
      }
    }
  }

  lemma ListDials(w: World, t: Turn)
    requires AboutToDial(w, t) && !(t.retry.Some? && Timely(t.retry.value))
    ensures Dialing(Update(w, t.sid, ListBegin(w.sessions[t.sid])).(turn := Some(t.(stage := Listing))))
  {
    ShortBeginsKeep(w.sessions[t.sid]);
    DeadStays(w.sessions[t.sid], ListBegin(w.sessions[t.sid]));
    hide Inv, ListBegin, Timely, Quarantined;
  }

  lemma ConnectLockedDials(w: World, t: Turn, next: After, configured: bool, now: int)
    requires Closing(w) && Base(w) && AllIdle(w) && t.attempt == 0 && t.dials == 0 && t.retry.None? && !next.ToHealed?
    ensures Dialing(ConnectLocked(w, t, next, configured, now))
  {
    AfterConnectDials(w, t, next, now);
    FinishDials(w);
    hide AfterConnect, Finish, Inv, SafelyTyped;
  }

  lemma OpenDials(w: World, t: Turn, next: After, notified: bool)
    requires Base(w) && Ended(w) && w.turn == Some(t) && TurnDials(w, t) && t.stage == Password(next)
    ensures Dialing(Open(w, t, next, notified))
  {
    var c := CloseCurrent(w, notified);
    CloseCurrentFacts(w, notified);
    CloseCurrentDead(w, notified);
    hide CloseCurrent, Inv, SafelyTyped, Timely, Quarantined, AwaitedEntry;
  }

  /** Closing the current session leaves it dead and every dead session dead. */
  lemma CloseCurrentDead(w: World, notified: bool)
    requires Base(w)
    ensures var c := CloseCurrent(w, notified);
            |c.sessions| == |w.sessions| && c.cur == w.cur && c.turn == w.turn && c.finished == w.finished &&
              c.disposed == w.disposed &&
            (forall k :: DeadAt(w, k) ==> DeadAt(c, k)) && (w.cur.Some? ==> DeadAt(c, w.cur.value))
  {
    if w.cur.Some? { CloseKeeps(w.sessions[w.cur.value], notified); }
    hide Close, Inv, SafelyTyped;
  }

  lemma HealDials(w: World, t: Turn, configured: bool, notified: bool)
    requires Base(w) && Closing(w) && Sound(w, t) && t.attempt <= 1 && t.dials <= t.attempt &&
             (t.attempt == 0 ==> t.retry.None?)
    requires t.retry.Some? ==> !Timely(t.retry.value)
    ensures Dialing(Heal(w, t, configured, notified))
  {
    hide Base, CloseCurrent, Inv, SafelyTyped, Timely, Quarantined, AwaitedEntry, Finish;
    CloseCurrentDead(w, notified);
    var dropped := ReleasePty(CloseCurrent(w, notified)).(cur := None);
    FinishDials(dropped);
  }

  lemma ExecuteDials(w: World, t: Turn, stage: Stage, threw: bool)
    requires Ended(w) && Sound(w, t) && DialBound(t) && (t.attempt == 0 ==> t.retry.None?)
    requires Inv(w.sessions[t.sid]) && w.sessions[t.sid].op.Idle? && (stage.Running? || stage.Probing?)
    ensures Dialing(Execute(w, t, stage, threw))
  {
    ExecBeginKeeps(w.sessions[t.sid], threw);
    DeadStays(w.sessions[t.sid], ExecBegin(w.sessions[t.sid], threw));
    hide ExecBegin, Inv, Timely, Quarantined, AwaitedEntry;
  }

  lemma StartStreamingDials(w: World, t: Turn)
    requires Closing(w) && Sound(w, t) && t.kind.StartJob?
    ensures Dialing(StartStreaming(w, t))
  {
    FinishDials(w);
    hide Timely, Quarantined, AwaitedEntry, WriteJobLine;
  }

  lemma BeginDials(w: World, kind: Kind, configured: bool, notified: bool, now: int, threw: bool)
    requires WorldInv(w) && Ended(w) && w.turn.None?
    ensures Dialing(Begin(w, kind, configured, notified, now, threw))
  {
    hide Inv, SafelyTyped, ConnectLocked, Navigate, Execute, LeaveBegin, CloseCurrent;
    match kind
    case EnterAsset(_, _) => if LiveCurrent(w) { NavigateDials(w, NewTurn(kind, w.cur.value), now); }
    case Exec => if LiveCurrent(w) { ExecuteDials(w, NewTurn(kind, w.cur.value), Running, threw); }
    case LeaveAsset => if LiveCurrent(w) { LeavingDials(w, NewTurn(kind, w.cur.value)); }
    case CloseSession =>
      ClaimsDrop(w, ReleasePty(w));
      CloseCurrentDead(ReleasePty(w), notified);
    case Connect => ConnectLockedDials(w, NewTurn(kind, 0), ToFinish, configured, now);
    case _ => ConnectLockedDials(w, NewTurn(kind, 0), ToNavigate, configured, now);
  }

  lemma AfterEnterDials(w: World, t: Turn, outcome: Outcome)
    requires Closing(w) && TurnBound(w, t) && t.stage.Entering? && Sound(w, t)
    requires t.attempt == 0 && t.dials == 1 && outcome == Failed(ASSET_UNREACHABLE) ==>
               Quarantined(w.sessions[t.sid], TargetOf(t.kind), Until(w.sessions[t.sid], TargetOf(t.kind)))
    ensures Dialing(AfterEnter(w, t, outcome))
  {
    FinishDials(w);
    NavigatedDials(w, t);
    hide Navigated, Finish, AwaitedEntry;
  }

  lemma AfterOperationDials(w: World, t: Turn, outcome: Outcome, r: Reply)
    requires Base(w) && AllIdle(w) && Closing(w) && TurnBound(w, t) && Awaits(t.stage) && Valid(w, t.sid)
    requires t.stage.Entering? && t.attempt == 0 && t.dials == 1 && outcome == Failed(ASSET_UNREACHABLE) ==>
               Quarantined(w.sessions[t.sid], TargetOf(t.kind), Until(w.sessions[t.sid], TargetOf(t.kind)))
    ensures Dialing(AfterOperation(w, t, outcome, r))
  {
    hide Inv, SafelyTyped, AfterConnect, EnterIfAllowed, Heal, AfterEnter, Finish, Timely, Quarantined, AwaitedEntry;
    FinishDials(w);
    FinishDials(w.(cur := None));
    match t.stage
    case Opening(next) => if !outcome.Failed? { AfterConnectDials(w, t, next, r.now); }
    case Leaving =>
      EnterIfAllowedDials(w, t, r.now);
      HealDials(w, t, r.configured, r.notified);
    case Entering => AfterEnterDials(w, t, outcome);
    case _ =>
  }

  lemma ResumeDials(w: World, t: Turn, r: Reply)
    requires WorldInv(w) && Dialing(w) && w.turn == Some(t)
    ensures Dialing(Resume(w, t, r))
  {
    if Valid(w, t.sid) && Awaits(t.stage) {
      var s := w.sessions[t.sid];
      if s.op.Returned? {
        ConsumeKeeps(s);
        var w1 := Update(w, t.sid, s.(op := Idle));
        assert Base(w1) && AllIdle(w1) && TurnBound(w1, t) by { hide Inv, SafelyTyped, Retries, Timely; }
        hide AfterOperation, WorldInv, Quarantined, Timely;
        AfterOperationDials(w1, t, s.op.outcome, r);
      }
    } else {
      ResumeRestDials(w, t, r);
    }
  }

  lemma ResumeRestDials(w: World, t: Turn, r: Reply)
    requires WorldInv(w) && Dialing(w) && w.turn == Some(t) && !Awaits(t.stage)
    ensures Dialing(Resume(w, t, r))
  {
    hide Inv, SafelyTyped, Open, Navigate, Execute, StartStreaming, Finish, Quarantined, AwaitedEntry;
    FinishDials(w);
    match t.stage
    case Password(next) => OpenDials(w, t, next, r.notified);
    case Sleeping =>
      var woken := if t.retry.Some? then Some(t.retry.value.(wokeAt := Some(r.now))) else None;
      NavigateDials(w, t.(sid := t.origin, retry := woken), r.now);
    case Top => ExecuteDials(w, t, Probing, r.threw);
    case Gate => if t.kind.StartJob? { StartStreamingDials(w, t); } else { ExecuteDials(w, t, Running, r.threw); }
    case _ =>
  }

  lemma StepDials(w: World, e: Manager.Event)
    requires WorldInv(w) && Dialing(w)
    ensures Dialing(Manager.Step(w, e))
  {
    hide Begin, Resume, WorldInv, TurnDials;
    match e
    case BeginTurn(kind, configured, notified, now, threw) =>
      if w.turn.None? { BeginDials(w, kind, configured, notified, now, threw); }
    case ResumeTurn(reply) => if w.turn.Some? { ResumeDials(w, w.turn.value, reply); }
    case _ => OutsideStepDials(w, e);
  }

  lemma {:induction false} RunDials(events: seq<Manager.Event>)
    ensures Dialing(Manager.Run(INIT, events))
    decreases |events|
  {
    if events != [] {
      var before := events[..|events| - 1];
      RunDials(before);
      WorldRunKeeps(before);
      StepDials(Manager.Run(INIT, before), events[|events| - 1]);
    }
  }

  /**
   * In every interleaving, every turn that ended typed its target line at most twice; and when its
   * first, dialed attempt was refused as unreachable and the retry woke before that cooldown was over,
   * exactly once.
   */
  lemma OneDialPerUnreachableTarget(events: seq<Manager.Event>)
    ensures forall t <- Manager.Run(INIT, events).finished ::
              t.dials <= 2 && (t.retry.Some? && Timely(t.retry.value) ==> t.dials == 1)
  {
    RunDials(events);
    hide Manager.Run;
  }

  /** The failed dial starts a cooldown of UNREACHABLE_COOLDOWN_MS from its own clock reading. */
  lemma RefusalStartsCooldown(s: Sess, o: Obs, now: int)
    requires s.op.EnterWait?
    ensures var t := EnterPoll(s, o, now);
            t.op == Returned(Failed(ASSET_UNREACHABLE)) ==> Until(t, s.op.target) == Some(now + UNREACHABLE_COOLDOWN_MS)
  {
    hide Move, Offers, EnterFail;
    forall t: Sess, code
      ensures EnterFail(t, code).unreachable == t.unreachable && EnterFail(t, code).op == Returned(Failed(code))
    {
      EnterFailKeepsCooldowns(t, code);
    }
  }

  lemma EnterFailKeepsCooldowns(s: Sess, code: ErrorCode)
    ensures EnterFail(s, code).unreachable == s.unreachable && EnterFail(s, code).op == Returned(Failed(code))
  {
    hide Move;
  }
}
