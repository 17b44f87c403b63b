/** Who may claim the PTY: only the end of a startJob turn, while nobody owns it. */
module ManagerClaims {
  import opened Basics
  import opened Session
  import opened Manager
  import opened ManagerProofs

  /** The claim is kept or dropped. */
  predicate Calm(w: World, w1: World) { w1.activeJob == w.activeJob || w1.activeJob.None? }

  lemma NavigationIsCalm(w: World, t: Turn, now: int)
    requires Valid(w, t.sid)
    ensures Calm(w, EnterIfAllowed(w, t, now)) && Calm(w, Navigate(w, t, now)) && Calm(w, Navigated(w, t))
  {
    hide EnterBegin, LeaveBegin, CanResume;
  }

  lemma ConnectIsCalm(w: World, t: Turn, next: After, configured: bool, now: int)
    ensures Calm(w, AfterConnect(w, t, next, now)) && Calm(w, ConnectLocked(w, t, next, configured, now))
  {
    if LiveCurrent(w) {
      var here := t.(sid := w.cur.value, origin := if next.ToHealed? then t.origin else w.cur.value);
      NavigationIsCalm(w, here, now);
    }
    hide EnterIfAllowed, Navigate, ListBegin;
  }

  lemma ClosingIsCalm(w: World, t: Turn, next: After, configured: bool, notified: bool)
    ensures Calm(w, CloseCurrent(w, notified)) && Calm(w, Open(w, t, next, notified)) &&
            Calm(w, Heal(w, t, configured, notified))
    ensures Calm(w, Dispose(w, notified))
  {
    CloseCurrentCalm(w, notified);
    CloseCurrentCalm(w.(disposed := true), notified);
    hide CloseCurrent;
  }

  lemma CloseCurrentCalm(w: World, notified: bool)
    ensures Calm(w, CloseCurrent(w, notified))
  {
    hide Close;
  }

  lemma BeginIsCalm(w: World, kind: Kind, configured: bool, notified: bool, now: int, threw: bool)
    requires w.turn.None?
    ensures Calm(w, Begin(w, kind, configured, notified, now, threw))
  {
    ConnectIsCalm(w, NewTurn(kind, 0), ToFinish, configured, now);
    ConnectIsCalm(w, NewTurn(kind, 0), ToNavigate, configured, now);
    if LiveCurrent(w) { NavigationIsCalm(w, NewTurn(kind, w.cur.value), now); }
    CloseCurrentCalm(ReleasePty(w), notified);
    hide ConnectLocked, Navigate, CloseCurrent, ExecBegin, LeaveBegin;
  }

  lemma AfterOperationIsCalm(w: World, t: Turn, outcome: Outcome, r: Reply)
    ensures Valid(w, t.sid) || !t.stage.Leaving? ==> Calm(w, AfterOperation(w, t, outcome, r))
  {
    hide AfterConnect, EnterIfAllowed, Navigated, Heal;
    match t.stage
    case Opening(next) => ConnectIsCalm(w, t, next, r.configured, r.now);
    case Leaving =>
      if Valid(w, t.sid) { NavigationIsCalm(w, t, r.now); }
      ClosingIsCalm(w, t, ToHealed, r.configured, r.notified);
    case Entering => AfterEnterIsCalm(w, t, outcome);
    case _ =>
  }

  lemma AfterEnterIsCalm(w: World, t: Turn, outcome: Outcome)
    ensures Calm(w, AfterEnter(w, t, outcome))
  {
  }

  /** The step that claims the PTY for a job: its own startJob turn, past the gate, writing its line. */
  predicate ClaimsFor(w: World, e: Manager.Event, job: string) {
    e.ResumeTurn? && w.turn.Some? && w.turn.value.stage.Gate? && w.turn.value.kind.StartJob? &&
      w.turn.value.kind.job == job
  }

  lemma ResumeClaims(w: World, t: Turn, r: Reply)
    requires w.turn == Some(t)
    ensures var w1 := Resume(w, t, r);
            Calm(w, w1) || (w1.activeJob.Some? && t.stage.Gate? && t.kind.StartJob? && w1.activeJob == Some(t.kind.job))
  {
    if Valid(w, t.sid) && Awaits(t.stage) {
      var s := w.sessions[t.sid];
      if s.op.Returned? { AfterOperationIsCalm(Update(w, t.sid, s.(op := Idle)), t, s.op.outcome, r); }
      hide AfterOperation;
    } else if !Awaits(t.stage) {
      ResumeRestClaims(w, t, r);
    }
  }

  lemma ResumeRestClaims(w: World, t: Turn, r: Reply)
    requires w.turn == Some(t) && !Awaits(t.stage)
    ensures var w1 := Resume(w, t, r);
            Calm(w, w1) || (w1.activeJob.Some? && t.stage.Gate? && t.kind.StartJob? && w1.activeJob == Some(t.kind.job))
  {
    match t.stage
    case Password(next) => ClosingIsCalm(w, t, next, r.configured, r.notified);
    case Sleeping =>
      if Valid(w, t.origin) {
        var woken := if t.retry.Some? then Some(t.retry.value.(wokeAt := Some(r.now))) else None;
        NavigationIsCalm(w, t.(sid := t.origin, retry := woken), r.now);
      }
    case _ =>
    hide Open, Navigate, ExecBegin, WriteJobLine;
  }

  lemma OutsideIsCalm(w: World, e: Manager.Event)
    requires !e.BeginTurn? && !e.ResumeTurn?
    ensures Calm(w, Manager.Step(w, e))
  {
    if e.DisposeManager? { ClosingIsCalm(w, NewTurn(Connect, 0), ToFinish, true, e.notified); }
    hide Session.Step, ApplyVerification, Dispose;
  }

  /**
   * In every run: whenever a job comes to own the PTY, the step that did it is the end of that job's own
   * startJob turn, and nobody owned the PTY before it.
   */
  lemma ClaimsComeFromStartJob(events: seq<Manager.Event>, e: Manager.Event)
    ensures var w := Manager.Run(INIT, events); var w1 := Manager.Step(w, e);
            w1.activeJob.Some? && w1.activeJob != w.activeJob ==>
              ClaimsFor(w, e, w1.activeJob.value) && w.activeJob.None?
  {
    WorldRunKeeps(events);
    var w := Manager.Run(INIT, events);
    hide Manager.Run, Begin, Resume;
    match e
    case BeginTurn(kind, configured, notified, now, threw) =>
      if w.turn.None? { BeginIsCalm(w, kind, configured, notified, now, threw); }
    case ResumeTurn(reply) => if w.turn.Some? { ResumeClaims(w, w.turn.value, reply); }
    case _ => OutsideIsCalm(w, e);
    hide Manager.Step, Base;
  }
}
