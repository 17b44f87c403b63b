/**
 * Where a turn of session-manager.ts goes next: stage by stage, what its next segment does to the session, the
 * claims and the turn itself, as statements about Step in every run. The gate has its own module (ManagerGate).
 */
module ManagerTurns {
  import opened Basics
  import opened StateMachine
  import opened Detector
  import opened Session
  import opened SessionProofs
  import opened SessionTheorems
  import opened EntryProtocol
  import opened SessionExits
  import opened SessionEvidence
  import opened SessionOutcomes
  import opened Manager
  import opened ManagerProofs
  import opened ManagerGate

  // ----- vocabulary -----

  /** The turn is over, or has not even begun to wait, and nothing else has changed. */
  predicate JustOver(w: World, w1: World) {
    w1 == w.(turn := None, finished := w.finished + if w.turn.Some? then [w.turn.value] else [])
  }

  /** The turn waits somewhere else, and nothing else has changed. */
  predicate JustAt(w: World, t: Turn, w1: World) { w1 == w.(turn := Some(t)) }

  /** One session goes on, and the turn waits for it. */
  predicate Awaiting(w: World, sid: nat, s: Sess, t: Turn, w1: World) {
    Valid(w, sid) && w1 == w.(sessions := w.sessions[sid := s], turn := Some(t))
  }

  predicate AlreadyThere(s: Sess, target: string) { s.life.state == ASSET_SHELL && s.currentTarget == Some(target) }

  /** The navigation has arrived: run and startJob ask their gate, a batch begins its commands, enter is done. */
  predicate Arrives(w: World, t: Turn, w1: World)
    requires Valid(w, t.sid)
  {
    match t.kind
    case RunCommand(target, _) =>
      if w.sessions[t.sid].currentTarget == Some(target) then JustAt(w, t.(stage := Gate), w1) else JustOver(w, w1)
    case Batch(target, _) =>
      if w.sessions[t.sid].currentTarget == Some(target) then JustAt(w, t.(stage := Top), w1) else JustOver(w, w1)
    case StartJob(_, _, _) => JustAt(w, t.(stage := Gate), w1)
    case _ => JustOver(w, w1)
  }

  /** enter is called on the turn's session; a target line is counted. */
  predicate CallsEnter(w: World, t: Turn, now: int, w1: World)
    requires Valid(w, t.sid)
  {
    var s := w.sessions[t.sid];
    var s1 := Session.Step(s, BeginEnter(TargetOf(t.kind), AccountOf(t.kind), now));
    Awaiting(w, t.sid, s1, t.(stage := Entering, dials := t.dials + if s1.writes == s.writes then 0 else 1), w1)
  }

  /** Enter from the menu, or to answer the target's own prompt; a plain enter leaves the refusal to the session. */
  predicate EntersFromMenu(w: World, t: Turn, now: int, w1: World)
    requires Valid(w, t.sid)
  {
    var s := w.sessions[t.sid];
    if t.kind.EnterAsset? || s.life.state == JUMPSERVER_MENU || Resumes(s, TargetOf(t.kind), AccountOf(t.kind))
    then CallsEnter(w, t, now, w1) else JustOver(w, w1)
  }

  /** The navigation: nothing to do on the target itself, out of another asset first, else in from the menu. */
  predicate Navigates(w: World, t: Turn, now: int, w1: World)
    requires Valid(w, t.sid)
  {
    var s := w.sessions[t.sid];
    if AlreadyThere(s, TargetOf(t.kind)) then Arrives(w, t, w1)
    else if s.life.state == ASSET_SHELL
    then Awaiting(w, t.sid, s.(writes := s.writes + [ExitLine], op := LeaveWait(0)), t.(stage := Leaving), w1)
    else EntersFromMenu(w, t, now, w1)
  }

  // ----- the navigation -----

  lemma EnterCalled(w: World, t: Turn, now: int)
    requires Valid(w, t.sid) && w.sessions[t.sid].op.Idle?
    ensures EntersFromMenu(w, t, now, EnterIfAllowed(w, t, now))
  {
    hide EnterBegin, Advance;
  }

  lemma NavigationGoes(w: World, t: Turn, now: int)
    requires Valid(w, t.sid) && w.sessions[t.sid].op.Idle?
    ensures Navigates(w, t, now, Navigate(w, t, now))
  {
    hide EnterIfAllowed, EntersFromMenu;
    EnterCalled(w, t, now);
  }

  lemma Arrived(w: World, t: Turn)
    requires Valid(w, t.sid)
    ensures Arrives(w, t, Navigated(w, t))
  {
  }

  // ----- connecting -----

  predicate HasLive(w: World) { w.cur.Some? && Valid(w, w.cur.value) && Live(w.sessions[w.cur.value].life.state) }

  predicate Claimless(w: World) { w.activeJob.None? && w.stoppingJob.None? }

  /** connectLocked returned: the operation goes on with the session that is current now, if it is live. */
  predicate GoesOnConnected(w: World, t: Turn, next: After, now: int, w1: World) {
    if next.ToFinish? || !HasLive(w) then JustOver(w, w1)
    else
      var sid, s := w.cur.value, w.sessions[w.cur.value];
      var here := t.(sid := sid, origin := if next.ToHealed? then t.origin else sid);
      if next.ToHealed? then
        if s.life.state == JUMPSERVER_MENU && !t.kind.LeaveAsset? then EntersFromMenu(w, here, now, w1)
        else JustOver(w, w1)
      else if t.kind.ListAssets? then Awaiting(w, sid, Session.Step(s, BeginList), here.(stage := Listing), w1)
      else if t.kind.StartJob? || Claimless(w) then Navigates(w, here, now, w1)
      else JustOver(w, w1)
  }

  lemma ConnectedGoes(w: World, t: Turn, next: After, now: int)
    requires AllIdle(w)
    ensures GoesOnConnected(w, t, next, now, AfterConnect(w, t, next, now))
  {
    hide EnterIfAllowed, EntersFromMenu, Navigate, Navigates, Advance, JustOver;
    Ended(w);
    if HasLive(w) {
      var sid := w.cur.value;
      var here := t.(sid := sid, origin := if next.ToHealed? then t.origin else sid);
      EnterCalled(w, here, now);
      NavigationGoes(w, here, now);
    }
  }

  lemma Ended(w: World)
    ensures JustOver(w, Manager.Finish(w))
  {
    assert w.turn.None? ==> w.finished + [] == w.finished;
  }

  /** The first part of connectLocked: nothing to do while there is a live session; else the settings decide. */
  predicate Connects(w: World, t: Turn, next: After, configured: bool, now: int, w1: World) {
    if HasLive(w) then GoesOnConnected(w, t, next, now, w1)
    else if configured && !w.disposed then JustAt(w, t.(stage := Password(next)), w1)
    else JustOver(w, w1)
  }

  lemma ConnectGoes(w: World, t: Turn, next: After, configured: bool, now: int)
    requires AllIdle(w)
    ensures Connects(w, t, next, configured, now, ConnectLocked(w, t, next, configured, now))
  {
    hide GoesOnConnected, AfterConnect, JustOver;
    Ended(w);
    ConnectedGoes(w, t, next, now);
  }

  /** The sessions with the current one closed. */
  function Closed(w: World, notified: bool): seq<Sess> {
    if w.cur.Some? && Valid(w, w.cur.value)
    then w.sessions[w.cur.value := Session.Step(w.sessions[w.cur.value], Disposed(notified))] else w.sessions
  }

  /** Closing the current session: it is closed, and unless the manager is disposed its claims go with it. */
  lemma ClosingGoes(w: World, notified: bool)
    ensures var w1 := CloseCurrent(w, notified); var keeps := w.disposed || w.cur.None? || !Valid(w, w.cur.value);
            w1 == w.(sessions := Closed(w, notified), activeJob := if keeps then w.activeJob else None,
                     stoppingJob := if keeps then w.stoppingJob else None)
  {
    hide Close, Advance;
  }

  // ----- the segments of a turn -----

  /** The world once the turn has taken the result of its session's operation. */
  function Taken(w: World, t: Turn): World
    requires Valid(w, t.sid)
  {
    w.(sessions := w.sessions[t.sid := w.sessions[t.sid].(op := Idle)])
  }

  /** The stages in which the turn waits for its session, rather than for the outside. */
  predicate OfSession(stage: Stage) {
    match stage
    case Password(_) => false
    case Sleeping => false
    case Top => false
    case Gate => false
    case _ => true
  }

  /** The turn's session has an answer for it. */
  predicate Answered(w: World, t: Turn) {
    w.turn == Some(t) && Valid(w, t.sid) && OfSession(t.stage) && w.sessions[t.sid].op.Returned?
  }

  function OutcomeOf(w: World, t: Turn): Outcome
    requires Answered(w, t)
  {
    w.sessions[t.sid].op.outcome
  }

  /** What every run knows of a turn whose session has answered. */
  lemma AnsweredIsIdle(events: seq<Manager.Event>, t: Turn)
    requires Answered(Manager.Run(INIT, events), t)
    ensures AllIdle(Taken(Manager.Run(INIT, events), t))
  {
    hide Manager.Run, Base, TurnFacts;
    WorldRunKeeps(events);
  }

  lemma TurnResumes(events: seq<Manager.Event>, t: Turn, r: Reply)
    requires Answered(Manager.Run(INIT, events), t)
    ensures var w := Manager.Run(INIT, events);
            Manager.Step(w, ResumeTurn(r)) == AfterOperation(Taken(w, t), t, OutcomeOf(w, t), r)
  {
    hide Manager.Run, AfterOperation;
  }

  /** A failed connect forgets its session if it is still the current one; otherwise the operation goes on. */
  lemma OpeningGoes(events: seq<Manager.Event>, t: Turn, r: Reply)
    requires Answered(Manager.Run(INIT, events), t) && t.stage.Opening?
    ensures var w := Manager.Run(INIT, events); var w1 := Manager.Step(w, ResumeTurn(r)); var w0 := Taken(w, t);
            if OutcomeOf(w, t).Failed? then JustOver(w0.(cur := if w.cur == Some(t.sid) then None else w.cur), w1)
            else GoesOnConnected(w0, t, t.stage.next, r.now, w1)
  {
    AnsweredIsIdle(events, t);
    TurnResumes(events, t, r);
    hide Manager.Run, Manager.Step, GoesOnConnected, AfterConnect, JustOver;
    var w := Manager.Run(INIT, events);
    var w0 := Taken(w, t);
    Ended(w0.(cur := None));
    Ended(w0);
    ConnectedGoes(w0, t, t.stage.next, r.now);
  }

  /** The session is given up for a new one: closed, forgotten, its claims dropped, and another is connected. */
  predicate Heals(w: World, t: Turn, r: Reply, w1: World) {
    var dropped := w.(sessions := Closed(w, r.notified), cur := None, activeJob := None, stoppingJob := None);
    if r.configured && !w.disposed then JustAt(dropped, t.(stage := Password(ToHealed)), w1) else JustOver(dropped, w1)
  }

  lemma HealGoes(w: World, t: Turn, r: Reply)
    ensures Heals(w, t, r, Heal(w, t, r.configured, r.notified))
  {
    hide CloseCurrent, Closed, JustOver;
    ClosingGoes(w, r.notified);
    Ended(ReleasePty(CloseCurrent(w, r.notified)).(cur := None));
  }

  /** After leave: on to the target from the menu; a menu that was not confirmed is healed, nothing else is. */
  lemma LeavingGoes(events: seq<Manager.Event>, t: Turn, r: Reply)
    requires Answered(Manager.Run(INIT, events), t) && t.stage.Leaving?
    ensures var w := Manager.Run(INIT, events); var w1 := Manager.Step(w, ResumeTurn(r)); var w0 := Taken(w, t);
            var atMenu := w.sessions[t.sid].life.state == JUMPSERVER_MENU;
            if OutcomeOf(w, t) == Failed(MENU_RETURN_FAILED) then Heals(w0, t, r, w1)
            else if OutcomeOf(w, t) == Succeeded && !t.kind.LeaveAsset? && (t.kind.EnterAsset? || atMenu)
            then EntersFromMenu(w0, t, r.now, w1)
            else JustOver(w0, w1)
  {
    AnsweredIsIdle(events, t);
    TurnResumes(events, t, r);
    hide Manager.Run, Manager.Step, EntersFromMenu, EnterIfAllowed, JustOver, Heal, Heals;
    var w := Manager.Run(INIT, events);
    var w0 := Taken(w, t);
    Ended(w0);
    HealGoes(w0, t, r);
    EnterCalled(w0, t, r.now);
  }

  /** The refusals that may not last: worth one more attempt. */
  predicate MayPass(outcome: Outcome) {
    outcome == Failed(ASSET_UNREACHABLE) || outcome == Failed(ASSET_ENTER_TIMEOUT)
  }

  /** What is remembered of an attempt that dialed and was refused as unreachable: how long the target is left alone. */
  function RetryOf(w: World, t: Turn): Option<Retry>
    requires Answered(w, t)
  {
    var cooling, target := w.sessions[t.sid].unreachable, TargetOf(t.kind);
    if OutcomeOf(w, t) == Failed(ASSET_UNREACHABLE) && t.dials > 0
    then Some(Retry(if target in cooling then Some(cooling[target]) else None, None)) else None
  }

  /** After enter: arrive, or try once more (run, batch and startJob, and only after a refusal that may pass). */
  lemma EnteringGoes(events: seq<Manager.Event>, t: Turn, r: Reply)
    requires Answered(Manager.Run(INIT, events), t) && t.stage.Entering?
    ensures var w := Manager.Run(INIT, events); var w1 := Manager.Step(w, ResumeTurn(r)); var w0 := Taken(w, t);
            var again := (t.kind.RunCommand? || t.kind.Batch? || t.kind.StartJob?) && t.attempt == 0;
            if !OutcomeOf(w, t).Failed? then Arrives(w0, t, w1)
            else if again && MayPass(OutcomeOf(w, t))
            then JustAt(w0, t.(stage := Sleeping, attempt := 1, retry := RetryOf(w, t)), w1)
            else JustOver(w0, w1)
  {
    AnsweredIsIdle(events, t);
    TurnResumes(events, t, r);
    hide Manager.Run, Manager.Step, Arrives, Navigated, JustOver;
    var w := Manager.Run(INIT, events);
    var w0 := Taken(w, t);
    Ended(w0);
    Arrived(w0, t);
  }

  /** Between the commands of a batch, and at the end of any other operation. */
  lemma RunningGoes(events: seq<Manager.Event>, t: Turn, r: Reply)
    requires Answered(Manager.Run(INIT, events), t) && (t.stage.Running? || t.stage.Probing? || t.stage.Listing?)
    ensures var w := Manager.Run(INIT, events); var w1 := Manager.Step(w, ResumeTurn(r)); var w0 := Taken(w, t);
            if t.stage.Probing? then JustAt(w0, t.(stage := if r.ok then Gate else Top), w1)
            else if t.stage.Running? && t.kind.Batch? then JustAt(w0, t.(stage := Top), w1)
            else JustOver(w0, w1)
  {
    TurnResumes(events, t, r);
    hide Manager.Run, Manager.Step, JustOver;
    Ended(Taken(Manager.Run(INIT, events), t));
  }

  /** With a password the current session is closed, its claims are dropped, and a new session is connected. */
  lemma PasswordGoes(w: World, r: Reply)
    requires w.turn.Some? && w.turn.value.stage.Password?
    ensures var w1 := Manager.Step(w, ResumeTurn(r)); var t := w.turn.value;
            if !r.ok then JustOver(w, w1)
            else w1 == w.(sessions := Closed(w, r.notified) + [CONNECTED], cur := Some(|w.sessions|),
                          activeJob := None, stoppingJob := None,
                          turn := Some(t.(stage := Opening(t.stage.next), sid := |w.sessions|)))
  {
    hide CloseCurrent, Closed, JustOver;
    Ended(w);
    ClosingGoes(w, r.notified);
    ClosedCount(w, r.notified);
  }

  lemma ClosedCount(w: World, notified: bool)
    ensures |Closed(w, notified)| == |w.sessions|
  {
    hide Session.Step;
  }

  lemma SessionsAreKnown(events: seq<Manager.Event>, t: Turn)
    requires Manager.Run(INIT, events).turn == Some(t) && Located(t.stage)
    ensures var w := Manager.Run(INIT, events); Valid(w, t.sid) && Valid(w, t.origin)
    ensures !Awaits(t.stage) ==> AllIdle(Manager.Run(INIT, events))
  {
    hide Manager.Run, Base;
    WorldRunKeeps(events);
  }

  function WokenAt(t: Turn, now: int): Option<Retry> {
    if t.retry.Some? then Some(Retry(t.retry.value.until, Some(now))) else None
  }

  /** The second attempt navigates again, with the session it was called with. */
  lemma SleepingGoes(events: seq<Manager.Event>, t: Turn, r: Reply)
    requires Manager.Run(INIT, events).turn == Some(t) && t.stage.Sleeping?
    ensures var w := Manager.Run(INIT, events); var w1 := Manager.Step(w, ResumeTurn(r));
            Valid(w, t.origin) && Navigates(w, t.(sid := t.origin, retry := WokenAt(t, r.now)), r.now, w1)
  {
    SessionsAreKnown(events, t);
    hide Manager.Run, Navigate, Navigates;
    NavigationGoes(Manager.Run(INIT, events), t.(sid := t.origin, retry := WokenAt(t, r.now)), r.now);
  }

  /** Behind w the history has one entry more, or none. */
  predicate Extends(w: World, w1: World) { |w1.typed| <= |w.typed| + 1 && w.typed <= w1.typed }

  /**
   * The next command of a batch: only while the session is still bound to the target. Its existence probe, if there is
   * one, is an exec of its own; otherwise the gate comes at once.
   */
  lemma TopGoes(events: seq<Manager.Event>, t: Turn, r: Reply)
    requires Manager.Run(INIT, events).turn == Some(t) && t.stage.Top?
    ensures var w := Manager.Run(INIT, events); var w1 := Manager.Step(w, ResumeTurn(r));
            Valid(w, t.sid) && t.kind.Batch? &&
            var s := w.sessions[t.sid];
            if !r.ok || s.currentTarget != Some(t.kind.target) then JustOver(w, w1)
            else if !r.configured then JustAt(w, t.(stage := Gate), w1)
            else Extends(w, w1) && Awaiting(w.(typed := w1.typed), t.sid, Session.Step(s, BeginExec(r.threw)),
                                            t.(stage := Probing), w1)
  {
    SessionsAreKnown(events, t);
    assert t.kind.Batch? by { hide Manager.Run; WorldRunKeeps(events); }
    hide Manager.Run, Execute, JustOver, Awaiting, Extends, Session.Step;
    Ended(Manager.Run(INIT, events));
    ExecGoes(Manager.Run(INIT, events), t, Probing, r.threw);
  }

  /** session.exec is called: one more entry in the history at most, and the turn waits. */
  lemma ExecGoes(w: World, t: Turn, stage: Stage, threw: bool)
    requires Valid(w, t.sid) && w.sessions[t.sid].op.Idle?
    ensures var w1 := Execute(w, t, stage, threw);
            Extends(w, w1) && Awaiting(w.(typed := w1.typed), t.sid,
                                       Session.Step(w.sessions[t.sid], BeginExec(threw)), t.(stage := stage), w1)
  {
    hide ExecBegin, Advance;
  }

  // ----- the first segment -----

  /** What the queue admits, and what it does first; an operation that is refused at once changes nothing. */
  lemma TurnBegins(events: seq<Manager.Event>, kind: Kind, configured: bool, notified: bool, now: int, threw: bool)
    requires Manager.Run(INIT, events).turn.None?
    ensures var w := Manager.Run(INIT, events); var t := Turn(kind, Top, 0, 0, 0, 0, None);
            var w1 := Manager.Step(w, BeginTurn(kind, configured, notified, now, threw));
            match kind
            case Connect => Connects(w, t, ToFinish, configured, now, w1)
            case ListAssets => Connects(w, t, ToNavigate, configured, now, w1)
            case RunCommand(_, _) => if configured then Connects(w, t, ToNavigate, configured, now, w1) else w1 == w
            case Batch(_, _) => if configured then Connects(w, t, ToNavigate, configured, now, w1) else w1 == w
            case StartJob(_, _, _) =>
              if configured && Claimless(w) then Connects(w, t, ToNavigate, configured, now, w1) else w1 == w
            case _ => OnCurrent(w, kind, notified, now, threw, w1)
  {
    hide Manager.Run, ConnectLocked, Connects, EnterBegin, Navigate, CloseCurrent, Execute, LeaveBegin;
    BeginIsIdle(events);
    var w := Manager.Run(INIT, events);
    ConnectGoes(w, NewTurn(kind, 0), ToFinish, configured, now);
    ConnectGoes(w, NewTurn(kind, 0), ToNavigate, configured, now);
    if kind.EnterAsset? || kind.Exec? || kind.LeaveAsset? || kind.CloseSession? {
      OnCurrentGoes(w, kind, configured, notified, now, threw);
    }
  }

  lemma BeginIsIdle(events: seq<Manager.Event>)
    requires Manager.Run(INIT, events).turn.None?
    ensures AllIdle(Manager.Run(INIT, events))
  {
    hide Manager.Run, Base;
    WorldRunKeeps(events);
  }

  /** The operations that need a live session at once, and close. */
  predicate OnCurrent(w: World, kind: Kind, notified: bool, now: int, threw: bool, w1: World)
    requires kind.EnterAsset? || kind.Exec? || kind.LeaveAsset? || kind.CloseSession?
  {
    if kind.CloseSession? then
      w1 == w.(sessions := Closed(w, notified), cur := None, activeJob := None, stoppingJob := None)
    else if !HasLive(w) then w1 == w
    else
      var sid, s := w.cur.value, w.sessions[w.cur.value];
      var t := Turn(kind, Top, sid, sid, 0, 0, None);
      match kind
      case EnterAsset(_, _) => Navigates(w, t, now, w1)
      case Exec =>
        if s.life.state == ASSET_SHELL && Claimless(w)
        then Extends(w, w1) &&
             Awaiting(w.(typed := w1.typed), sid, Session.Step(s, BeginExec(threw)), t.(stage := Running), w1)
        else w1 == w
      case LeaveAsset => Awaiting(w, sid, Session.Step(s, BeginLeave), t.(stage := Leaving), w1)
  }

  lemma OnCurrentGoes(w: World, kind: Kind, configured: bool, notified: bool, now: int, threw: bool)
    requires AllIdle(w) && w.turn.None?
    requires kind.EnterAsset? || kind.Exec? || kind.LeaveAsset? || kind.CloseSession?
    ensures OnCurrent(w, kind, notified, now, threw, Begin(w, kind, configured, notified, now, threw))
  {
    hide CloseCurrent, Closed, Navigate, Navigates, LeaveBegin, Execute, Extends, Advance, ConnectLocked;
    match kind
    case CloseSession =>
      ClosingGoes(ReleasePty(w), notified);
      ClosedAlike(w, ReleasePty(w), notified);
    case EnterAsset(_, _) => if LiveCurrent(w) { NavigationGoes(w, NewTurn(kind, w.cur.value), now); }
    case Exec => if LiveCurrent(w) { ExecGoes(w, NewTurn(kind, w.cur.value), Running, threw); }
    case _ =>
  }

  lemma ClosedAlike(w: World, w0: World, notified: bool)
    requires w0.sessions == w.sessions && w0.cur == w.cur
    ensures Closed(w0, notified) == Closed(w, notified)
  {
    hide Session.Step;
  }

  // ----- out of band -----

  /** Ctrl+C in a session, if it has an open wire that takes it. */
  function Interrupted(s: Sess, threw: bool): Sess {
    if Gone(s) || threw then s else s.(writes := s.writes + [CtrlC(true)])
  }

  function ProgressOf(s: Sess, threw: bool): Progress { if Gone(s) || threw then Unsent else Verifying }

  /** interrupt: nothing without a live session; else one Ctrl+C, and no claim changes before its probe resolved. */
  lemma InterruptGoes(w: World, threw: bool)
    ensures var w1 := Manager.Step(w, Interrupt(threw));
            if !HasLive(w) then w1 == w
            else
              var sid, s := w.cur.value, w.sessions[w.cur.value];
              w1 == w.(sessions := w.sessions[sid := Interrupted(s, threw)],
                       oob := w.oob + [OutOfBand(sid, None, ProgressOf(s, threw), |w.typed|)])
  {
  }

  /**
   * stopJob: refused, without a trace, exactly while another job owns the PTY or this very stop is in flight. With no
   * session at all both claims end at once; otherwise the stop is on record, and one Ctrl+C is sent.
   */
  lemma StopGoes(w: World, job: string, threw: bool)
    requires w.cur.Some? ==> Valid(w, w.cur.value)
    ensures var w1 := Manager.Step(w, StopJob(job, threw));
            if (w.activeJob.Some? && w.activeJob.value != job) || w.stoppingJob == Some(job) then w1 == w
            else if w.cur.None? then w1 == w.(activeJob := None, stoppingJob := None)
            else
              var sid, s := w.cur.value, w.sessions[w.cur.value];
              w1 == w.(stoppingJob := Some(job), sessions := w.sessions[sid := Interrupted(s, threw)],
                       oob := w.oob + [OutOfBand(sid, Some(job), ProgressOf(s, threw), |w.typed|)])
  {
  }

  /** Output, a dial, a poll and the next exit reach any known session at any time, and no claim or turn with it. */
  lemma SessionGoes(w: World, sid: nat, e: Session.Event)
    requires Valid(w, sid) && (e.Data? || e.Dialed? || e.Poll? || e.Resend?)
    ensures Manager.Step(w, OnSession(sid, e)) == w.(sessions := w.sessions[sid := Session.Step(w.sessions[sid], e)])
  {
    hide Session.Step;
  }

  /** The probe of a verification goes to the session it began with, while it is still out. */
  lemma ProbeGoes(w: World, i: nat)
    requires i < |w.oob| && Valid(w, w.oob[i].sid)
    ensures var s := w.sessions[w.oob[i].sid];
            Manager.Step(w, ProbeAsked(i)) ==
            if !w.oob[i].progress.Verifying? || Gone(s) then w
            else w.(sessions := w.sessions[w.oob[i].sid := s.(writes := s.writes + [Probe])])
  {
    hide Advance;
  }

  /** The verdict of a probe reaches the session it was sent to, once. */
  lemma VerdictGoes(w: World, i: nat, verified: bool)
    requires i < |w.oob| && Valid(w, w.oob[i].sid)
    ensures var w1 := Manager.Step(w, Resolved(i, verified)); var c := w.oob[i];
            if !c.progress.Verifying? then w1 == w
            else w1 == w.(sessions := w.sessions[c.sid := Session.Step(w.sessions[c.sid], Verification(verified))],
                          oob := w.oob[i := c.(progress := Applied(verified))])
  {
    hide ApplyVerification, Advance;
  }

  /**
   * The end of an interrupt drops activeJob and nothing else; the end of a stop applies its verdict once more (not
   * verified when no Ctrl+C was sent) and drops both claims.
   */
  lemma ConclusionGoes(w: World, i: nat)
    requires i < |w.oob| && Valid(w, w.oob[i].sid)
    ensures var w1 := Manager.Step(w, Concluded(i)); var c := w.oob[i];
            if c.progress.Verifying? then w1 == w
            else if c.job.None? then w1 == w.(oob := w.oob[..i] + w.oob[i + 1..], activeJob := None)
            else w1 == w.(oob := w.oob[..i] + w.oob[i + 1..], activeJob := None, stoppingJob := None,
                          sessions := w.sessions[c.sid := Session.Step(w.sessions[c.sid],
                                                                       Verification(c.progress == Applied(true)))])
  {
    hide ApplyVerification, Advance;
  }

  /** A lost wire drops both claims, whichever session reports it, unless the manager is disposed. */
  lemma LossGoes(w: World, sid: nat)
    requires Valid(w, sid)
    ensures var w1 := Manager.Step(w, SessionLost(sid));
            w1 == w.(sessions := w.sessions[sid := Session.Step(w.sessions[sid], WireClosed)],
                     activeJob := if w.disposed then w.activeJob else None,
                     stoppingJob := if w.disposed then w.stoppingJob else None)
  {
    hide OnWireClose, Advance;
  }

  /** Disposal closes and forgets the current session; the claims stay, since losses no longer count. */
  lemma DisposalGoes(w: World, notified: bool)
    ensures Manager.Step(w, DisposeManager(notified)) == w.(sessions := Closed(w, notified), cur := None,
                                                            disposed := true)
  {
    hide Close, Advance;
  }
}
