/**
 * The session manager (src/jumpserver/session-manager.ts) as a step system: one queue turn at a time
 * (the queue itself is proved in Gates.dfy), any number of out-of-band interrupts and job stops, and
 * every session object ever created. A turn is suspended at each await; resuming it runs one segment.
 */
module Manager {
  import opened Basics
  import opened StateMachine
  import opened Detector
  import opened Session

  datatype Kind =
    | Connect
    | EnterAsset(target: string, account: Option<int>)
    | Exec
    | RunCommand(target: string, account: Option<int>)
    | Batch(target: string, account: Option<int>)
    | StartJob(job: string, target: string, account: Option<int>)
    | LeaveAsset
    | CloseSession
    | ListAssets

  /** Where connectLocked returns to. */
  datatype After = ToFinish | ToNavigate | ToHealed

  /** What the turn is waiting for. */
  datatype Stage =
    | Password(next: After)  // resolvePassword
    | Opening(next: After)   // session.connect
    | Leaving                // session.leave
    | Entering               // session.enter
    | Sleeping               // the delay before the second navigation
    | Top                    // batch: between two commands
    | Probing                // batch: the existence probe
    | Gate                   // beforeExec
    | Running                // session.exec
    | Listing                // session.listAssets

  /** Set when the first navigation was refused as unreachable after it dialed. */
  datatype Retry = Retry(until: Option<int>, wokeAt: Option<int>)

  datatype Turn = Turn(
    kind: Kind,
    stage: Stage,
    sid: nat,              // the local variable `session`
    origin: nat,           // the session navigateWithRetry was called with
    attempt: nat,
    dials: nat,            // target lines typed by this turn
    retry: Option<Retry>)

  datatype Progress = Verifying | Unsent | Applied(verified: bool)

  /** An interrupt (job.None?) or a job stop in flight; `born`: how much had been typed when it began. */
  datatype OutOfBand = OutOfBand(sid: nat, job: Option<string>, progress: Progress, born: nat)

  /** What was known when a command script or a job line went to the wire; `claimed`: activeJob at that moment. */
  datatype Typed =
    | CommandScript(want: Option<string>, state: SessionState, onTarget: Option<string>, addresses: seq<string>,
                    claimed: Option<string>, overlapped: bool)
    | JobCommand(job: string, target: string, state: SessionState, onTarget: Option<string>, addresses: seq<string>,
                 claimed: Option<string>, overlapped: bool)

  datatype World = World(
    sessions: seq<Sess>,
    cur: Option<nat>,             // this.session
    activeJob: Option<string>,
    stoppingJob: Option<string>,
    disposed: bool,
    turn: Option<Turn>,
    oob: seq<OutOfBand>,
    typed: seq<Typed>,            // history
    finished: seq<Turn>)          // history: the turns that ended

  const INIT: World := World([], None, None, None, false, None, [], [], [])

  predicate Valid(w: World, sid: nat) { sid < |w.sessions| }

  function Update(w: World, sid: nat, s: Sess): World
    requires Valid(w, sid)
  {
    w.(sessions := w.sessions[sid := s])
  }

  // ----- PTY ownership -----

  predicate NoActiveJob(w: World) { w.stoppingJob.None? && w.activeJob.None? }

  function ReleasePty(w: World): World { w.(activeJob := None, stoppingJob := None) }

  /** onSessionLost; any session object reports here, the current one or a stale one. */
  function OnSessionLost(w: World): World { if w.disposed then w else ReleasePty(w) }

  // ----- turns -----

  function Finish(w: World): World {
    match w.turn
    case None => w
    case Some(t) => w.(turn := None, finished := w.finished + [t])
  }

  function At(w: World, t: Turn, stage: Stage): World { w.(turn := Some(t.(stage := stage))) }

  predicate LiveCurrent(w: World) { w.cur.Some? && Valid(w, w.cur.value) && Live(w.sessions[w.cur.value].life.state) }

  function TargetOf(k: Kind): string {
    match k
    case EnterAsset(target, _) => target
    case RunCommand(target, _) => target
    case Batch(target, _) => target
    case StartJob(_, target, _) => target
    case _ => ""
  }

  function AccountOf(k: Kind): Option<int> {
    match k
    case EnterAsset(_, account) => account
    case RunCommand(_, account) => account
    case Batch(_, account) => account
    case StartJob(_, _, account) => account
    case _ => None
  }

  /** assertTargetBinding. */
  predicate BoundTo(s: Sess, target: string) { s.currentTarget == Some(target) }

  /** What follows a successful navigation. */
  function Navigated(w: World, t: Turn): World {
    match t.kind
    case RunCommand(target, _) =>
      if Valid(w, t.sid) && BoundTo(w.sessions[t.sid], target) then At(w, t, Gate) else Finish(w)
    case Batch(target, _) =>
      if Valid(w, t.sid) && BoundTo(w.sessions[t.sid], target) then At(w, t, Top) else Finish(w)
    case StartJob(_, _, _) => At(w, t, Gate)
    case _ => Finish(w)
  }

  /** Call session.enter. */
  function Enter(w: World, t: Turn, now: int): World
    requires Valid(w, t.sid)
  {
    var s := w.sessions[t.sid];
    var s1 := EnterBegin(s, TargetOf(t.kind), AccountOf(t.kind), now);
    var dialed := if s1.writes == s.writes then 0 else 1;
    Update(w, t.sid, s1).(turn := Some(t.(stage := Entering, dials := t.dials + dialed)))
  }

  /** navigateToTarget from the point where no asset is left to leave. */
  function EnterIfAllowed(w: World, t: Turn, now: int): World
    requires Valid(w, t.sid)
  {
    var s := w.sessions[t.sid];
    if t.kind.EnterAsset? || CanResume(s, TargetOf(t.kind), AccountOf(t.kind)) || s.life.state == JUMPSERVER_MENU
    then Enter(w, t, now) else Finish(w)
  }

  /** navigateToTarget (for a plain enter: the same decisions, made by SessionManager.enter). */
  function Navigate(w: World, t: Turn, now: int): World
    requires Valid(w, t.sid)
  {
    var s := w.sessions[t.sid];
    if s.life.state == ASSET_SHELL && BoundTo(s, TargetOf(t.kind)) then Navigated(w, t)
    else if s.life.state == ASSET_SHELL then Update(w, t.sid, LeaveBegin(s)).(turn := Some(t.(stage := Leaving)))
    else EnterIfAllowed(w, t, now)
  }

  /** After connectLocked succeeded: read this.session back and go on. */
  function AfterConnect(w: World, t: Turn, next: After, now: int): World {
    if next.ToFinish? || !LiveCurrent(w) then Finish(w)
    else
      var sid := w.cur.value;
      var here := t.(sid := sid, origin := if next.ToHealed? then t.origin else sid);
      var s := w.sessions[sid];
      if next.ToHealed? then
        if s.life.state != JUMPSERVER_MENU || t.kind.LeaveAsset? then Finish(w) else EnterIfAllowed(w, here, now)
      else if t.kind.ListAssets? then Update(w, sid, ListBegin(s)).(turn := Some(here.(stage := Listing)))
      else if !t.kind.StartJob? && !NoActiveJob(w) then Finish(w)
      else Navigate(w, here, now)
  }

  /** connectLocked up to the password; `configured`: enabled, with host, user and port. */
  function ConnectLocked(w: World, t: Turn, next: After, configured: bool, now: int): World {
    if LiveCurrent(w) then AfterConnect(w, t, next, now)
    else if w.disposed || !configured then Finish(w)
    else At(w, t, Password(next))
  }

  /** connectLocked with the password at hand: close what was there, release the PTY, open a new session. */
  function Open(w: World, t: Turn, next: After, notified: bool): World {
    var closed := CloseCurrent(w, notified);
    var sid := |closed.sessions|;
    ReleasePty(closed).(sessions := closed.sessions + [CONNECTED], cur := Some(sid),
                        turn := Some(t.(stage := Opening(next), sid := sid)))
  }

  /** Close this.session if there is one; its close callback may report a loss. */
  function CloseCurrent(w: World, notified: bool): World {
    if w.cur.Some? && Valid(w, w.cur.value) then
      OnSessionLost(Update(w, w.cur.value, Close(w.sessions[w.cur.value], notified)))
    else w
  }

  /** leaveAndRecover after MENU_RETURN_FAILED. */
  function Heal(w: World, t: Turn, configured: bool, notified: bool): World {
    var dropped := ReleasePty(CloseCurrent(w, notified)).(cur := None);
    if dropped.disposed || !configured then Finish(dropped) else At(dropped, t, Password(ToHealed))
  }

  /** Call session.exec and record what went to the wire. */
  function Execute(w: World, t: Turn, stage: Stage, threw: bool): World
    requires Valid(w, t.sid)
  {
    var s := w.sessions[t.sid];
    var s1 := ExecBegin(s, threw);
    var want := if t.kind.Exec? then None else Some(TargetOf(t.kind));
    var w1 := Update(w, t.sid, s1).(turn := Some(t.(stage := stage)));
    if s1.writes == s.writes then w1
    else
      var script := CommandScript(want, s1.life.state, s1.currentTarget, s1.currentIps, w.activeJob, s1.overlapped);
      w1.(typed := w.typed + [script])
  }

  /** The end of startJob: write the raw line, then claim the PTY. */
  function StartStreaming(w: World, t: Turn): World
    requires Valid(w, t.sid) && t.kind.StartJob?
  {
    var s := w.sessions[t.sid];
    if Gone(s) then Finish(w)
    else
      Finish(Update(w, t.sid, WriteJobLine(s)))
        .(activeJob := Some(t.kind.job), typed := w.typed + [JobLineOf(w, t)])
  }

  function JobLineOf(w: World, t: Turn): Typed
    requires Valid(w, t.sid) && t.kind.StartJob?
  {
    var s := w.sessions[t.sid];
    JobCommand(t.kind.job, t.kind.target, s.life.state, s.currentTarget, s.currentIps, w.activeJob, s.overlapped)
  }

  function NewTurn(kind: Kind, sid: nat): Turn { Turn(kind, Top, sid, sid, 0, 0, None) }

  /** The queue admits a turn: the first segment of its operation. */
  function Begin(w: World, kind: Kind, configured: bool, notified: bool, now: int, threw: bool): World
    requires w.turn.None?
  {
    match kind
    case Connect => ConnectLocked(w, NewTurn(kind, 0), ToFinish, configured, now)
    case RunCommand(_, _) => if configured then ConnectLocked(w, NewTurn(kind, 0), ToNavigate, configured, now) else w
    case Batch(_, _) => if configured then ConnectLocked(w, NewTurn(kind, 0), ToNavigate, configured, now) else w
    case ListAssets => ConnectLocked(w, NewTurn(kind, 0), ToNavigate, configured, now)
    case StartJob(_, _, _) =>
      if NoActiveJob(w) && configured then ConnectLocked(w, NewTurn(kind, 0), ToNavigate, configured, now) else w
    case EnterAsset(_, _) =>
      if LiveCurrent(w) then Navigate(w, NewTurn(kind, w.cur.value), now) else w
    case Exec =>
      if LiveCurrent(w) && NoActiveJob(w) && w.sessions[w.cur.value].life.state == ASSET_SHELL
      then Execute(w, NewTurn(kind, w.cur.value), Running, threw) else w
    case LeaveAsset =>
      if LiveCurrent(w) then
        Update(w, w.cur.value, LeaveBegin(w.sessions[w.cur.value]))
          .(turn := Some(NewTurn(kind, w.cur.value).(stage := Leaving)))
      else w
    case CloseSession => CloseCurrent(ReleasePty(w), notified).(cur := None)
  }

  predicate Transient(code: ErrorCode) { code == ASSET_UNREACHABLE || code == ASSET_ENTER_TIMEOUT }

  predicate Retries(kind: Kind) { kind.RunCommand? || kind.Batch? || kind.StartJob? }

  /** session.enter returned. */
  function AfterEnter(w: World, t: Turn, outcome: Outcome): World {
    if !outcome.Failed? then Navigated(w, t)
    else if Retries(t.kind) && t.attempt == 0 && Transient(outcome.code) then
      var until := if Valid(w, t.sid) && TargetOf(t.kind) in w.sessions[t.sid].unreachable
                   then Some(w.sessions[t.sid].unreachable[TargetOf(t.kind)]) else None;
      var refused := if outcome.code == ASSET_UNREACHABLE && t.dials > 0 then Some(Retry(until, None)) else None;
      At(w, t.(attempt := 1, retry := refused), Sleeping)
    else Finish(w)
  }

  /** What the resumed segment reads: an answer of the outside, the settings, the clock, a throwing write. */
  datatype Reply = Reply(ok: bool, configured: bool, notified: bool, now: int, threw: bool)

  /** The operation the turn awaits on its session has returned. */
  function AfterOperation(w: World, t: Turn, outcome: Outcome, r: Reply): World {
    match t.stage
    case Opening(next) =>
      if outcome.Failed? then Finish(if w.cur == Some(t.sid) then w.(cur := None) else w)
      else AfterConnect(w, t, next, r.now)
    case Leaving =>
      if outcome == Succeeded then
        if t.kind.LeaveAsset? || !Valid(w, t.sid) then Finish(w)
        else if !t.kind.EnterAsset? && w.sessions[t.sid].life.state != JUMPSERVER_MENU then Finish(w)
        else EnterIfAllowed(w, t, r.now)
      else if outcome == Failed(MENU_RETURN_FAILED) then Heal(w, t, r.configured, r.notified)
      else Finish(w)
    case Entering => AfterEnter(w, t, outcome)
    case Probing => if r.ok then At(w, t, Gate) else At(w, t, Top)
    case Running => if t.kind.Batch? then At(w, t, Top) else Finish(w)
    case _ => Finish(w)
  }

  predicate Awaits(stage: Stage) {
    stage.Opening? || stage.Leaving? || stage.Entering? || stage.Probing? || stage.Running? || stage.Listing?
  }

  /** beforeExec settled. */
  function AfterGate(w: World, t: Turn, ok: bool, threw: bool): World
    requires Valid(w, t.sid)
  {
    if !ok then if t.kind.Batch? then At(w, t, Top) else Finish(w)
    else if t.kind.StartJob? then StartStreaming(w, t)
    else Execute(w, t, Running, threw)
  }

  /** One segment of the suspended turn. */
  function Resume(w: World, t: Turn, r: Reply): World
    requires w.turn == Some(t)
  {
    if !Valid(w, t.sid) && !t.stage.Password? then w
    else if Awaits(t.stage) then
      var s := w.sessions[t.sid];
      if s.op.Returned? then AfterOperation(Update(w, t.sid, s.(op := Idle)), t, s.op.outcome, r) else w
    else
      match t.stage
      case Password(next) => if r.ok then Open(w, t, next, r.notified) else Finish(w)
      case Sleeping =>
        if Valid(w, t.origin) then
          var woken := if t.retry.Some? then Some(t.retry.value.(wokeAt := Some(r.now))) else None;
          Navigate(w, t.(sid := t.origin, retry := woken), r.now)
        else w
      case Top =>
        // The next command: its binding is checked again; a probe or the gate comes first.
        if t.kind.Batch? && BoundTo(w.sessions[t.sid], t.kind.target) && r.ok then
          if r.configured then Execute(w, t, Probing, r.threw) else At(w, t, Gate)
        else Finish(w)
      case Gate => AfterGate(w, t, r.ok, r.threw)
      case _ => w
  }

  // ----- out of band -----

  function Without<T>(s: seq<T>, i: nat): seq<T>
    requires i < |s|
  {
    s[..i] + s[i + 1..]
  }

  /** SessionManager.interrupt; `threw`: writing its Ctrl+C throws, and sendInterrupt reports it as not sent. */
  function BeginInterrupt(w: World, threw: bool): World {
    if LiveCurrent(w) then
      var sid := w.cur.value;
      var s := w.sessions[sid];
      if CanInterrupt(s) && !threw
      then Update(w, sid, Put(s, CtrlC(true))).(oob := w.oob + [OutOfBand(sid, None, Verifying, |w.typed|)])
      else w.(oob := w.oob + [OutOfBand(sid, None, Unsent, |w.typed|)])
    else w
  }

  /** SessionManager.stopJob up to the verification. */
  function BeginStop(w: World, job: string, threw: bool): World {
    if (w.activeJob.Some? && w.activeJob != Some(job)) || w.stoppingJob == Some(job) then w
    else if w.cur.Some? && Valid(w, w.cur.value) then
      var sid := w.cur.value;
      var s := w.sessions[sid];
      var w1 := w.(stoppingJob := Some(job));
      if CanInterrupt(s) && !threw
      then Update(w1, sid, Put(s, CtrlC(true))).(oob := w.oob + [OutOfBand(sid, Some(job), Verifying, |w.typed|)])
      else w1.(oob := w.oob + [OutOfBand(sid, Some(job), Unsent, |w.typed|)])
    else ReleasePty(w)
  }

  /** The probe of verification i resolved. */
  function Verdict(w: World, i: nat, verified: bool): World
    requires i < |w.oob|
  {
    var c := w.oob[i];
    if c.progress.Verifying? && Valid(w, c.sid) then
      Update(w, c.sid, ApplyVerification(w.sessions[c.sid], verified))
        .(oob := w.oob[i := c.(progress := Applied(verified))])
    else w
  }

  /** The caller of verification i goes on: a stop applies the verdict once more and drops every claim. */
  function Conclude(w: World, i: nat): World
    requires i < |w.oob|
  {
    var c := w.oob[i];
    if c.progress.Verifying? || !Valid(w, c.sid) then w
    else
      var rest := w.(oob := Without(w.oob, i));
      if c.job.None? then rest.(activeJob := None)
      else
        var verified := c.progress.Applied? && c.progress.verified;
        ReleasePty(Update(rest, c.sid, ApplyVerification(w.sessions[c.sid], verified)))
  }

  function Dispose(w: World, notified: bool): World {
    CloseCurrent(w.(disposed := true), notified).(cur := None)
  }

  // ----- all interleavings -----

  datatype Event =
    | BeginTurn(kind: Kind, configured: bool, notified: bool, now: int, threw: bool)
    | ResumeTurn(reply: Reply)
    | OnSession(sid: nat, e: Session.Event)   // output, a dial, or a poll of the operation in flight
    | SessionLost(sid: nat)
    | Interrupt(threw: bool)
    | StopJob(job: string, threw: bool)
    | ProbeAsked(i: nat)
    | Resolved(i: nat, verified: bool)
    | Concluded(i: nat)
    | DisposeManager(notified: bool)

  /** Session events that are not driven by the manager. */
  predicate Autonomous(e: Session.Event) { e.Data? || e.Dialed? || e.Poll? || e.Resend? }

  function Step(w: World, e: Event): World {
    match e
    case BeginTurn(kind, configured, notified, now, threw) =>
      if w.turn.None? then Begin(w, kind, configured, notified, now, threw) else w
    case ResumeTurn(reply) => if w.turn.Some? then Resume(w, w.turn.value, reply) else w
    case OnSession(sid, e) =>
      if Valid(w, sid) && Autonomous(e) then Update(w, sid, Session.Step(w.sessions[sid], e)) else w
    case SessionLost(sid) =>
      if Valid(w, sid) then OnSessionLost(Update(w, sid, Session.Step(w.sessions[sid], WireClosed))) else w
    case Interrupt(threw) => BeginInterrupt(w, threw)
    case StopJob(job, threw) => BeginStop(w, job, threw)
    case ProbeAsked(i) =>
      if i < |w.oob| && Valid(w, w.oob[i].sid) && w.oob[i].progress.Verifying?
      then Update(w, w.oob[i].sid, Session.Step(w.sessions[w.oob[i].sid], ProbeWrite)) else w
    case Resolved(i, verified) => if i < |w.oob| then Verdict(w, i, verified) else w
    case Concluded(i) => if i < |w.oob| then Conclude(w, i) else w
    case DisposeManager(notified) => Dispose(w, notified)
  }

  function Run(w: World, events: seq<Event>): World
    decreases |events|
  {
    if events == [] then w else Step(Run(w, events[..|events| - 1]), events[|events| - 1])
  }
}
