/**
 * The gate (beforeExec) of run, batch and startJob in session-manager.ts: what its answer decides, and that
 * nothing is typed for these operations but through it. Everything is said of steps and runs of the manager.
 */
module ManagerGate {
  import opened Basics
  import opened StateMachine
  import opened Session
  import opened SessionProofs
  import opened SessionTheorems
  import opened Manager
  import opened ManagerProofs

  /** The turn in flight waits for its gate to answer. */
  predicate AtGate(w: World) { w.turn.Some? && w.turn.value.stage.Gate? }

  // ----- the answer -----

  /** The turn in flight is over. */
  predicate Over(w: World, w1: World) { w.turn.Some? && w1.turn.None? && w1.finished == w.finished + [w.turn.value] }

  /** In every run the session of a turn at its gate exists, with no operation in flight. */
  lemma GateIsReady(events: seq<Manager.Event>)
    requires AtGate(Manager.Run(INIT, events))
    ensures var w := Manager.Run(INIT, events);
            var t := w.turn.value;
            Valid(w, t.sid) && w.sessions[t.sid].op.Idle? && Retries(t.kind) && NoJob(w)
  {
    WorldRunKeeps(events);
    hide Manager.Run, Inv;
  }

  predicate NoJob(w: World) { w.activeJob.None? }

  /**
   * A gate that refuses: nothing is typed, no session is touched, no claim changes. A run or startJob turn is over,
   * a batch goes on to its next command.
   */
  lemma RefusedGateTypesNothing(events: seq<Manager.Event>, reply: Reply)
    requires AtGate(Manager.Run(INIT, events)) && !reply.ok
    ensures var w := Manager.Run(INIT, events); var w1 := Manager.Step(w, ResumeTurn(reply));
            w1 == w.(turn := w1.turn, finished := w1.finished) &&
            if w.turn.value.kind.Batch? then w1.turn == Some(w.turn.value.(stage := Top)) && w1.finished == w.finished
            else Over(w, w1)
  {
    GateIsReady(events);
    hide Manager.Run, Execute, StartStreaming;
  }

  /** The command can be typed: a shell, an open wire, and a write that does not throw. */
  predicate CanType(s: Sess, kind: Kind, threw: bool) {
    !Gone(s) && (kind.StartJob? || (s.life.state == ASSET_SHELL && !threw))
  }

  /** What goes to the wire. */
  function LineOf(s: Sess, kind: Kind): Write {
    if kind.StartJob? then JobLine else Script(s.currentTarget, s.currentIps)
  }

  /** What is remembered of it. */
  predicate TypedFor(x: Typed, s: Sess, kind: Kind) {
    x.onTarget == s.currentTarget && x.addresses == s.currentIps && x.overlapped == s.overlapped && x.claimed.None? &&
    if x.JobCommand? then kind.StartJob? && x.job == kind.job && x.target == kind.target && x.state == s.life.state
    else !kind.StartJob? && x.want == Some(TargetOf(kind)) && x.state == COMMAND_RUNNING
  }

  /**
   * A gate that allows: exactly one command is typed, into the turn's session and nowhere else, if and only if it
   * can be; and a job owns the PTY from then on exactly when its line was typed. A startJob turn is over, the others
   * wait for their command.
   */
  lemma AllowedGateTypesIff(events: seq<Manager.Event>, reply: Reply)
    requires AtGate(Manager.Run(INIT, events)) && reply.ok
    ensures var w := Manager.Run(INIT, events); var w1 := Manager.Step(w, ResumeTurn(reply));
            var t := w.turn.value;
            Valid(w, t.sid) && |w1.sessions| == |w.sessions| &&
            var s, s1 := w.sessions[t.sid], w1.sessions[t.sid];
            (forall k :: 0 <= k < |w.sessions| && k != t.sid ==> w1.sessions[k] == w.sessions[k]) &&
            (if CanType(s, t.kind, reply.threw)
             then s1.writes == s.writes + [LineOf(s, t.kind)] && |w1.typed| == |w.typed| + 1 &&
                  w1.typed[..|w.typed|] == w.typed && TypedFor(w1.typed[|w.typed|], s, t.kind)
             else s1.writes == s.writes && w1.typed == w.typed) &&
            w1.activeJob == (if t.kind.StartJob? && !Gone(s) then Some(t.kind.job) else None) &&
            if t.kind.StartJob? then Over(w, w1) else w1.turn == Some(t.(stage := Running)) && w1.finished == w.finished
  {
    GateIsReady(events);
    hide Manager.Run;
    var w := Manager.Run(INIT, events);
    var t := w.turn.value;
    ExecTypes(w.sessions[t.sid], reply.threw);
    hide ExecBegin, Move;
  }

  lemma ExecTypes(s: Sess, threw: bool)
    ensures var s1 := ExecBegin(s, threw);
            s1.currentTarget == s.currentTarget && s1.currentIps == s.currentIps && s1.overlapped == s.overlapped &&
            if s.life.state == ASSET_SHELL && !Gone(s) && !threw
            then s1.writes == s.writes + [Script(s.currentTarget, s.currentIps)] && s1.life.state == COMMAND_RUNNING
            else s1.writes == s.writes
  {
    assert s.life.state == ASSET_SHELL ==> Move(s.life, COMMAND_RUNNING).state == COMMAND_RUNNING;
    hide Move;
  }

  // ----- the history is what is on the wires -----

  predicate IsCommand(w: Write) { w.Script? || w.JobLine? }

  function CommandsOn(ws: seq<Write>): nat { |Filter(ws, IsCommand)| }

  /** The command scripts and job lines on the wires of all sessions there ever were. */
  function OnAllWires(sessions: seq<Sess>): nat {
    if sessions == [] then 0
    else OnAllWires(sessions[..|sessions| - 1]) + CommandsOn(sessions[|sessions| - 1].writes)
  }

  function OnWires(w: World): nat { OnAllWires(w.sessions) }

  lemma CommandsAppend(ws: seq<Write>, w: Write)
    ensures CommandsOn(ws + [w]) == CommandsOn(ws) + if IsCommand(w) then 1 else 0
  {
    FilterAppend(ws, [w], IsCommand);
    assert Filter([w], IsCommand) == if IsCommand(w) then [w] else [];
  }

  lemma {:induction false} OneSessionChanges(sessions: seq<Sess>, k: nat, s: Sess)
    requires k < |sessions|
    ensures OnAllWires(sessions[k := s]) ==
            OnAllWires(sessions) - CommandsOn(sessions[k].writes) + CommandsOn(s.writes)
    decreases |sessions|
  {
    hide CommandsOn;
    var n := |sessions| - 1;
    if k < n {
      assert sessions[k := s][..n] == sessions[..n][k := s];
      OneSessionChanges(sessions[..n], k, s);
    } else {
      assert sessions[k := s][..n] == sessions[..n];
    }
  }

  lemma OneSessionMore(sessions: seq<Sess>, s: Sess)
    requires s.writes == []
    ensures OnAllWires(sessions + [s]) == OnAllWires(sessions)
  {
    assert (sessions + [s])[..|sessions|] == sessions;
  }

  lemma QuietChanges(w: World, sid: nat, s: Sess)
    requires Valid(w, sid) && Quiet(w.sessions[sid], s)
    ensures OnWires(Update(w, sid, s)) == OnWires(w)
  {
    OneSessionChanges(w.sessions, sid, s);
    if s.writes != w.sessions[sid].writes { CommandsAppend(w.sessions[sid].writes, s.writes[|s.writes| - 1]); }
    hide CommandsOn, OnAllWires;
  }

  lemma CommandChanges(w: World, sid: nat, s: Sess, c: Write)
    requires Valid(w, sid) && s.writes == w.sessions[sid].writes + [c] && IsCommand(c)
    ensures OnWires(Update(w, sid, s)) == OnWires(w) + 1
  {
    OneSessionChanges(w.sessions, sid, s);
    CommandsAppend(w.sessions[sid].writes, c);
    hide CommandsOn, OnAllWires;
  }

  // ----- nothing is typed but through a gate -----

  /** A turn of this kind goes on, or is over, and nothing was typed. */
  predicate Onward(w: World, kind: Kind, w1: World) {
    w1.typed == w.typed && OnWires(w1) == OnWires(w) &&
    if w1.turn.Some? then w1.turn.value.kind == kind && w1.finished == w.finished
    else if w.turn.Some? then w1.finished == w.finished + [w.turn.value] else w1.finished == w.finished
  }

  predicate Runs(w: World, kind: Kind) { w.turn.Some? ==> w.turn.value.kind == kind }

  lemma EntryGoesOn(w: World, t: Turn, now: int)
    requires Valid(w, t.sid) && Runs(w, t.kind)
    ensures Onward(w, t.kind, EnterIfAllowed(w, t, now))
  {
    hide EnterBegin, CanResume, OnAllWires, Quiet;
    var s := w.sessions[t.sid];
    EnterBeginIsQuiet(s, TargetOf(t.kind), AccountOf(t.kind), now);
    QuietChanges(w, t.sid, EnterBegin(s, TargetOf(t.kind), AccountOf(t.kind), now));
  }

  lemma NavigationGoesOn(w: World, t: Turn, now: int)
    requires Valid(w, t.sid) && Runs(w, t.kind)
    ensures Onward(w, t.kind, EnterIfAllowed(w, t, now)) && Onward(w, t.kind, Navigate(w, t, now))
    ensures Onward(w, t.kind, Navigated(w, t))
  {
    hide EnterIfAllowed, LeaveBegin, OnAllWires, Quiet;
    EntryGoesOn(w, t, now);
    OtherBeginsAreQuiet(w.sessions[t.sid]);
    QuietChanges(w, t.sid, LeaveBegin(w.sessions[t.sid]));
  }

  lemma ConnectGoesOn(w: World, t: Turn, next: After, configured: bool, now: int)
    requires Runs(w, t.kind)
    ensures Onward(w, t.kind, AfterConnect(w, t, next, now))
    ensures Onward(w, t.kind, ConnectLocked(w, t, next, configured, now))
  {
    hide EnterIfAllowed, Navigate, ListBegin, OnAllWires;
    if LiveCurrent(w) {
      var here := t.(sid := w.cur.value, origin := if next.ToHealed? then t.origin else w.cur.value);
      NavigationGoesOn(w, here, now);
      OtherBeginsAreQuiet(w.sessions[w.cur.value]);
      hide Quiet;
      QuietChanges(w, w.cur.value, ListBegin(w.sessions[w.cur.value]));
    }
  }

  lemma ClosingGoesOn(w: World, t: Turn, next: After, configured: bool, notified: bool)
    requires w.turn.Some? && Runs(w, t.kind)
    ensures Onward(w, t.kind, Open(w, t, next, notified)) && Onward(w, t.kind, Heal(w, t, configured, notified))
  {
    hide CloseCurrent, OnAllWires;
    ClosingTypesNothing(w, notified);
    OneSessionMore(CloseCurrent(w, notified).sessions, CONNECTED);
  }

  /** Closing the current session leaves the turn and the history alone. */
  lemma ClosingTypesNothing(w: World, notified: bool)
    ensures var w1 := CloseCurrent(w, notified);
            w1.typed == w.typed && w1.turn == w.turn && w1.finished == w.finished && OnWires(w1) == OnWires(w)
  {
    hide Close, OnAllWires;
    if w.cur.Some? && Valid(w, w.cur.value) {
      var s := w.sessions[w.cur.value];
      EndsAreSilent(s, ABORTED, notified);
      QuietChanges(w, w.cur.value, Close(s, notified));
    }
  }

  lemma OperationGoesOn(w: World, t: Turn, outcome: Outcome, r: Reply)
    requires w.turn.Some? && Runs(w, t.kind) && Valid(w, t.sid)
    ensures var w1 := AfterOperation(w, t, outcome, r);
            Onward(w, t.kind, w1) && (t.stage.Running? && !t.kind.Batch? ==> w1.turn.None?)
  {
    hide AfterConnect, EnterIfAllowed, Navigated, Heal, AfterEnter, OnAllWires;
    match t.stage
    case Opening(next) => ConnectGoesOn(w, t, next, r.configured, r.now);
    case Leaving =>
      NavigationGoesOn(w, t, r.now);
      ClosingGoesOn(w, t, ToHealed, r.configured, r.notified);
    case Entering => EntryGoesOnward(w, t, outcome);
    case _ =>
  }

  lemma EntryGoesOnward(w: World, t: Turn, outcome: Outcome)
    requires w.turn.Some? && Runs(w, t.kind) && Valid(w, t.sid)
    ensures Onward(w, t.kind, AfterEnter(w, t, outcome))
  {
    hide OnAllWires;
  }

  /** One more command, in the history and on a wire. */
  predicate TypesOne(w: World, w1: World) {
    |w1.typed| == |w.typed| + 1 && w1.typed[..|w.typed|] == w.typed && OnWires(w1) == OnWires(w) + 1
  }

  predicate TypesNone(w: World, w1: World) { w1.typed == w.typed && OnWires(w1) == OnWires(w) }

  /** The segment behind an allowed gate. */
  predicate Allows(w: World, e: Manager.Event) { AtGate(w) && e.ResumeTurn? && e.reply.ok }

  /** The existence probe of a batch. */
  predicate ProbesFirst(w: World, e: Manager.Event) {
    e.ResumeTurn? && e.reply.ok && e.reply.configured && w.turn.Some? && w.turn.value.stage.Top? &&
    w.turn.value.kind.Batch?
  }

  /** exec() asked for by its caller, in a turn of its own. */
  predicate ExecAlone(w: World, e: Manager.Event) { e.BeginTurn? && e.kind.Exec? && w.turn.None? }

  lemma ExecuteTypes(w: World, t: Turn, stage: Stage, threw: bool)
    requires Valid(w, t.sid)
    ensures var w1 := Execute(w, t, stage, threw);
            w1.finished == w.finished && w1.turn == Some(t.(stage := stage)) && (TypesNone(w, w1) || TypesOne(w, w1))
  {
    hide ExecBegin, OnAllWires;
    var s := w.sessions[t.sid];
    var s1 := ExecBegin(s, threw);
    ExecTypes(s, threw);
    if s1.writes == s.writes {
      OneSessionChanges(w.sessions, t.sid, s1);
    } else {
      CommandChanges(w, t.sid, s1, Script(s.currentTarget, s.currentIps));
    }
  }

  lemma StreamingTypes(w: World, t: Turn)
    requires Valid(w, t.sid) && t.kind.StartJob? && w.turn == Some(t)
    ensures var w1 := StartStreaming(w, t); Over(w, w1) && (TypesNone(w, w1) || TypesOne(w, w1))
  {
    hide JobLineOf, OnAllWires;
    var s := w.sessions[t.sid];
    if !Gone(s) { CommandChanges(w, t.sid, WriteJobLine(s), JobLine); }
  }

  lemma BeginTypes(w: World, kind: Kind, configured: bool, notified: bool, now: int, threw: bool)
    requires w.turn.None?
    ensures var w1 := Begin(w, kind, configured, notified, now, threw);
            w1.finished == w.finished && (w1.turn.Some? ==> w1.turn.value.kind == kind) &&
            (TypesNone(w, w1) || (kind.Exec? && TypesOne(w, w1)))
  {
    hide ConnectLocked, Navigate, CloseCurrent, Execute, LeaveBegin, OnAllWires;
    ConnectGoesOn(w, NewTurn(kind, 0), ToFinish, configured, now);
    ConnectGoesOn(w, NewTurn(kind, 0), ToNavigate, configured, now);
    if LiveCurrent(w) {
      NavigationGoesOn(w, NewTurn(kind, w.cur.value), now);
      ExecuteTypes(w, NewTurn(kind, w.cur.value), Running, threw);
      OtherBeginsAreQuiet(w.sessions[w.cur.value]);
      hide Quiet;
      QuietChanges(w, w.cur.value, LeaveBegin(w.sessions[w.cur.value]));
    }
    ClosingTypesNothing(ReleasePty(w), notified);
  }

  /** The turn in flight goes on under its own kind, or is over; it types one command at most, through its gate. */
  predicate TurnStep(w: World, e: Manager.Event, w1: World)
    requires w.turn.Some?
  {
    (if w1.turn.Some? then w1.turn.value.kind == w.turn.value.kind && w1.finished == w.finished else Over(w, w1)) &&
    (TypesNone(w, w1) || (TypesOne(w, w1) && (Allows(w, e) || ProbesFirst(w, e)))) &&
    (w.turn.value.stage.Running? && !w.turn.value.kind.Batch? ==> w1.turn.None? || w1.turn == w.turn)
  }

  lemma ResumeTypes(w: World, r: Reply)
    requires w.turn.Some?
    ensures TurnStep(w, ResumeTurn(r), Resume(w, w.turn.value, r))
  {
    var t := w.turn.value;
    if Valid(w, t.sid) && Awaits(t.stage) {
      var s := w.sessions[t.sid];
      hide AfterOperation, OnAllWires;
      if s.op.Returned? {
        OneSessionChanges(w.sessions, t.sid, s.(op := Idle));
        OperationGoesOn(Update(w, t.sid, s.(op := Idle)), t, s.op.outcome, r);
      }
    } else if !Awaits(t.stage) {
      ResumeRestTypes(w, r);
    }
  }

  lemma ResumeRestTypes(w: World, r: Reply)
    requires w.turn.Some? && !Awaits(w.turn.value.stage)
    ensures TurnStep(w, ResumeTurn(r), Resume(w, w.turn.value, r))
  {
    hide Open, Navigate, Execute, StartStreaming, OnAllWires, BoundTo;
    var t := w.turn.value;
    if Valid(w, t.sid) && t.stage.Top? { ExecuteTypes(w, t, Probing, r.threw); }
    if Valid(w, t.sid) && t.stage.Gate? {
      ExecuteTypes(w, t, Running, r.threw);
      if t.kind.StartJob? { StreamingTypes(w, t); }
    }
    match t.stage
    case Password(next) => ClosingGoesOn(w, t, next, r.configured, r.notified);
    case Sleeping =>
      if Valid(w, t.origin) {
        var woken := if t.retry.Some? then Some(t.retry.value.(wokeAt := Some(r.now))) else None;
        NavigationGoesOn(w, t.(sid := t.origin, retry := woken), r.now);
      }
    case _ =>
  }

  lemma OutsideTypesNothing(w: World, e: Manager.Event)
    requires !e.BeginTurn? && !e.ResumeTurn?
    ensures var w1 := Manager.Step(w, e); TypesNone(w, w1) && w1.turn == w.turn && w1.finished == w.finished
  {
    hide Session.Step, ApplyVerification, CloseCurrent, OnAllWires;
    match e
    case OnSession(sid, e1) => if Valid(w, sid) && Autonomous(e1) { SessionTypesNothing(w, sid, e1); }
    case SessionLost(sid) => if Valid(w, sid) { SessionTypesNothing(w, sid, WireClosed); }
    case ProbeAsked(i) =>
      if i < |w.oob| && Valid(w, w.oob[i].sid) { SessionTypesNothing(w, w.oob[i].sid, ProbeWrite); }
    case Interrupt(_) => if LiveCurrent(w) { CtrlCTypesNothing(w, w.cur.value); }
    case StopJob(_, _) => if w.cur.Some? && Valid(w, w.cur.value) { CtrlCTypesNothing(w, w.cur.value); }
    case Resolved(i, verified) => if i < |w.oob| && Valid(w, w.oob[i].sid) { VerdictTypesNothing(w, w.oob[i].sid); }
    case Concluded(i) => if i < |w.oob| && Valid(w, w.oob[i].sid) { VerdictTypesNothing(w, w.oob[i].sid); }
    case DisposeManager(notified) => ClosingTypesNothing(w.(disposed := true), notified);
  }

  lemma SessionTypesNothing(w: World, sid: nat, e: Session.Event)
    requires Valid(w, sid) && (Autonomous(e) || e.WireClosed? || e.ProbeWrite?)
    ensures OnWires(Update(w, sid, Session.Step(w.sessions[sid], e))) == OnWires(w)
  {
    hide Session.Step, Quiet, OnAllWires;
    StepWrites(w.sessions[sid], e);
    QuietChanges(w, sid, Session.Step(w.sessions[sid], e));
  }

  lemma CtrlCTypesNothing(w: World, sid: nat)
    requires Valid(w, sid)
    ensures OnWires(Update(w, sid, Put(w.sessions[sid], CtrlC(true)))) == OnWires(w)
  {
    hide OnAllWires;
    QuietChanges(w, sid, Put(w.sessions[sid], CtrlC(true)));
  }

  lemma VerdictTypesNothing(w: World, sid: nat)
    requires Valid(w, sid)
    ensures forall verified :: OnWires(Update(w, sid, ApplyVerification(w.sessions[sid], verified))) == OnWires(w)
  {
    hide OnAllWires, Move;
    forall verified ensures OnWires(Update(w, sid, ApplyVerification(w.sessions[sid], verified))) == OnWires(w) {
      OneSessionChanges(w.sessions, sid, ApplyVerification(w.sessions[sid], verified));
    }
  }

  /**
   * Whatever happens to the manager, a step types one command at most: the first segment of an exec asked for by its
   * own caller, or a segment of the turn in flight, which comes behind its gate or is the existence probe of a batch.
   */
  lemma StepTypes(w: World, e: Manager.Event)
    ensures var w1 := Manager.Step(w, e);
            if w.turn.Some? then TurnStep(w, e, w1)
            else w1.finished == w.finished && (TypesNone(w, w1) || (ExecAlone(w, e) && TypesOne(w, w1)))
  {
    hide Begin, Resume, OnAllWires;
    if e.ResumeTurn? {
      if w.turn.Some? { ResumeTypes(w, e.reply); }
    } else if e.BeginTurn? {
      if w.turn.None? { BeginTypes(w, e.kind, e.configured, e.notified, e.now, e.threw); }
    } else {
      OutsideTypesNothing(w, e);
    }
  }

  /** In every run, each command script and each job line on any wire is in the history, and nothing else is. */
  lemma {:induction false} HistoryIsComplete(events: seq<Manager.Event>)
    ensures var w := Manager.Run(INIT, events); |w.typed| == OnWires(w)
    decreases |events|
  {
    hide Manager.Step, OnAllWires, Allows;
    if events != [] {
      HistoryIsComplete(events[..|events| - 1]);
      StepTypes(Manager.Run(INIT, events[..|events| - 1]), events[|events| - 1]);
    } else {
      NoSessions();
    }
  }

  lemma NoSessions()
    ensures OnAllWires([]) == 0
  {
  }

  // ----- one command per allowed gate -----

  /** The i-th turn is in flight. */
  predicate InTurn(w: World, i: nat) { w.turn.Some? && |w.finished| == i }

  /** How often a gate of the i-th turn has allowed a command. */
  function Allowed(events: seq<Manager.Event>, i: nat): nat
    decreases |events|
  {
    if events == [] then 0
    else
      var before, e := events[..|events| - 1], events[|events| - 1];
      var w := Manager.Run(INIT, before);
      Allowed(before, i) + if InTurn(w, i) && Allows(w, e) then 1 else 0
  }

  /** How many commands the i-th turn has typed, existence probes aside. */
  function Commands(events: seq<Manager.Event>, i: nat): nat
    decreases |events|
  {
    if events == [] then 0
    else
      var before, e := events[..|events| - 1], events[|events| - 1];
      var w := Manager.Run(INIT, before);
      Commands(before, i) +
      if InTurn(w, i) && Manager.Step(w, e).typed != w.typed && !ProbesFirst(w, e) then 1 else 0
  }

  /** A turn with one command. */
  predicate Single(kind: Kind) { kind.RunCommand? || kind.StartJob? }

  /** A turn with one command asks once, and not again once its command runs. */
  predicate AsksOnce(w: World, i: nat, allowed: nat) {
    (i > |w.finished| ==> allowed == 0) && (i == |w.finished| && w.turn.None? ==> allowed == 0) &&
    (InTurn(w, i) && Single(w.turn.value.kind) ==> allowed <= if w.turn.value.stage.Running? then 1 else 0) &&
    (i < |w.finished| && Single(w.finished[i].kind) ==> allowed <= 1)
  }

  lemma AsksOnceKept(w: World, e: Manager.Event, i: nat, allowed: nat)
    requires AsksOnce(w, i, allowed) && WorldInv(w)
    ensures AsksOnce(Manager.Step(w, e), i, allowed + if InTurn(w, i) && Allows(w, e) then 1 else 0)
  {
    hide Manager.Step, WorldInv;
    StepTypes(w, e);
    if InTurn(w, i) && Allows(w, e) && Single(w.turn.value.kind) { GatePassed(w, e.reply); }
  }

  lemma GatePassed(w: World, r: Reply)
    requires AtGate(w) && WorldInv(w) && r.ok && Single(w.turn.value.kind)
    ensures var w1 := Manager.Step(w, ResumeTurn(r)); w1.turn.None? || w1.turn.value.stage.Running?
  {
    hide Inv, ExecBegin, WriteJobLine, JobLineOf, SafelyTyped;
  }

  /**
   * In every run, each turn types at most one command for every time its gate allowed one; and run and startJob are
   * allowed at most one.
   */
  lemma {:induction false} OneCommandPerAllowedGate(events: seq<Manager.Event>, i: nat)
    ensures var w := Manager.Run(INIT, events);
            Commands(events, i) <= Allowed(events, i) && AsksOnce(w, i, Allowed(events, i)) &&
            (i < |w.finished| && Single(w.finished[i].kind) ==> Commands(events, i) <= 1)
    decreases |events|
  {
    if events != [] {
      var before, e := events[..|events| - 1], events[|events| - 1];
      var w := Manager.Run(INIT, before);
      OneCommandPerAllowedGate(before, i);
      WorldRunKeeps(before);
      hide Manager.Step, WorldInv, AsksOnce, Allows;
      AsksOnceKept(w, e, i, Allowed(before, i));
      StepTypes(w, e);
      Once(Manager.Run(INIT, events), i, Allowed(events, i));
    }
  }

  lemma Once(w: World, i: nat, allowed: nat)
    requires AsksOnce(w, i, allowed)
    ensures i < |w.finished| && Single(w.finished[i].kind) ==> allowed <= 1
  {
  }
}
