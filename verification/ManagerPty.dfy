/**
 * Who owns the PTY itself, not just the flag that stands for it: from a job's line until the next Ctrl+C
 * whatever is typed there is the job's input. The flag activeJob is dropped in more places than that Ctrl+C
 * is sent, so this module says exactly when the two part, and that nothing else ever does it.
 */
module ManagerPty {
  import opened Basics
  import opened Session
  import opened SessionProofs
  import opened SessionTheorems
  import opened Manager
  import opened ManagerProofs

  // ----- the PTY -----

  /** A job's line was typed and no Ctrl+C after it. */
  predicate Streaming(ws: seq<Write>) {
    ws != [] &&
    match ws[|ws| - 1]
    case JobLine => true
    case CtrlC(_) => false
    case _ => Streaming(ws[..|ws| - 1])
  }

  lemma StreamingAppend(ws: seq<Write>, w: Write)
    ensures Streaming(ws + [w]) <==> w.JobLine? || (!w.CtrlC? && Streaming(ws))
  {
    assert (ws + [w])[..|ws|] == ws;
  }

  /** Every command script and every job line was typed at a prompt, not into a running job. */
  ghost predicate Exclusive(ws: seq<Write>) {
    forall i :: 0 <= i < |ws| && (ws[i].Script? || ws[i].JobLine?) ==> !Streaming(ws[..i])
  }

  lemma ExclusiveAppend(ws: seq<Write>, w: Write)
    requires Exclusive(ws) && (w.Script? || w.JobLine? ==> !Streaming(ws))
    ensures Exclusive(ws + [w])
  {
    forall i | 0 <= i < |ws + [w]| && ((ws + [w])[i].Script? || (ws + [w])[i].JobLine?)
      ensures !Streaming((ws + [w])[..i])
    {
      assert (ws + [w])[..i] == ws[..i];
      if i == |ws| { assert ws[..i] == ws; }
    }
  }

  lemma IntrudedAppend(ws: seq<Write>, w: Write)
    requires Streaming(ws) && (w.Script? || w.JobLine?)
    ensures !Exclusive(ws + [w])
  {
    assert (ws + [w])[|ws|] == w && (ws + [w])[..|ws|] == ws;
  }

  /** A job is running in this PTY and can still be typed into. */
  predicate Taken(s: Sess) { !Gone(s) && Streaming(s.writes) }

  ghost predicate Occupied(w: World) { exists k :: 0 <= k < |w.sessions| && Taken(w.sessions[k]) }

  /** The flag guards the PTY. */
  ghost predicate Guarded(w: World) { Occupied(w) ==> w.activeJob.Some? }

  ghost predicate Typing(w: World) { forall k :: 0 <= k < |w.sessions| ==> Exclusive(w.sessions[k].writes) }

  // ----- what takes the guard away -----

  /** A session object that was replaced, or never became the current one, reports its wire as lost. */
  predicate StaleReport(w: World, e: Manager.Event) {
    e.SessionLost? && Valid(w, e.sid) && w.cur != Some(e.sid) && !w.disposed
  }

  /** The interrupt or stop began before the latest job line. */
  ghost predicate Older(w: World, c: OutOfBand) { exists i :: c.born <= i < |w.typed| && w.typed[i].JobCommand? }

  ghost predicate OldConclusion(w: World, e: Manager.Event) {
    e.Concluded? && e.i < |w.oob| && !w.oob[e.i].progress.Verifying? && Older(w, w.oob[e.i])
  }

  /** The interrupt or stop never sent its Ctrl+C: writing it threw, or there was no wire to write to. */
  predicate UnsentConclusion(w: World, e: Manager.Event) {
    e.Concluded? && e.i < |w.oob| && w.oob[e.i].progress.Unsent?
  }

  /** A job runs in the PTY, and one of the three takes its claim away. */
  ghost predicate Betrays(w: World, e: Manager.Event) {
    Occupied(w) && (StaleReport(w, e) || OldConclusion(w, e) || UnsentConclusion(w, e))
  }

  /** Its Ctrl+C never reached the latest job: it was not sent, or sent too early. */
  ghost predicate Missed(w: World, c: OutOfBand) { c.progress.Unsent? || Older(w, c) }

  // ----- the invariant -----

  /** Still the current session, or its wire is gone. */
  predicate Owns(w: World, k: nat) { Valid(w, k) && (w.cur == Some(k) || Gone(w.sessions[k])) }

  /** Only the current session can be running a job, and whatever is in flight then missed it. */
  ghost predicate Core(w: World) {
    (forall k :: 0 <= k < |w.sessions| && Taken(w.sessions[k]) ==> w.cur == Some(k)) &&
    (forall c <- w.oob :: c.born <= |w.typed| && (Occupied(w) ==> Missed(w, c)))
  }

  ghost predicate TurnPty(w: World, t: Turn) {
    (t.stage.Opening? ==> Valid(w, t.sid) && !Streaming(w.sessions[t.sid].writes)) &&
    (Located(t.stage) && t.stage.Opening? ==> t.origin != t.sid) &&
    (Located(t.stage) && !t.stage.Opening? ==> Owns(w, t.sid)) && (Located(t.stage) ==> Owns(w, t.origin))
  }

  ghost predicate Settled(w: World) {
    (w.turn.Some? ==> TurnPty(w, w.turn.value)) &&
    (forall k :: 0 <= k < |w.sessions| && w.sessions[k].op.Dialing? ==>
       w.turn.Some? && w.turn.value.stage.Opening? && w.turn.value.sid == k)
  }

  ghost predicate Good(w: World) { Core(w) && Settled(w) }

  // ----- sessions -----

  /** t follows s: no job line, and a command script only over an open wire. */
  predicate Tame(s: Sess, t: Sess) {
    Wired(s, t) &&
    (t.writes == s.writes ||
     (t.writes != [] && t.writes == s.writes + [t.writes[|t.writes| - 1]] && !t.writes[|t.writes| - 1].JobLine? &&
      (t.writes[|t.writes| - 1].Script? ==> !Gone(s))))
  }

  predicate Scripted(s: Sess, t: Sess) { t.writes != s.writes && t.writes != [] && t.writes[|t.writes| - 1].Script? }

  lemma StepIsTame(s: Sess, e: Session.Event)
    requires !e.JobWrite?
    ensures Tame(s, Session.Step(s, e)) && (Scripted(s, Session.Step(s, e)) ==> e.BeginExec?)
  {
    StepWrites(s, e);
    hide Session.Step, Wired, Gone;
  }

  lemma TameTaken(s: Sess, t: Sess)
    requires Tame(s, t)
    ensures Streaming(t.writes) ==> Streaming(s.writes)
    ensures !s.op.Dialing? && Taken(t) ==> Taken(s)
    ensures Exclusive(s.writes) && (Scripted(s, t) ==> !Streaming(s.writes)) ==> Exclusive(t.writes)
  {
    if t.writes != s.writes {
      var w := t.writes[|t.writes| - 1];
      StreamingAppend(s.writes, w);
      hide Streaming, Exclusive;
      if Exclusive(s.writes) && (Scripted(s, t) ==> !Streaming(s.writes)) { ExclusiveAppend(s.writes, w); }
    }
  }

  // ----- worlds moving without a job line -----

  ghost predicate CurTaken(w: World, w1: World) {
    w.cur.Some? && w.cur.value < |w1.sessions| && Taken(w1.sessions[w.cur.value])
  }

  /** No job line; the current session and the claim are given up only with the PTY free. */
  ghost predicate Smooth(w: World, w1: World) {
    |w.sessions| <= |w1.sessions| && w1.oob == w.oob && w.typed <= w1.typed &&
    (forall k :: 0 <= k < |w.sessions| ==> Tame(w.sessions[k], w1.sessions[k])) &&
    (forall k :: |w.sessions| <= k < |w1.sessions| ==> w1.sessions[k].writes == []) &&
    (forall k :: 0 <= k < |w.sessions| && Scripted(w.sessions[k], w1.sessions[k]) ==> w.activeJob.None?) &&
    (w1.cur == w.cur || !CurTaken(w, w1)) &&
    (w1.activeJob == w.activeJob || (w1.activeJob.None? && !CurTaken(w, w1)))
  }

  /** A session that starts to dial carries no job. */
  ghost predicate DialsFree(w: World) {
    forall k :: 0 <= k < |w.sessions| && w.sessions[k].op.Dialing? ==> !Streaming(w.sessions[k].writes)
  }

  lemma GoodDials(w: World)
    requires Good(w)
    ensures DialsFree(w)
  {
    hide Streaming, Taken, Gone, Older, Owns;
  }

  lemma SmoothTaken(w: World, w1: World, k: nat)
    requires Smooth(w, w1) && DialsFree(w) && k < |w1.sessions| && Taken(w1.sessions[k])
    ensures k < |w.sessions| && Taken(w.sessions[k])
  {
    if k < |w.sessions| { TameTaken(w.sessions[k], w1.sessions[k]); }
    hide Tame, Gone;
  }

  lemma SmoothOccupied(w: World, w1: World)
    requires Smooth(w, w1) && DialsFree(w)
    ensures Occupied(w1) ==> Occupied(w)
  {
    if Occupied(w1) {
      var k :| 0 <= k < |w1.sessions| && Taken(w1.sessions[k]);
      SmoothTaken(w, w1, k);
    }
  }

  lemma OlderGrows(w: World, w1: World, c: OutOfBand)
    requires w.typed <= w1.typed
    ensures Older(w, c) ==> Older(w1, c)
  {
    if Older(w, c) {
      var i :| c.born <= i < |w.typed| && w.typed[i].JobCommand?;
      assert w1.typed[i] == w.typed[i];
    }
  }

  lemma SmoothCore(w: World, w1: World)
    requires Smooth(w, w1) && DialsFree(w) && Core(w)
    ensures Core(w1)
  {
    SmoothOccupied(w, w1);
    forall k | 0 <= k < |w1.sessions| && Taken(w1.sessions[k]) ensures w1.cur == Some(k) {
      SmoothTaken(w, w1, k);
      hide Taken;
    }
    forall c <- w1.oob ensures c.born <= |w1.typed| && (Occupied(w1) ==> Missed(w1, c)) {
      OlderGrows(w, w1, c);
      hide Occupied, Older;
    }
  }

  lemma SmoothGuards(w: World, w1: World)
    requires Smooth(w, w1) && DialsFree(w) && Core(w)
    ensures Guarded(w) ==> Guarded(w1)
    ensures Guarded(w) && Typing(w) ==> Typing(w1)
  {
    SmoothOccupied(w, w1);
    if Occupied(w1) { SmoothClaims(w, w1); }
    if Guarded(w) && Typing(w) { SmoothTyping(w, w1); }
  }

  /** A PTY that is still running its job is still the current one, and its claim is not dropped. */
  lemma SmoothClaims(w: World, w1: World)
    requires Smooth(w, w1) && DialsFree(w) && Core(w) && Occupied(w1)
    ensures w1.activeJob == w.activeJob
  {
    var k :| 0 <= k < |w1.sessions| && Taken(w1.sessions[k]);
    SmoothTaken(w, w1, k);
    hide Taken, Tame, Scripted;
  }

  lemma SmoothTyping(w: World, w1: World)
    requires Smooth(w, w1) && Guarded(w) && Typing(w)
    ensures Typing(w1)
  {
    forall k | 0 <= k < |w1.sessions| ensures Exclusive(w1.sessions[k].writes) {
      if k < |w.sessions| {
        var s, t := w.sessions[k], w1.sessions[k];
        TameTaken(s, t);
        assert Scripted(s, t) ==> !Gone(s);
        assert Scripted(s, t) ==> !Taken(s);
        hide Streaming, Exclusive, Tame;
      }
    }
  }
  // ----- the segments of a turn -----

  ghost predicate Flow(w: World, w1: World) { Smooth(w, w1) && Settled(w1) }

  /** A running segment: nothing in flight, and its sessions are the current one or gone. */
  ghost predicate AtHand(w: World, t: Turn) { AllIdle(w) && Owns(w, t.sid) && Owns(w, t.origin) }

  lemma FinishFlows(w: World)
    requires AllIdle(w)
    ensures Flow(w, Finish(w))
  {
    hide Streaming, Gone;
  }

  lemma AtFlows(w: World, t: Turn, stage: Stage)
    requires AtHand(w, t) && !stage.Opening?
    ensures Flow(w, Manager.At(w, t, stage))
  {
    hide Streaming, Gone;
  }

  lemma NavigatedFlows(w: World, t: Turn)
    requires AtHand(w, t)
    ensures Flow(w, Navigated(w, t))
  {
    FinishFlows(w);
    AtFlows(w, t, Gate);
    AtFlows(w, t, Top);
    hide Flow, Finish, Manager.At, AtHand;
  }

  /** One session moves on under its turn. */
  lemma MoveFlows(w: World, w1: World, t: Turn, t1: Turn, s1: Sess)
    requires AtHand(w, t) && Tame(w.sessions[t.sid], s1) && (Scripted(w.sessions[t.sid], s1) ==> w.activeJob.None?)
    requires t1.sid == t.sid && t1.origin == t.origin && !t1.stage.Opening? && w.typed <= w1.typed
    requires w1 == Update(w, t.sid, s1).(turn := Some(t1), typed := w1.typed)
    ensures Flow(w, w1)
  {
    hide Streaming, Taken;
  }

  lemma QuietMoveFlows(w: World, t: Turn, t1: Turn, s1: Sess)
    requires AtHand(w, t) && Quiet(w.sessions[t.sid], s1)
    requires t1.sid == t.sid && t1.origin == t.origin && !t1.stage.Opening?
    ensures Flow(w, Update(w, t.sid, s1).(turn := Some(t1)))
  {
    MoveFlows(w, Update(w, t.sid, s1).(turn := Some(t1)), t, t1, s1);
  }

  lemma EnterIfAllowedFlows(w: World, t: Turn, now: int)
    requires AtHand(w, t)
    ensures Flow(w, EnterIfAllowed(w, t, now))
  {
    var s := w.sessions[t.sid];
    var s1 := EnterBegin(s, TargetOf(t.kind), AccountOf(t.kind), now);
    EnterBeginIsQuiet(s, TargetOf(t.kind), AccountOf(t.kind), now);
    var dialed := if s1.writes == s.writes then 0 else 1;
    hide EnterBegin, Quiet, AtHand, Flow, CanResume, Finish;
    QuietMoveFlows(w, t, t.(stage := Entering, dials := t.dials + dialed), s1);
    assert AllIdle(w) by { AtHandIdle(w, t); }
    FinishFlows(w);
  }

  lemma AtHandIdle(w: World, t: Turn)
    requires AtHand(w, t)
    ensures AllIdle(w) && Valid(w, t.sid)
  {
  }

  lemma LeaveFlows(w: World, t: Turn)
    requires AtHand(w, t)
    ensures Flow(w, Update(w, t.sid, LeaveBegin(w.sessions[t.sid])).(turn := Some(t.(stage := Leaving))))
    ensures Flow(w, Update(w, t.sid, ListBegin(w.sessions[t.sid])).(turn := Some(t.(stage := Listing))))
  {
    var s := w.sessions[t.sid];
    OtherBeginsAreQuiet(s);
    hide LeaveBegin, ListBegin, Quiet, AtHand, Flow;
    QuietMoveFlows(w, t, t.(stage := Leaving), LeaveBegin(s));
    QuietMoveFlows(w, t, t.(stage := Listing), ListBegin(s));
  }

  lemma NavigateFlows(w: World, t: Turn, now: int)
    requires AtHand(w, t)
    ensures Flow(w, Navigate(w, t, now))
  {
    NavigatedFlows(w, t);
    LeaveFlows(w, t);
    EnterIfAllowedFlows(w, t, now);
    hide Flow, Navigated, EnterIfAllowed, LeaveBegin, ListBegin;
  }

  lemma AfterConnectFlows(w: World, t: Turn, next: After, now: int)
    requires AllIdle(w) && (next.ToHealed? ==> Owns(w, t.origin))
    ensures Flow(w, AfterConnect(w, t, next, now))
  {
    FinishFlows(w);
    if LiveCurrent(w) {
      var sid := w.cur.value;
      var here := t.(sid := sid, origin := if next.ToHealed? then t.origin else sid);
      assert AtHand(w, here);
      hide Flow, AtHand, Owns;
      EnterIfAllowedFlows(w, here, now);
      NavigateFlows(w, here, now);
      LeaveFlows(w, here);
    }
    hide Flow, Finish, EnterIfAllowed, Navigate, ListBegin, LeaveBegin, AllIdle;
  }

  lemma ConnectLockedFlows(w: World, t: Turn, next: After, configured: bool, now: int)
    requires AllIdle(w) && !next.ToHealed?
    ensures Flow(w, ConnectLocked(w, t, next, configured, now))
  {
    AfterConnectFlows(w, t, next, now);
    FinishFlows(w);
    WaitsForPassword(w, t, next);
    hide Flow, AfterConnect, Finish, Manager.At;
  }

  lemma WaitsForPassword(w: World, t: Turn, next: After)
    requires AllIdle(w) && (next.ToHealed? ==> Owns(w, t.sid) && Owns(w, t.origin))
    ensures Flow(w, Manager.At(w, t, Password(next)))
  {
    hide Streaming, Gone;
  }

  /** Closing the current session frees its PTY, whoever it belonged to. */
  lemma CloseCurrentFrees(w: World, notified: bool)
    ensures var c := CloseCurrent(w, notified);
            Smooth(w, c) && !CurTaken(w, c) && c.cur == w.cur && c.turn == w.turn && |c.sessions| == |w.sessions| &&
              c.typed == w.typed &&
            (forall k: nat :: Owns(w, k) && !w.sessions[k].op.Dialing? ==> Owns(c, k)) &&
            (forall k :: 0 <= k < |w.sessions| ==>
               c.sessions[k].op == w.sessions[k].op && !Scripted(w.sessions[k], c.sessions[k])) &&
            (forall k | w.cur == Some(k) :: Valid(w, k) ==> Gone(c.sessions[k]))
  {
    if w.cur.Some? && Valid(w, w.cur.value) {
      EndsAreSilent(w.sessions[w.cur.value], ABORTED, notified);
      CloseIsGone(w.sessions[w.cur.value], notified);
      hide Close, Streaming;
    }
  }

  lemma CloseIsGone(s: Sess, notified: bool)
    ensures Gone(Close(s, notified)) && Close(s, notified).op == s.op
  {
    hide Move;
  }

  lemma OpenFlows(w: World, t: Turn, next: After, notified: bool)
    requires AllIdle(w) && (next.ToHealed? ==> Owns(w, t.origin)) && (w.cur.Some? ==> Valid(w, w.cur.value))
    ensures Flow(w, Open(w, t, next, notified))
  {
    assert CONNECTED.writes == [] && !Streaming(CONNECTED.writes);
    assert next.ToHealed? ==> Owns(CloseCurrent(w, notified), t.origin) by { CloseCurrentFrees(w, notified); }
    hide CloseCurrent, Tame, Scripted, Taken, Gone, Streaming, ConnectBegin;
    CloseCurrentFrees(w, notified);
    var c, w1 := CloseCurrent(w, notified), Open(w, t, next, notified);
    assert Smooth(w, w1) by { hide Owns, Settled; }
    hide Smooth, CurTaken;
    assert Settled(w1) by { OpenedSettles(w, c, t, next, notified); }
  }

  lemma OpenedSettles(w: World, c: World, t: Turn, next: After, notified: bool)
    requires AllIdle(w) && c == CloseCurrent(w, notified) && |c.sessions| == |w.sessions|
    requires next.ToHealed? ==> Owns(c, t.origin)
    requires forall k | w.cur == Some(k) :: Valid(c, k) && Gone(c.sessions[k])
    requires c.cur == w.cur && forall k :: 0 <= k < |w.sessions| ==> c.sessions[k].op == w.sessions[k].op
    requires CONNECTED.writes == [] && !Streaming(CONNECTED.writes)
    ensures Settled(Open(w, t, next, notified))
  {
    hide CloseCurrent, Gone, Streaming, ConnectBegin;
  }

  lemma HealFlows(w: World, t: Turn, configured: bool, notified: bool)
    requires AtHand(w, t)
    ensures Flow(w, Heal(w, t, configured, notified))
  {
    CloseCurrentFrees(w, notified);
    hide CloseCurrent, Tame, Scripted, Taken, Gone, Streaming;
  }

  lemma ExecuteFlows(w: World, t: Turn, stage: Stage, threw: bool)
    requires AtHand(w, t) && w.activeJob.None? && !stage.Opening?
    ensures Flow(w, Execute(w, t, stage, threw))
  {
    var s := w.sessions[t.sid];
    StepIsTame(s, BeginExec(threw));
    assert Session.Step(s, BeginExec(threw)) == ExecBegin(s, threw) by { hide ExecBegin; }
    hide ExecBegin, Tame, Flow, Smooth, Settled;
    MoveFlows(w, Execute(w, t, stage, threw), t, t.(stage := stage), ExecBegin(s, threw));
  }

  /** A verdict on the whole segment: it keeps the invariant and the guard, and types only at a prompt. */
  ghost predicate Fine(w: World, w1: World) {
    Good(w1) && (Guarded(w) ==> Guarded(w1)) && (Guarded(w) && Typing(w) ==> Typing(w1))
  }

  lemma FlowIsFine(w: World, w1: World)
    requires Flow(w, w1) && Core(w) && DialsFree(w)
    ensures Fine(w, w1)
  {
    SmoothCore(w, w1);
    SmoothGuards(w, w1);
    hide Smooth, Core, Settled, Guarded, Typing;
  }

  /** The end of startJob: the line is typed at a prompt, and the claim guards it from then on. */
  lemma StartStreamingIsFine(w: World, t: Turn)
    requires Core(w) && AtHand(w, t) && w.activeJob.None? && t.kind.StartJob?
    ensures Fine(w, StartStreaming(w, t))
  {
    var s := w.sessions[t.sid];
    assert DialsFree(w);
    if Gone(s) {
      FinishFlows(w);
      FlowIsFine(w, Finish(w));
    } else {
      var w1 := StartStreaming(w, t);
      JobLineCore(w, t);
      assert Settled(w1) by { hide Core, Taken, Streaming; }
      if Guarded(w) && Typing(w) { JobLineTyping(w, t); }
      hide Core, Settled, Typing;
    }
  }

  lemma JobLineCore(w: World, t: Turn)
    requires Core(w) && AtHand(w, t) && t.kind.StartJob? && !Gone(w.sessions[t.sid])
    ensures Core(StartStreaming(w, t)) && Guarded(StartStreaming(w, t))
  {
    var w1 := StartStreaming(w, t);
    assert w1.typed[|w.typed|].JobCommand? by { JobLineIs(w, t); }
    hide Streaming, JobLineOf;
  }

  lemma JobLineTyping(w: World, t: Turn)
    requires AtHand(w, t) && t.kind.StartJob? && !Gone(w.sessions[t.sid]) && w.activeJob.None? && Guarded(w) &&
             Typing(w)
    ensures Typing(StartStreaming(w, t))
  {
    var s := w.sessions[t.sid];
    assert !Taken(s);
    hide Streaming, Exclusive, JobLineOf;
    ExclusiveAppend(s.writes, JobLine);
  }
  // ----- a turn begins, or goes on -----

  lemma ClosedSessionFlows(w: World, w0: World, notified: bool)
    requires Good(w) && w0 == w.(activeJob := w0.activeJob, stoppingJob := w0.stoppingJob, disposed := w0.disposed)
    requires w0.activeJob == w.activeJob || w0.activeJob.None?
    ensures Flow(w, CloseCurrent(w0, notified).(cur := None))
  {
    CloseCurrentFrees(w0, notified);
    var c := CloseCurrent(w0, notified);
    var w1 := c.(cur := None);
    assert forall k: nat :: Owns(w, k) == Owns(w0, k);
    hide CloseCurrent, Tame, Scripted, Taken;
    assert Smooth(w, w1) by { hide Streaming, Owns, Good; }
    assert Settled(w1) by { ClosedSettles(w, w0, c); }
  }

  lemma ClosedSettles(w: World, w0: World, c: World)
    requires Good(w) && w0.sessions == w.sessions && w0.cur == w.cur && c.turn == w.turn && |c.sessions| == |w.sessions|
    requires forall k: nat :: Owns(w, k) && !w.sessions[k].op.Dialing? ==> Owns(c, k)
    requires c.cur == w.cur && forall k | w.cur == Some(k) :: Valid(w, k) ==> Gone(c.sessions[k])
    requires forall k :: 0 <= k < |w.sessions| ==> c.sessions[k].op == w.sessions[k].op
    requires forall k :: 0 <= k < |w.sessions| ==> Tame(w.sessions[k], c.sessions[k])
    ensures Settled(c.(cur := None))
  {
    if w.turn.Some? && w.turn.value.stage.Opening? {
      var k := w.turn.value.sid;
      TameTaken(w.sessions[k], c.sessions[k]);
    }
    hide Streaming, Tame, Core;
  }

  lemma BeginIsFine(w: World, kind: Kind, configured: bool, notified: bool, now: int, threw: bool)
    requires WorldInv(w) && Good(w) && w.turn.None?
    ensures Fine(w, Begin(w, kind, configured, notified, now, threw))
  {
    GoodDials(w);
    assert AllIdle(w) && Core(w);
    if LiveCurrent(w) { assert AtHand(w, NewTurn(kind, w.cur.value)); }
    hide WorldInv, Good, Core, AtHand, AllIdle, Flow, Fine, Smooth, Settled;
    hide ConnectLocked, Navigate, Execute, LeaveBegin, CloseCurrent, DialsFree;
    assert Fine(w, w) by { StayingIsFine(w); }
    match kind
    case EnterAsset(_, _) =>
      if LiveCurrent(w) {
        NavigateFlows(w, NewTurn(kind, w.cur.value), now);
        FlowIsFine(w, Navigate(w, NewTurn(kind, w.cur.value), now));
      }
    case Exec =>
      if LiveCurrent(w) && NoActiveJob(w) {
        ExecuteFlows(w, NewTurn(kind, w.cur.value), Running, threw);
        FlowIsFine(w, Execute(w, NewTurn(kind, w.cur.value), Running, threw));
      }
    case LeaveAsset =>
      if LiveCurrent(w) {
        LeaveFlows(w, NewTurn(kind, w.cur.value));
        FlowIsFine(w, Begin(w, kind, configured, notified, now, threw));
      }
    case CloseSession =>
      ClosedSessionFlows(w, ReleasePty(w), notified);
      FlowIsFine(w, Begin(w, kind, configured, notified, now, threw));
    case _ =>
      var next := if kind.Connect? then ToFinish else ToNavigate;
      ConnectLockedFlows(w, NewTurn(kind, 0), next, configured, now);
      FlowIsFine(w, ConnectLocked(w, NewTurn(kind, 0), next, configured, now));
  }

  lemma StayingIsFine(w: World)
    requires Good(w)
    ensures Fine(w, w)
  {
  }

  lemma AfterEnterFlows(w: World, t: Turn, outcome: Outcome)
    requires AtHand(w, t)
    ensures Flow(w, AfterEnter(w, t, outcome))
  {
    NavigatedFlows(w, t);
    FinishFlows(w);
    forall t1: Turn | t1.sid == t.sid && t1.origin == t.origin ensures Flow(w, Manager.At(w, t1, Sleeping)) {
      AtFlows(w, t1, Sleeping);
    }
    hide Flow, Navigated, Finish, Manager.At, AtHand;
  }

  lemma AfterOperationFlows(w: World, t: Turn, outcome: Outcome, r: Reply)
    requires AllIdle(w) && TurnPty(w, t) && Awaits(t.stage)
    ensures Flow(w, AfterOperation(w, t, outcome, r))
  {
    if t.stage.Opening? {
      OpenedFlows(w, t, outcome, r);
    } else {
      LocatedFlows(w, t, outcome, r);
    }
  }

  lemma LocatedFlows(w: World, t: Turn, outcome: Outcome, r: Reply)
    requires AtHand(w, t) && Awaits(t.stage) && !t.stage.Opening?
    ensures Flow(w, AfterOperation(w, t, outcome, r))
  {
    hide Flow, EnterIfAllowed, Heal, AfterEnter, AfterConnect, Finish, Manager.At, AtHand, AllIdle;
    AtHandIdle(w, t);
    FinishFlows(w);
    match t.stage
    case Leaving =>
      EnterIfAllowedFlows(w, t, r.now);
      HealFlows(w, t, r.configured, r.notified);
    case Entering => AfterEnterFlows(w, t, outcome);
    case _ =>
      AtFlows(w, t, Gate);
      AtFlows(w, t, Top);
  }

  lemma OpenedFlows(w: World, t: Turn, outcome: Outcome, r: Reply)
    requires AllIdle(w) && TurnPty(w, t) && t.stage.Opening?
    ensures Flow(w, AfterOperation(w, t, outcome, r))
  {
    assert Valid(w, t.sid) && !Streaming(w.sessions[t.sid].writes) && (t.stage.next.ToHealed? ==> Owns(w, t.origin));
    hide Flow, AfterConnect, Finish, TurnPty, Streaming, Owns, AllIdle;
    FinishFlows(w);
    if outcome.Failed? { FailedOpeningFlows(w, t); } else { AfterConnectFlows(w, t, t.stage.next, r.now); }
  }

  lemma FailedOpeningFlows(w: World, t: Turn)
    requires AllIdle(w) && Valid(w, t.sid) && !Streaming(w.sessions[t.sid].writes)
    ensures w.cur == Some(t.sid) ==> Flow(w, Finish(w.(cur := None)))
  {
    hide Streaming;
  }

  /** Taking the result of the operation in flight changes nothing the PTY depends on. */
  lemma ConsumedIsFine(w: World, t: Turn)
    requires WorldInv(w) && Good(w) && w.turn == Some(t) && Awaits(t.stage) && Valid(w, t.sid) &&
             w.sessions[t.sid].op.Returned?
    ensures var w1 := Update(w, t.sid, w.sessions[t.sid].(op := Idle));
            AllIdle(w1) && Core(w1) && TurnPty(w1, t) && Guarded(w1) == Guarded(w) && Typing(w1) == Typing(w)
  {
    var s := w.sessions[t.sid];
    var w1 := Update(w, t.sid, s.(op := Idle));
    assert forall k :: 0 <= k < |w.sessions| ==>
      Taken(w1.sessions[k]) == Taken(w.sessions[k]) && w1.sessions[k].writes == w.sessions[k].writes;
    assert AllIdle(w1) by { hide Base; }
    SameTaken(w, w1);
    assert Core(w1) by { hide WorldInv, Taken, Settled; forall c ensures Older(w1, c) == Older(w, c) { } }
    hide Taken, Streaming, Base, Core, Exclusive;
  }

  lemma SameTaken(w: World, w1: World)
    requires |w1.sessions| == |w.sessions|
    requires forall k :: 0 <= k < |w.sessions| ==> Taken(w1.sessions[k]) == Taken(w.sessions[k])
    ensures Occupied(w1) == Occupied(w)
  {
    if Occupied(w) {
      var k :| 0 <= k < |w.sessions| && Taken(w.sessions[k]);
      assert Taken(w1.sessions[k]);
    }
    if Occupied(w1) {
      var k :| 0 <= k < |w1.sessions| && Taken(w1.sessions[k]);
      assert Taken(w.sessions[k]);
    }
  }

  lemma IdleDialsFree(w: World)
    requires AllIdle(w)
    ensures DialsFree(w)
  {
  }

  lemma ResumeIsFine(w: World, t: Turn, r: Reply)
    requires WorldInv(w) && Good(w) && w.turn == Some(t)
    ensures Fine(w, Resume(w, t, r))
  {
    StayingIsFine(w);
    if Valid(w, t.sid) && Awaits(t.stage) {
      var s := w.sessions[t.sid];
      if s.op.Returned? {
        var w1 := Update(w, t.sid, s.(op := Idle));
        ConsumedIsFine(w, t);
        IdleDialsFree(w1);
        hide WorldInv, Good, Core, AfterOperation, Flow, AllIdle, TurnPty, DialsFree, Guarded, Typing;
        AfterOperationFlows(w1, t, s.op.outcome, r);
        FlowIsFine(w1, AfterOperation(w1, t, s.op.outcome, r));
      }
    } else if !Awaits(t.stage) {
      ResumeRestIsFine(w, t, r);
    }
  }

  lemma ResumeRestIsFine(w: World, t: Turn, r: Reply)
    requires WorldInv(w) && Good(w) && w.turn == Some(t) && !Awaits(t.stage)
    ensures Fine(w, Resume(w, t, r))
  {
    assert AllIdle(w) && TurnFacts(w, t) && TurnPty(w, t) && (w.cur.Some? ==> Valid(w, w.cur.value));
    IdleDialsFree(w);
    StayingIsFine(w);
    FinishFlows(w);
    FlowIsFine(w, Finish(w));
    hide WorldInv, Settled, Core, Flow, Fine, Smooth;
    hide Finish, Open, Navigate, Execute, AfterGate, Manager.At, DialsFree, Landed, Held;
    match t.stage
    case Password(next) =>
      OpenFlows(w, t, next, r.notified);
      FlowIsFine(w, Open(w, t, next, r.notified));
    case Sleeping =>
      var woken := if t.retry.Some? then Some(t.retry.value.(wokeAt := Some(r.now))) else None;
      NavigateFlows(w, t.(sid := t.origin, retry := woken), r.now);
      FlowIsFine(w, Navigate(w, t.(sid := t.origin, retry := woken), r.now));
    case Top =>
      if t.kind.Batch? {
        ExecuteFlows(w, t, Probing, r.threw);
        FlowIsFine(w, Execute(w, t, Probing, r.threw));
        AtFlows(w, t, Gate);
        FlowIsFine(w, Manager.At(w, t, Gate));
      }
    case Gate => GateIsFine(w, t, r);
    case _ =>
  }

  lemma GateIsFine(w: World, t: Turn, r: Reply)
    requires Core(w) && AtHand(w, t) && w.activeJob.None? && Fine(w, Finish(w))
    ensures Fine(w, AfterGate(w, t, r.ok, r.threw))
  {
    hide Core, Flow, Fine, AtHand, Finish, Execute, StartStreaming, Manager.At, DialsFree;
    AtHandIdle(w, t);
    IdleDialsFree(w);
    AtFlows(w, t, Top);
    FlowIsFine(w, Manager.At(w, t, Top));
    if t.kind.StartJob? {
      StartStreamingIsFine(w, t);
    } else {
      ExecuteFlows(w, t, Running, r.threw);
      FlowIsFine(w, Execute(w, t, Running, r.threw));
    }
  }

  // ----- out of band -----

  /** One session moves by itself. */
  lemma SessionMoveFlows(w: World, sid: nat, s1: Sess)
    requires Good(w) && Valid(w, sid) && Tame(w.sessions[sid], s1) && !Scripted(w.sessions[sid], s1)
    ensures Flow(w, Update(w, sid, s1))
  {
    var w1 := Update(w, sid, s1);
    TameTaken(w.sessions[sid], s1);
    assert forall k: nat :: Owns(w, k) && !w.sessions[k].op.Dialing? ==> Owns(w1, k);
    hide Streaming, Taken, Core;
  }

  lemma SessionStepIsFine(w: World, sid: nat, e: Session.Event)
    requires Good(w) && Valid(w, sid) && !e.JobWrite? && !e.BeginExec?
    ensures Fine(w, Update(w, sid, Session.Step(w.sessions[sid], e)))
  {
    StepIsTame(w.sessions[sid], e);
    GoodDials(w);
    hide Session.Step, Tame, Scripted, Flow, DialsFree;
    SessionMoveFlows(w, sid, Session.Step(w.sessions[sid], e));
    FlowIsFine(w, Update(w, sid, Session.Step(w.sessions[sid], e)));
  }

  /** Claims and the list of verifications change; sessions, turn and history do not. */
  lemma ClaimsChange(w: World, w1: World)
    requires Good(w) && w1 == w.(activeJob := w1.activeJob, stoppingJob := w1.stoppingJob, oob := w1.oob)
    requires forall c <- w1.oob :: c.born <= |w.typed| && (Occupied(w) ==> Missed(w, c))
    ensures Good(w1) && Typing(w1) == Typing(w) && Occupied(w1) == Occupied(w)
  {
    forall c ensures Older(w1, c) == Older(w, c) {}
    assert forall k: nat :: Owns(w1, k) == Owns(w, k);
    hide Taken, Streaming, Older, Owns;
  }

  /** A Ctrl+C frees the PTY; one that is not sent changes nothing, but it is remembered. */
  lemma CtrlCFrees(w: World, w1: World, threw: bool)
    requires Good(w) && w.cur.Some? && Valid(w, w.cur.value)
    requires var s := w.sessions[w.cur.value];
             w1.sessions ==
               if CanInterrupt(s) && !threw then w.sessions[w.cur.value := Put(s, CtrlC(true))] else w.sessions
    requires w1 == w.(sessions := w1.sessions, stoppingJob := w1.stoppingJob, oob := w1.oob)
    requires forall c <- w1.oob :: c in w.oob ||
               (c.born == |w.typed| && (c.progress.Unsent? || (CanInterrupt(w.sessions[w.cur.value]) && !threw)))
    ensures Fine(w, w1) && (CanInterrupt(w.sessions[w.cur.value]) && !threw ==> !Occupied(w1))
  {
    var s := w.sessions[w.cur.value];
    if CanInterrupt(s) && !threw {
      SentFrees(w, w1);
    } else {
      StayingIsFine(w);
      FineOlder(w, w);
      hide Good, Fine, Occupied;
      ClaimsChange(w, w1);
      FineSame(w, w, w1);
    }
  }

  lemma SentFrees(w: World, w1: World)
    requires Good(w) && w.cur.Some? && Valid(w, w.cur.value) && CanInterrupt(w.sessions[w.cur.value])
    requires w1.sessions == w.sessions[w.cur.value := Put(w.sessions[w.cur.value], CtrlC(true))]
    requires w1 == w.(sessions := w1.sessions, stoppingJob := w1.stoppingJob, oob := w1.oob)
    requires forall c <- w1.oob :: c in w.oob || c.born == |w.typed|
    ensures Fine(w, w1) && !Occupied(w1)
  {
    var s := w.sessions[w.cur.value];
    StreamingAppend(s.writes, CtrlC(true));
    assert Session.Step(s, InterruptWrite) == Put(s, CtrlC(true));
    SessionStepIsFine(w, w.cur.value, InterruptWrite);
    var w0 := Update(w, w.cur.value, Put(s, CtrlC(true)));
    NotOccupied(w, w0);
    hide Fine, Streaming, Gone, Put;
    FineCore(w, w0);
    ClaimsChange(w0, w1);
    hide Core;
    assert Fine(w, w1) by { FineChanges(w, w0, w1); }
  }

  lemma FineCore(w: World, w0: World)
    requires Fine(w, w0)
    ensures Good(w0) && forall c <- w0.oob :: c.born <= |w0.typed|
  {
  }

  lemma FineChanges(w: World, w0: World, w1: World)
    requires Fine(w, w0) && Good(w1) && Typing(w1) == Typing(w0) && Guarded(w1)
    ensures Fine(w, w1)
  {
  }

  lemma NotOccupied(w: World, w0: World)
    requires Core(w) && w.cur.Some? && Valid(w, w.cur.value)
    requires |w0.sessions| == |w.sessions| && !Taken(w0.sessions[w.cur.value])
    requires forall k :: 0 <= k < |w.sessions| && w.cur != Some(k) ==> w0.sessions[k] == w.sessions[k]
    ensures !Occupied(w0)
  {
    hide Taken;
  }

  /**
   * What one step does: exactly the betrayals take the guard away, and a guarded PTY is typed into at a
   * prompt only.
   */
  ghost predicate StepFine(w: World, e: Manager.Event, w1: World) {
    Good(w1) && (Guarded(w) ==> (Guarded(w1) <==> !Betrays(w, e))) && (Guarded(w) && Typing(w) ==> Typing(w1))
  }

  lemma FineStep(w: World, e: Manager.Event, w1: World)
    requires Fine(w, w1) && !Betrays(w, e)
    ensures StepFine(w, e, w1)
  {
  }

  lemma WireLossIsFine(w: World, sid: nat)
    requires Good(w) && Valid(w, sid)
    ensures StepFine(w, SessionLost(sid), Manager.Step(w, SessionLost(sid)))
  {
    var s := w.sessions[sid];
    var s1 := Session.Step(s, WireClosed);
    var w0 := Update(w, sid, s1);
    var w1 := OnSessionLost(w0);
    SessionStepIsFine(w, sid, WireClosed);
    FineCore(w, w0);
    assert Gone(s1);
    assert forall c <- w0.oob :: Occupied(w0) ==> Missed(w0, c) by { assert Core(w0); }
    ClaimsChange(w0, w1);
    if w.cur == Some(sid) {
      NotOccupied(w, w0);
      FineChanges(w, w0, w1);
    } else if w.disposed {
      assert w1 == w0;
    } else {
      OthersStayTaken(w, w0, sid);
      hide Fine, Good, Taken, Occupied, Typing, OnSessionLost, Session.Step;
      FineTyping(w, w0);
    }
  }

  lemma FineTyping(w: World, w0: World)
    requires Fine(w, w0)
    ensures Guarded(w) && Typing(w) ==> Typing(w0)
  {
  }

  /** A session that was replaced has no job to lose. */
  lemma OthersStayTaken(w: World, w0: World, sid: nat)
    requires Core(w) && Valid(w, sid) && w.cur != Some(sid) && w0 == w.(sessions := w0.sessions)
    requires |w0.sessions| == |w.sessions| && w0.sessions == w.sessions[sid := w0.sessions[sid]] &&
             Gone(w0.sessions[sid])
    ensures Occupied(w0) == Occupied(w)
  {
    assert forall k :: 0 <= k < |w.sessions| ==> Taken(w0.sessions[k]) == Taken(w.sessions[k]);
    hide Taken;
    SameTaken(w, w0);
  }

  lemma VerdictIsFine(w: World, i: nat, verified: bool)
    requires Good(w) && i < |w.oob|
    ensures Fine(w, Verdict(w, i, verified))
  {
    var c := w.oob[i];
    StayingIsFine(w);
    if c.progress.Verifying? && Valid(w, c.sid) {
      var w0 := Update(w, c.sid, ApplyVerification(w.sessions[c.sid], verified));
      var w1 := Verdict(w, i, verified);
      SessionStepIsFine(w, c.sid, Session.Event.Verification(verified));
      assert Session.Step(w.sessions[c.sid], Session.Event.Verification(verified)) ==
             ApplyVerification(w.sessions[c.sid], verified);
      hide ApplyVerification, Fine, Good;
      FineCore(w, w0);
      FineOlder(w, w0);
      forall c1 <- w1.oob ensures c1.born <= |w0.typed| && (Occupied(w0) ==> Missed(w0, c1)) {
        assert c in w0.oob;
        assert Older(w0, c) == Older(w0, w1.oob[i]);
        assert c1 in w0.oob || c1 == w1.oob[i];
      }
      hide Occupied, Missed, Older;
      ClaimsChange(w0, w1);
      assert Guarded(w1) == Guarded(w0);
      assert Fine(w, w1) by { FineSame(w, w0, w1); }
    }
  }

  lemma FineOlder(w: World, w0: World)
    requires Fine(w, w0)
    ensures forall c <- w0.oob :: c.born <= |w0.typed| && (Occupied(w0) ==> Missed(w0, c))
  {
  }

  lemma FineSame(w: World, w0: World, w1: World)
    requires Fine(w, w0) && Good(w1) && Typing(w1) == Typing(w0) && Guarded(w1) == Guarded(w0)
    ensures Fine(w, w1)
  {
  }

  lemma ConclusionIsFine(w: World, i: nat)
    requires Good(w) && i < |w.oob| && Valid(w, w.oob[i].sid)
    ensures StepFine(w, Concluded(i), Conclude(w, i))
  {
    var c := w.oob[i];
    StayingIsFine(w);
    if !c.progress.Verifying? {
      var verified := c.progress.Applied? && c.progress.verified;
      var w0 := if c.job.None? then w else Update(w, c.sid, ApplyVerification(w.sessions[c.sid], verified));
      var w1 := Conclude(w, i);
      VerificationMoves(w, c.sid, verified);
      FineOlder(w, w0);
      assert forall c1 <- w1.oob :: c1 in w0.oob;
      hide ApplyVerification, Fine;
      FineCore(w, w0);
      ClaimsChange(w0, w1);
      FineTyping(w, w0);
      assert c in w.oob && (Occupied(w) ==> Missed(w, c));
      hide Occupied, Older, Good, Typing;
    }
  }

  lemma VerificationMoves(w: World, sid: nat, verified: bool)
    requires Good(w) && Valid(w, sid)
    ensures var w0 := Update(w, sid, ApplyVerification(w.sessions[sid], verified));
            Fine(w, w0) && Occupied(w0) == Occupied(w)
    ensures Fine(w, w)
  {
    StayingIsFine(w);
    var s := w.sessions[sid];
    assert Session.Step(s, Session.Event.Verification(verified)) == ApplyVerification(s, verified);
    SessionStepIsFine(w, sid, Session.Event.Verification(verified));
    var w0 := Update(w, sid, ApplyVerification(s, verified));
    assert Taken(ApplyVerification(s, verified)) == Taken(s) by { hide Move; }
    hide Taken, Good, Fine, ApplyVerification;
    SameTaken(w, w0);
  }

  lemma OutsideIsFine(w: World, e: Manager.Event)
    requires WorldInv(w) && Good(w) && !e.BeginTurn? && !e.ResumeTurn?
    ensures StepFine(w, e, Manager.Step(w, e))
  {
    if e.SessionLost? && Valid(w, e.sid) {
      WireLossIsFine(w, e.sid);
    } else if e.Concluded? && e.i < |w.oob| {
      ConclusionIsFine(w, e.i);
    } else {
      CalmIsFine(w, e);
      NoBetrayal(w, e);
      FineStep(w, e, Manager.Step(w, e));
    }
  }

  lemma CalmIsFine(w: World, e: Manager.Event)
    requires WorldInv(w) && Good(w) && !e.BeginTurn? && !e.ResumeTurn?
    requires !(e.SessionLost? && Valid(w, e.sid)) && !(e.Concluded? && e.i < |w.oob|)
    ensures Fine(w, Manager.Step(w, e))
  {
    StayingIsFine(w);
    hide WorldInv, Good, Fine, Session.Step, Verdict, Conclude, Dispose, Put, Gone, BeginStop;
    match e
    case OnSession(sid, e) => if Valid(w, sid) && Autonomous(e) { SessionStepIsFine(w, sid, e); }
    case Interrupt(threw) => if LiveCurrent(w) { CtrlCFrees(w, BeginInterrupt(w, threw), threw); }
    case StopJob(job, threw) => StopIsFine(w, job, threw);
    case ProbeAsked(i) =>
      if i < |w.oob| && Valid(w, w.oob[i].sid) { SessionStepIsFine(w, w.oob[i].sid, ProbeWrite); }
    case Resolved(i, verified) => if i < |w.oob| { VerdictIsFine(w, i, verified); }
    case DisposeManager(notified) => DisposalIsFine(w, notified);
    case _ =>
  }

  lemma NoBetrayal(w: World, e: Manager.Event)
    requires !(e.SessionLost? && Valid(w, e.sid)) && !(e.Concluded? && e.i < |w.oob|)
    ensures !Betrays(w, e)
  {
  }

  lemma StopIsFine(w: World, job: string, threw: bool)
    requires WorldInv(w) && Good(w)
    ensures Fine(w, BeginStop(w, job, threw))
  {
    StayingIsFine(w);
    if BeginStop(w, job, threw) != w {
      if w.cur.Some? {
        assert Valid(w, w.cur.value);
        hide Good, Fine, Put, Gone, WorldInv;
        CtrlCFrees(w, BeginStop(w, job, threw), threw);
      } else {
        hide Taken, WorldInv;
        FineOlder(w, w);
        assert !Occupied(w);
        ClaimsChange(w, ReleasePty(w));
      }
    }
  }

  lemma DisposalIsFine(w: World, notified: bool)
    requires Good(w)
    ensures Fine(w, Dispose(w, notified))
  {
    GoodDials(w);
    assert Core(w);
    hide CloseCurrent, Good, Flow, Core, Fine, DialsFree;
    ClosedSessionFlows(w, w.(disposed := true), notified);
    FlowIsFine(w, Dispose(w, notified));
  }

  lemma StepIsFine(w: World, e: Manager.Event)
    requires WorldInv(w) && Good(w)
    ensures StepFine(w, e, Manager.Step(w, e))
  {
    hide WorldInv, Good, Fine, Guarded, Typing, Begin, Resume, StepFine;
    if e.BeginTurn? || e.ResumeTurn? {
      StayingIsFine(w);
      if e.BeginTurn? && w.turn.None? { BeginIsFine(w, e.kind, e.configured, e.notified, e.now, e.threw); }
      if e.ResumeTurn? && w.turn.Some? { ResumeIsFine(w, w.turn.value, e.reply); }
      NoBetrayal(w, e);
      FineStep(w, e, Manager.Step(w, e));
    } else {
      OutsideIsFine(w, e);
    }
  }

  // ----- the theorems -----

  lemma {:induction false} RunIsGood(events: seq<Manager.Event>)
    ensures var w := Manager.Run(INIT, events); WorldInv(w) && Good(w)
    decreases |events|
  {
    WorldRunKeeps(events);
    if events != [] {
      var before := events[..|events| - 1];
      RunIsGood(before);
      StepIsFine(Manager.Run(INIT, before), events[|events| - 1]);
      hide Good, WorldInv, Manager.Step;
    }
  }

  /**
   * The exact condition, in every reachable world whose flag still guards the PTY: a step takes the guard
   * away if and only if a job is running in the PTY and the step is the late report of a replaced session,
   * or the end of an interrupt or stop that began before that job's line was typed or could not send its Ctrl+C.
   */
  lemma GuardLostIff(events: seq<Manager.Event>, e: Manager.Event)
    requires Guarded(Manager.Run(INIT, events))
    ensures var w := Manager.Run(INIT, events); !Guarded(Manager.Step(w, e)) <==> Betrays(w, e)
  {
    RunIsGood(events);
    StepIsFine(Manager.Run(INIT, events), e);
    hide Manager.Run, Manager.Step, WorldInv, Good;
  }

  /** No step of the run takes the guard away. */
  ghost predicate Unbetrayed(events: seq<Manager.Event>) {
    forall n :: 0 <= n < |events| ==> !Betrays(Manager.Run(INIT, events[..n]), events[n])
  }

  lemma UnbetrayedBefore(events: seq<Manager.Event>)
    requires Unbetrayed(events) && events != []
    ensures Unbetrayed(events[..|events| - 1]) &&
            !Betrays(Manager.Run(INIT, events[..|events| - 1]), events[|events| - 1])
  {
    var before := events[..|events| - 1];
    hide Betrays;
    forall n | 0 <= n < |before| ensures !Betrays(Manager.Run(INIT, before[..n]), before[n]) {
      assert before[..n] == events[..n] && before[n] == events[n];
    }
  }

  /**
   * One owner of the PTY, in every interleaving of turns, interrupts, job stops, lost wires and disposal
   * without such a step: in no session was a command script or a job line ever typed behind a job's line
   * without a Ctrl+C in between, and whenever a job is running in an open PTY, activeJob says so.
   */
  lemma {:induction false} PtyIsExclusive(events: seq<Manager.Event>)
    requires Unbetrayed(events)
    ensures var w := Manager.Run(INIT, events); Guarded(w) && Typing(w)
    decreases |events|
  {
    if events != [] {
      var before, e := events[..|events| - 1], events[|events| - 1];
      UnbetrayedBefore(events);
      PtyIsExclusive(before);
      RunIsGood(before);
      StepIsFine(Manager.Run(INIT, before), e);
      hide Good, WorldInv, Manager.Step, Betrays, Guarded, Typing;
    }
  }

  /** What assertNoActiveJob buys a turn: from its check until its end no PTY anywhere is running a job. */
  lemma CheckedTurnsFindItFree(events: seq<Manager.Event>)
    requires Unbetrayed(events)
    ensures var w := Manager.Run(INIT, events); w.turn.Some? && Checked(w.turn.value) ==> !Occupied(w)
  {
    PtyIsExclusive(events);
    RunIsGood(events);
    hide Manager.Run, Base, Occupied;
  }
}
