/**
 * The session manager in its own form (src/jumpserver/session-manager.ts): what it does to its fields
 * and to its session objects in the segments that decide who owns the PTY, proved to be the steps of
 * Manager.dfy. Session objects stay around after they were replaced, as they do for suspended callers.
 */
module SessionManager {
  import opened Basics
  import opened StateMachine
  import opened Session
  import opened SessionProofs
  import opened Manager
  import opened ManagerProofs
  import opened ManagerPty
  import J = JumpServerSession

  class SessionManager {
    var session: J.JumpServerSession?
    var activeJob: Option<string>
    var stoppingJob: Option<string>
    var disposed: bool
    ghost var all: seq<J.JumpServerSession>   // every session object ever made
    ghost var current: Option<nat>            // where this.session is among them
    ghost var turn: Option<Turn>
    ghost var oob: seq<OutOfBand>
    ghost var typed: seq<Typed>
    ghost var finished: seq<Turn>

    /** The objects are distinct, and this.session is one of them. */
    ghost predicate Linked()
      reads this
    {
      (forall i, k :: 0 <= i < k < |all| ==> all[i] != all[k]) &&
      (session != null <==> current.Some?) && (current.Some? ==> current.value < |all| && all[current.value] == session)
    }

    /** The manager's invariant and that of the PTY, over the states of all its session objects. */
    ghost predicate Valid()
      reads this, all
    {
      Linked() && WorldInv(View()) && Good(View())
    }

    ghost function Sessions(): (r: seq<Sess>)
      reads this, all
      ensures |r| == |all| && forall i :: 0 <= i < |all| ==> r[i] == all[i].View()
    {
      seq(|all|, i requires 0 <= i < |all| reads this, all => all[i].View())
    }

    ghost function View(): World
      reads this, all
    {
      World(Sessions(), current, activeJob, stoppingJob, disposed, turn, oob, typed, finished)
    }

    constructor ()
      ensures Valid() && View() == INIT && all == []
    {
      session, activeJob, stoppingJob, disposed := null, None, None, false;
      all, current, turn, oob, typed, finished := [], None, None, [], [], [];
    }

    // ----- ownership -----

    /** assertNoActiveJob: as long as the claims guard the PTY, a session found free is running no job anywhere. */
    method AssertNoActiveJob() returns (busy: bool)
      requires Valid()
      ensures !busy && Guarded(View()) ==> forall s <- all :: !Taken(s.View())
      ensures busy <==> !NoActiveJob(View())
    {
      busy := stoppingJob.Some? || activeJob.Some?;
      if !busy && Guarded(View()) {
        forall s <- all ensures !Taken(s.View()) {
          var k :| 0 <= k < |all| && all[k] == s;
          assert View().sessions[k] == s.View();
        }
      }
    }

    method ReleasePtyOwnership()
      modifies this`activeJob, this`stoppingJob
      ensures View() == ReleasePty(old(View())) && Linked() == old(Linked())
    {
      activeJob := None;
      stoppingJob := None;
    }

    /** onSessionLost; the reconnect it may schedule is a later queued connect. */
    method SessionWasLost()
      modifies this`activeJob, this`stoppingJob
      ensures View() == OnSessionLost(old(View())) && Linked() == old(Linked())
    {
      if disposed {
        return;
      }
      ReleasePtyOwnership();
    }

    /** The close callback of session object k: the claims go, and the guard with them exactly when k was replaced. */
    method WireOfSessionClosed(s: J.JumpServerSession, ghost k: nat)
      requires Valid() && k < |all| && all[k] == s
      modifies this`activeJob, this`stoppingJob, s
      ensures Valid() && View() == LostAt(old(View()), k)
      ensures old(Guarded(View())) ==> (Guarded(View()) <==> !old(Betrays(View(), SessionLost(k))))
    {
      hide WorldInv, Good, Betrays, Guarded, OnWireClose;
      LossFacts(View(), k);
      if s.wire || s.wireClosed {
        s.WireWentDown();
      }
      assert Sessions() == old(Sessions())[k := s.View()];
      SessionWasLost();
    }

    // ----- out of band -----

    /** interrupt up to the verification: whatever job was running gets its Ctrl+C. */
    method Interrupt(threw: bool) returns (sent: bool)
      requires Valid()
      modifies this, session
      ensures Valid() && View() == BeginInterrupt(old(View()), threw) && all == old(all)
      ensures sent ==> !Occupied(View())
    {
      hide WorldInv, Good, Occupied, Inv;
      ghost var w := View();
      InterruptFacts(w, threw);
      sent := false;
      var s := session;
      if s == null {
        return;
      }
      if !Live(s.stateValue) {
        return;
      }
      sent := SendInterruptTo(s, threw);
      NoteOutOfBand(None, sent);
      assert View() == BeginInterrupt(w, threw);
    }

    /** sendInterrupt on this.session. */
    method SendInterruptTo(s: J.JumpServerSession, threw: bool) returns (sent: bool)
      requires Linked() && session == s && Inv(s.View())
      modifies s`writes
      ensures Linked() && sent == (CanInterrupt(old(s.View())) && !threw)
      ensures View() == if sent then Update(old(View()), current.value, Put(old(s.View()), CtrlC(true)))
              else old(View())
    {
      hide Inv;
      sent := s.SendInterrupt(threw);
      assert Sessions() == old(Sessions())[current.value := s.View()];
    }

    /** interrupt behind its await: activeJob is dropped, and the guard with it exactly when a job it missed runs. */
    method InterruptSettled(ghost i: nat)
      requires Valid() && i < |oob| && oob[i].sid < |all| && oob[i].job.None? && !oob[i].progress.Verifying?
      modifies this`activeJob, this`oob
      ensures Valid() && View() == Conclude(old(View()), i)
      ensures old(Guarded(View())) ==> (Guarded(View()) <==> !old(Betrays(View(), Concluded(i))))
    {
      hide WorldInv, Good, Betrays, Guarded;
      ghost var w := View();
      ConclusionFacts(w, i);
      oob := Without(oob, i);
      activeJob := None;
      assert View() == Conclude(w, i);
    }

    /** stopJob up to the verification; busy: another job owns the shell, or this one is being stopped. */
    method StopJob(job: string, threw: bool) returns (busy: bool, sent: bool)
      requires Valid()
      modifies this, session
      ensures Valid() && View() == BeginStop(old(View()), job, threw) && all == old(all)
      ensures busy <==> (old(activeJob).Some? && old(activeJob) != Some(job)) || old(stoppingJob) == Some(job)
      ensures sent ==> !busy && !Occupied(View())
    {
      hide WorldInv, Good, Occupied, Inv, Put;
      sent := false;
      ghost var w := View();
      StopFacts(w, job, threw);
      var s := session;
      if activeJob.Some? && activeJob != Some(job) {
        return true, sent;
      }
      if stoppingJob == Some(job) {
        return true, sent;
      }
      busy := false;
      if s == null {
        stoppingJob := Some(job);
        ReleasePtyOwnership();
      } else {
        sent := MarkAndInterrupt(job, s, threw);
      }
      assert View() == BeginStop(w, job, threw);
    }

    /** The stop is recorded before the wire is touched. */
    method MarkAndInterrupt(job: string, s: J.JumpServerSession, threw: bool) returns (sent: bool)
      requires Linked() && session == s && Inv(s.View())
      requires !(activeJob.Some? && activeJob != Some(job)) && stoppingJob != Some(job)
      modifies this`stoppingJob, this`oob, s`writes
      ensures Linked() && View() == BeginStop(old(View()), job, threw)
      ensures sent ==> View().sessions != old(View()).sessions
    {
      PutChanges(s.View());
      hide Inv, Put;
      ghost var w := View();
      stoppingJob := Some(job);
      assert View() == w.(stoppingJob := Some(job));
      sent := SendInterruptTo(s, threw);
      NoteOutOfBand(Some(job), sent);
    }

    /** The caller now waits for its verification, or goes on at once when nothing was sent. */
    ghost method NoteOutOfBand(job: Option<string>, sent: bool)
      requires current.Some?
      modifies this`oob
      ensures var c := OutOfBand(current.value, job, if sent then Verifying else Unsent, |typed|);
              View() == old(View()).(oob := old(oob) + [c])
      ensures Linked() == old(Linked())
    {
      oob := oob + [OutOfBand(current.value, job, if sent then Verifying else Unsent, |typed|)];
    }

    /** The end of interruptAndVerify for verification i. */
    method VerificationResolved(s: J.JumpServerSession, ghost i: nat, verified: bool)
      requires Valid() && i < |oob| && oob[i].progress.Verifying? && oob[i].sid < |all| && all[oob[i].sid] == s
      modifies this`oob, s
      ensures Valid() && View() == Verdict(old(View()), i, verified)
    {
      hide WorldInv, Good, Inv, ApplyVerification;
      ghost var w := View();
      VerdictFacts(w, i, verified);
      s.ApplyVerdict(verified);
      assert Sessions() == old(Sessions())[oob[i].sid := s.View()];
      oob := oob[i := oob[i].(progress := Applied(verified))];
      assert View() == Verdict(w, i, verified);
    }

    /** stopJob behind its await: the verdict again, and both claims are dropped whatever it was. */
    method StopSettled(s: J.JumpServerSession, ghost i: nat, verified: bool)
      requires Valid() && i < |oob| && oob[i].sid < |all| && all[oob[i].sid] == s
      requires oob[i].job.Some? && !oob[i].progress.Verifying?
      requires verified == (oob[i].progress.Applied? && oob[i].progress.verified)
      modifies this`activeJob, this`stoppingJob, this`oob, s
      ensures Valid() && View() == Conclude(old(View()), i)
      ensures old(Guarded(View())) ==> (Guarded(View()) <==> !old(Betrays(View(), Concluded(i))))
    {
      hide WorldInv, Good, Betrays, Guarded, Inv, ApplyVerification;
      ghost var w := View();
      ConclusionFacts(w, i);
      s.ApplyVerdict(verified);
      assert Sessions() == old(Sessions())[oob[i].sid := s.View()];
      oob := Without(oob, i);
      activeJob := None;
      stoppingJob := None;
      assert View() == Conclude(w, i);
    }

    // ----- closing and opening -----

    /** Close this.session when there is one; the wire's close callback may report the loss at once. */
    method CloseStale(notified: bool)
      requires Linked() && (session != null ==> Inv(session.View()))
      modifies this`activeJob, this`stoppingJob, session
      ensures Linked() && View() == CloseCurrent(old(View()), notified) && all == old(all) && current == old(current)
    {
      hide Inv;
      var s := session;
      if s == null {
        return;
      }
      s.CloseSession(notified);
      hide Close;
      assert Sessions() == old(Sessions())[current.value := s.View()];
      SessionWasLost();
    }

    /** dispose. */
    method DisposeManager(notified: bool)
      requires Valid()
      modifies this`disposed, this`session, this`current, this`activeJob, this`stoppingJob, session
      ensures Valid() && View() == Dispose(old(View()), notified)
    {
      hide WorldInv, Good, Inv;
      hide CloseCurrent;
      DisposalFacts(View(), notified);
      disposed := true;
      assert View() == old(View()).(disposed := true);
      CloseStale(notified);
      ghost var w := View();
      session, current := null, None;
      assert View() == w.(cur := None);
    }

    /** connectLocked with the password at hand, up to the dial; the turn resumes here. */
    method OpenSession(t: Turn, next: After, notified: bool) returns (s: J.JumpServerSession)
      requires Valid() && turn == Some(t) && t.stage == Password(next) && !t.kind.Exec?
      modifies this, session
      ensures Valid() && View() == Open(old(View()), t, next, notified) && session == s && all == old(all) + [s]
      ensures old(Guarded(View())) ==> Guarded(View())
    {
      hide WorldInv, Good, Guarded, Inv, CloseCurrent, ConnectBegin;
      ghost var w := View();
      OpeningFacts(w, t, next, notified);
      CurrentInv(w);
      CloseAndRelease(notified);
      s := NewSession();
      turn := Some(t.(stage := Opening(next), sid := |all| - 1));
      assert View() == Open(w, t, next, notified);
    }

    method CloseAndRelease(notified: bool)
      requires Linked() && (session != null ==> Inv(session.View()))
      modifies this`activeJob, this`stoppingJob, session
      ensures Linked() && View() == ReleasePty(CloseCurrent(old(View()), notified)) && all == old(all)
    {
      hide Inv;
      CloseStale(notified);
      hide CloseCurrent;
      ReleasePtyOwnership();
    }

    method NewSession() returns (s: J.JumpServerSession)
      requires Linked()
      modifies this`session, this`all, this`current
      ensures Linked() && fresh(s) && session == s && all == old(all) + [s]
      ensures var w := old(View()); View() == w.(sessions := w.sessions + [CONNECTED], cur := Some(|w.sessions|))
    {
      ghost var before := Sessions();
      s := new J.JumpServerSession();
      s.BeginConnect();
      assert s.View() == CONNECTED;
      all := all + [s];
      session, current := s, Some(|all| - 1);
      hide ConnectBegin;
      assert Sessions() == before + [s.View()];
    }

    // ----- typing -----

    /**
     * The gate of a run or batch has opened: call session.exec. What it types is safe, and as long as the
     * claims guard the PTY it is typed at a prompt.
     */
    method ExecuteOn(s: J.JumpServerSession, t: Turn, threw: bool)
      requires Valid() && turn == Some(t) && t.stage.Gate? && TypesFor(t.kind) && t.sid < |all| && all[t.sid] == s
      modifies this`turn, this`typed, s
      ensures Valid() && View() == Execute(old(View()), t, Running, threw)
      ensures typed == old(typed) || (|typed| == |old(typed)| + 1 && SafelyTyped(typed[|old(typed)|]))
      ensures old(Guarded(View())) ==> Guarded(View()) && (typed != old(typed) ==> !Streaming(old(s.writes)))
    {
      hide WorldInv, Good, Guarded, SafelyTyped, Inv, Streaming, Execute;
      ghost var w := View();
      ExecutionFacts(w, t, threw);
      CallExec(s, t, threw);
    }

    /** Call session.exec and record what went to the wire. */
    method CallExec(s: J.JumpServerSession, ghost t: Turn, threw: bool)
      requires Linked() && t.sid < |all| && all[t.sid] == s
      modifies this`turn, this`typed, s
      ensures Linked() && View() == Execute(old(View()), t, Running, threw)
    {
      hide ExecBegin;
      ghost var was := s.View();
      RunExec(s, t.sid, threw);
      ghost var want := if t.kind.Exec? then None else Some(TargetOf(t.kind));
      ghost var line := CommandScript(want, s.stateValue, s.currentTarget, s.currentIps, activeJob, s.overlapped);
      NoteScript(t, if s.writes == was.writes then [] else [line]);
    }

    /** The turn waits for its command; what went to the wire is history. */
    ghost method NoteScript(t: Turn, lines: seq<Typed>)
      modifies this`turn, this`typed
      ensures View() == old(View()).(turn := Some(t.(stage := Running)), typed := old(typed) + lines)
      ensures Linked() == old(Linked())
    {
      turn, typed := Some(t.(stage := Running)), typed + lines;
    }

    /** exec: the queue admits it, and it types into the current session or refuses. */
    method ExecNow(threw: bool) returns (refused: bool)
      requires Valid() && turn.None?
      modifies this, session
      ensures Valid() && View() == Begin(old(View()), Exec, true, false, 0, threw)
      ensures refused <==> old(session == null || !NoActiveJob(View()) || session.stateValue != ASSET_SHELL)
      ensures old(Guarded(View())) ==> Guarded(View()) && (typed != old(typed) ==> !old(Occupied(View())))
    {
      hide WorldInv, Good, Guarded, Occupied, Inv, Execute;
      ghost var w := View();
      ExecFactsNow(w, threw);
      refused := true;
      var s := session;
      if s == null {
        return;
      }
      var busy := AssertNoActiveJob();
      if !Live(s.stateValue) || busy || s.stateValue != ASSET_SHELL {
        return;
      }
      refused := false;
      CallExec(s, NewTurn(Exec, current.value), threw);
      assert View() == Begin(w, Exec, true, false, 0, threw);
    }

    method RunExec(s: J.JumpServerSession, ghost k: nat, threw: bool)
      requires Linked() && k < |all| && all[k] == s
      modifies s
      ensures s.View() == ExecBegin(old(s.View()), threw) &&
              View() == Update(old(View()), k, ExecBegin(old(s.View()), threw))
    {
      s.BeginExec(threw);
      hide ExecBegin;
      assert Sessions() == old(Sessions())[k := s.View()];
    }

    method TypeJobLine(s: J.JumpServerSession, ghost k: nat) returns (written: bool)
      requires Linked() && k < |all| && all[k] == s && Inv(s.View()) && s.op.Idle?
      modifies s`writes
      ensures s.View() == WriteJobLine(old(s.View())) && View() == Update(old(View()), k, WriteJobLine(old(s.View())))
      ensures written == !Gone(old(s.View())) && (!written ==> View() == old(View()))
    {
      hide Inv;
      written := s.WriteLine();
      assert Sessions() == old(Sessions())[k := s.View()];
    }

    ghost method EndTurn()
      modifies this`turn, this`finished
      ensures View() == Finish(old(View())) && typed == old(typed)
    {
      if turn.Some? {
        finished, turn := finished + [turn.value], None;
      }
    }

    /** The end of startJob: the raw line, at a prompt of its target's shell, then the claim that guards it. */
    method StartStreamingOn(s: J.JumpServerSession, t: Turn) returns (started: bool)
      requires Valid() && turn == Some(t) && t.stage.Gate? && t.kind.StartJob? && t.sid < |all| && all[t.sid] == s
      modifies this, s
      ensures Valid() && View() == StartStreaming(old(View()), t) && started == !Gone(old(s.View()))
      ensures started ==>
                typed == old(typed) + [old(JobLineOf(View(), t))] && SafelyTyped(typed[|old(typed)|]) &&
                activeJob == Some(t.kind.job)
      ensures old(Guarded(View())) ==> Guarded(View()) && (started ==> !Streaming(old(s.writes)))
    {
      hide WorldInv, Good, Guarded, SafelyTyped, Inv, Streaming, Finish, Update, WriteJobLine, JobLineOf;
      ghost var w := View();
      StreamingFacts(w, t);
      ghost var line := JobLineOf(w, t);
      started := TypeJobLine(s, t.sid);
      EndTurn();
      if started {
        Claim(t.kind.job, line);
      }
    }

    method Claim(job: string, ghost line: Typed)
      modifies this`activeJob, this`typed
      ensures View() == old(View()).(activeJob := Some(job), typed := old(typed) + [line])
    {
      activeJob := Some(job);
      typed := typed + [line];
    }
  }

  // ----- what the methods rest on -----

  lemma PutChanges(s: Sess)
    ensures Put(s, CtrlC(true)) != s
  {
    assert |Put(s, CtrlC(true)).writes| == |s.writes| + 1;
  }

  lemma SessionInv(w: World, k: nat)
    requires WorldInv(w) && Manager.Valid(w, k)
    ensures Inv(w.sessions[k])
  {
  }

  lemma CurrentInv(w: World)
    requires WorldInv(w)
    ensures w.cur.Some? ==> Manager.Valid(w, w.cur.value) && Inv(w.sessions[w.cur.value])
  {
  }

  /** The wire of session k reports its loss. */
  function LostAt(w: World, k: nat): World
    requires Manager.Valid(w, k)
  {
    OnSessionLost(Update(w, k, Session.Step(w.sessions[k], WireClosed)))
  }

  lemma LossFacts(w: World, k: nat)
    requires WorldInv(w) && Good(w) && Manager.Valid(w, k)
    ensures WorldInv(LostAt(w, k)) && Good(LostAt(w, k))
    ensures Guarded(w) ==> (Guarded(LostAt(w, k)) <==> !Betrays(w, SessionLost(k)))
    ensures Inv(w.sessions[k])
  {
    WorldStepKeeps(w, SessionLost(k));
    StepIsFine(w, SessionLost(k));
    SessionInv(w, k);
    hide WorldInv, Good, Guarded, Betrays, Typing, Inv, OnSessionLost, Session.Step;
  }

  lemma ConclusionFacts(w: World, i: nat)
    requires WorldInv(w) && Good(w) && i < |w.oob|
    ensures WorldInv(Conclude(w, i)) && Good(Conclude(w, i))
    ensures Guarded(w) ==> (Guarded(Conclude(w, i)) <==> !Betrays(w, Concluded(i)))
    ensures Manager.Valid(w, w.oob[i].sid) && Inv(w.sessions[w.oob[i].sid])
  {
    hide WorldInv, Good, Guarded, Betrays, Typing, Inv;
    hide Begin, Resume, Session.Step, BeginInterrupt, BeginStop, Dispose, Verdict, Conclude;
    WorldStepKeeps(w, Concluded(i));
    StepIsFine(w, Concluded(i));
    CallerKnown(w, i);
  }

  lemma CallerKnown(w: World, i: nat)
    requires WorldInv(w) && i < |w.oob|
    ensures Manager.Valid(w, w.oob[i].sid) && Inv(w.sessions[w.oob[i].sid])
  {
    assert w.oob[i] in w.oob;
  }

  lemma VerdictFacts(w: World, i: nat, verified: bool)
    requires WorldInv(w) && Good(w) && i < |w.oob|
    ensures WorldInv(Verdict(w, i, verified)) && Good(Verdict(w, i, verified))
    ensures Manager.Valid(w, w.oob[i].sid) && Inv(w.sessions[w.oob[i].sid])
  {
    hide WorldInv, Good, Guarded, Betrays, Typing, Inv;
    hide Begin, Resume, Session.Step, BeginInterrupt, BeginStop, Dispose, Verdict, Conclude;
    WorldStepKeeps(w, Resolved(i, verified));
    StepIsFine(w, Resolved(i, verified));
    CallerKnown(w, i);
  }

  lemma DisposalFacts(w: World, notified: bool)
    requires WorldInv(w) && Good(w)
    ensures WorldInv(Dispose(w, notified)) && Good(Dispose(w, notified))
    ensures w.cur.Some? ==> Manager.Valid(w, w.cur.value) && Inv(w.sessions[w.cur.value])
  {
    hide WorldInv, Good, Fine, Inv, Begin, Resume, Session.Step, BeginInterrupt, BeginStop, Dispose, Verdict, Conclude;
    CurrentInv(w);
    WorldStepKeeps(w, Manager.Event.DisposeManager(notified));
    DisposalIsFine(w, notified);
    FineCore(w, Dispose(w, notified));
  }

  lemma InterruptFacts(w: World, threw: bool)
    requires WorldInv(w) && Good(w)
    ensures var w1 := BeginInterrupt(w, threw);
            WorldInv(w1) && Good(w1) && (w1.sessions != w.sessions ==> !Occupied(w1))
    ensures w.cur.Some? ==> Manager.Valid(w, w.cur.value) && Inv(w.sessions[w.cur.value])
  {
    hide WorldInv, Good, Fine, Inv, Occupied, Put, Gone;
    hide Begin, Resume, Session.Step, BeginStop, Dispose, Verdict, Conclude;
    CurrentInv(w);
    WorldStepKeeps(w, Manager.Event.Interrupt(threw));
    var w1 := BeginInterrupt(w, threw);
    if LiveCurrent(w) { CtrlCFrees(w, w1, threw); FineCore(w, w1); }
  }

  lemma StopFacts(w: World, job: string, threw: bool)
    requires WorldInv(w) && Good(w)
    ensures var w1 := BeginStop(w, job, threw);
            WorldInv(w1) && Good(w1) && (w1.sessions != w.sessions ==> !Occupied(w1))
    ensures w.cur.Some? ==> Manager.Valid(w, w.cur.value) && Inv(w.sessions[w.cur.value])
  {
    hide WorldInv, Good, Fine, Inv, Occupied, Put, Gone;
    hide Begin, Resume, Session.Step, BeginInterrupt, Dispose, Verdict, Conclude;
    CurrentInv(w);
    WorldStepKeeps(w, Manager.Event.StopJob(job, threw));
    StopIsFine(w, job, threw);
    FineCore(w, BeginStop(w, job, threw));
    if w.cur.Some? && BeginStop(w, job, threw) != w { CtrlCFrees(w, BeginStop(w, job, threw), threw); }
  }

  lemma OpeningFacts(w: World, t: Turn, next: After, notified: bool)
    requires WorldInv(w) && Good(w) && w.turn == Some(t) && t.stage == Password(next) && !t.kind.Exec?
    ensures var w1 := Open(w, t, next, notified); WorldInv(w1) && Good(w1) && (Guarded(w) ==> Guarded(w1))
  {
    ResumeRestKeeps(w, t, Reply(true, true, notified, 0, false));
    ResumeRestIsFine(w, t, Reply(true, true, notified, 0, false));
    hide WorldInv, Good, Guarded, Open, Typing;
  }

  lemma ExecutionFacts(w: World, t: Turn, threw: bool)
    requires WorldInv(w) && Good(w) && w.turn == Some(t) && t.stage.Gate? && TypesFor(t.kind) && Manager.Valid(w, t.sid)
    ensures var w1 := Execute(w, t, Running, threw);
            WorldInv(w1) && Good(w1) && (Guarded(w) ==> Guarded(w1)) && (forall e <- w1.typed :: SafelyTyped(e)) &&
            (w1.typed == w.typed || |w1.typed| == |w.typed| + 1) &&
            (Guarded(w) && w1.typed != w.typed ==> !Streaming(w.sessions[t.sid].writes))
    ensures Inv(w.sessions[t.sid]) && w.sessions[t.sid].op.Idle?
  {
    var r := Reply(true, true, false, 0, threw);
    ResumeRestKeeps(w, t, r);
    ResumeRestIsFine(w, t, r);
    assert Execute(w, t, Running, threw) == Resume(w, t, r) by { hide Execute; }
    SafeHistory(Execute(w, t, Running, threw));
    StepIsTame(w.sessions[t.sid], BeginExec(threw));
    assert Base(w) && AllIdle(w) && w.activeJob.None?;
    hide WorldInv, Good, SafelyTyped, Streaming;
    AtPrompt(w, t.sid);
    ExecWritesOpen(w.sessions[t.sid], threw);
  }

  lemma ExecFactsNow(w: World, threw: bool)
    requires WorldInv(w) && Good(w) && w.turn.None?
    ensures var w1 := Begin(w, Exec, true, false, 0, threw);
            WorldInv(w1) && Good(w1) && (Guarded(w) ==> Guarded(w1)) &&
              (Guarded(w) && w1.typed != w.typed ==> !Occupied(w))
    ensures w.cur.Some? ==> Manager.Valid(w, w.cur.value) && w.sessions[w.cur.value].op.Idle?
  {
    hide WorldInv, Good, Typing, Execute, Occupied;
    BeginKeeps(w, Exec, true, false, 0, threw);
    BeginIsFine(w, Exec, true, false, 0, threw);
    assert w.cur.Some? ==> Manager.Valid(w, w.cur.value) && w.sessions[w.cur.value].op.Idle? by { IdleCurrent(w); }
  }

  lemma IdleCurrent(w: World)
    requires WorldInv(w) && w.turn.None?
    ensures w.cur.Some? ==> Manager.Valid(w, w.cur.value) && w.sessions[w.cur.value].op.Idle?
  {
  }

  lemma ExecWritesOpen(s: Sess, threw: bool)
    ensures ExecBegin(s, threw).writes != s.writes ==> !Gone(s)
  {
    hide Move;
  }

  lemma SafeHistory(w: World)
    requires WorldInv(w)
    ensures forall e <- w.typed :: SafelyTyped(e)
  {
    hide SafelyTyped;
  }

  lemma AtPrompt(w: World, k: nat)
    requires Manager.Valid(w, k) && w.activeJob.None?
    ensures Guarded(w) && !Gone(w.sessions[k]) ==> !Streaming(w.sessions[k].writes)
  {
    assert Guarded(w) ==> !Taken(w.sessions[k]);
    hide Streaming;
  }

  lemma StreamingFacts(w: World, t: Turn)
    requires WorldInv(w) && Good(w) && w.turn == Some(t) && t.stage.Gate? && t.kind.StartJob? && Manager.Valid(w, t.sid)
    ensures var w1 := StartStreaming(w, t);
            WorldInv(w1) && Good(w1) && (Guarded(w) ==> Guarded(w1)) &&
              (!Gone(w.sessions[t.sid]) ==> SafelyTyped(JobLineOf(w, t))) &&
            (Guarded(w) && !Gone(w.sessions[t.sid]) ==> !Streaming(w.sessions[t.sid].writes))
    ensures Inv(w.sessions[t.sid]) && w.sessions[t.sid].op.Idle?
  {
    var r := Reply(true, true, false, 0, false);
    ResumeRestKeeps(w, t, r);
    ResumeRestIsFine(w, t, r);
    assert StartStreaming(w, t) == Resume(w, t, r) by { hide StartStreaming; }
    SafeHistory(StartStreaming(w, t));
    assert AllIdle(w) && w.activeJob.None?;
    SessionInv(w, t.sid);
    hide WorldInv, Good, SafelyTyped, Streaming, Inv;
    AtPrompt(w, t.sid);
    if !Gone(w.sessions[t.sid]) { assert StartStreaming(w, t).typed[|w.typed|] == JobLineOf(w, t); }
  }
}
