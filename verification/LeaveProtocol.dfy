/** How often one leave() types its `exit` (src/jumpserver/session.ts), whatever else goes on meanwhile. */
module LeaveProtocol {
  import opened Basics
  import opened StateMachine
  import opened Detector
  import opened Session
  import opened SessionProofs
  import opened EntryProtocol
  import opened SessionExits
  import opened SessionEvidence
  import opened SessionOutcomes

  predicate IsExit(w: Write) { w.ExitLine? }

  /** The exits typed since s0. */
  function Exits(s0: Sess, s: Sess): nat
    requires |s0.writes| <= |s.writes|
  {
    |Filter(Since(s0, s), IsExit)|
  }

  /** How many exits a leave has typed, by where it stands. */
  predicate LeaveStage(op: Op, exits: nat) {
    match op
    case LeaveWait(attempt) => exits == attempt + 1 && attempt <= LEAVE_RETRIES
    case LeaveBackoff(attempt) => exits == attempt && 1 <= attempt <= LEAVE_RETRIES
    case Returned(_) => exits <= LEAVE_RETRIES + 1
    case _ => false
  }

  lemma ExitsAppend(s0: Sess, s: Sess, t: Sess)
    requires |s0.writes| <= |s.writes|
    ensures t.writes == s.writes ==> |s0.writes| <= |t.writes| && Exits(s0, t) == Exits(s0, s)
    ensures forall w :: t.writes == s.writes + [w] ==>
              |s0.writes| <= |t.writes| && Exits(s0, t) == Exits(s0, s) + if IsExit(w) then 1 else 0
  {
    if t.writes == s.writes { assert Since(s0, t) == Since(s0, s); }
    forall w | t.writes == s.writes + [w] ensures Exits(s0, t) == Exits(s0, s) + if IsExit(w) then 1 else 0 {
      assert Since(s0, t) == Since(s0, s) + [w];
      FilterAppend(Since(s0, s), [w], IsExit);
      assert Filter([w], IsExit) == if IsExit(w) then [w] else [];
    }
  }

  lemma LeavePollIsSilent(s: Sess, o: Obs)
    requires s.op.LeaveWait?
    ensures LeavePoll(s, o).writes == s.writes
  {
    hide Move;
  }

  /** What reaches a leave from outside types no exit. */
  lemma LeaveOutside(s: Sess, e: Event)
    requires (IsLeave(s.op) || s.op.Returned?) && !e.Poll? && !e.Consume? && !e.Resend?
    ensures var t := Step(s, e);
            t.op == s.op && (t.writes == s.writes || t.writes == s.writes + [Probe] ||
                             t.writes == s.writes + [CtrlC(true)])
  {
    hide SetState, Advance, EnterBegin, ExecBegin, LeaveBegin, ListBegin, WriteJobLine, ConnectDialed, LeaveResend,
         Close, OnWireClose, ApplyVerification;
    match e
    case Disposed(notified) => SilentClose(s, notified);
    case WireClosed => SilentMoves(s, true);
    case Verification(verified) => SilentMoves(s, verified);
    case _ =>
  }

  lemma LeaveStep(s0: Sess, s: Sess, e: Event)
    requires |s0.writes| <= |s.writes| && LeaveStage(s.op, Exits(s0, s)) && !e.Consume?
    ensures |s0.writes| <= |Step(s, e).writes| && LeaveStage(Step(s, e).op, Exits(s0, Step(s, e)))
  {
    hide Exits, Step;
    ExitsAppend(s0, s, Step(s, e));
    if e.Poll? {
      LeavePolled(s, e);
    } else if !e.Resend? {
      LeaveOutside(s, e);
    } else if s.op.LeaveBackoff? {
      ExitAgain(s, e);
    } else {
      NothingToResend(s);
    }
  }

  lemma NothingToResend(s: Sess)
    requires !s.op.LeaveBackoff?
    ensures Step(s, Resend) == s
  {
  }

  lemma LeavePolled(s: Sess, e: Event)
    requires e.Poll? && (IsLeave(s.op) || s.op.Returned?)
    ensures var t := Step(s, e);
            t.writes == s.writes &&
            (t.op == s.op || t.op.Returned? ||
             (s.op.LeaveWait? && s.op.attempt < LEAVE_RETRIES && t.op == LeaveBackoff(s.op.attempt + 1)))
  {
    hide Step, LeavePoll;
    AdvanceIs(s, e.o, e.now, e.notified, e.complete, e.paged);
    if s.op.LeaveWait? {
      LeavePollIsSilent(s, e.o);
      LeaveAnswersIff(s, e, Succeeded);
    }
  }

  /**
   * From its first segment until its caller takes the result, and whatever interleaves, one leave types `exit`
   * once for every wait it has begun, at most four times. (`LeaveAnswersIff` says when a wait is followed by another.)
   */
  lemma {:induction false} ExitsPerLeave(s0: Sess, events: seq<Event>)
    requires s0.op.Idle? && forall e <- events :: !e.Consume?
    ensures var s := Run(Step(s0, BeginLeave), events);
            |s0.writes| <= |s.writes| && LeaveStage(s.op, Exits(s0, s)) && Exits(s0, s) <= LEAVE_RETRIES + 1
    decreases |events|
  {
    hide Step;
    if events == [] {
      BeginningsIff(s0, false);
      ExitsAppend(s0, s0, Step(s0, BeginLeave));
      assert Since(s0, s0) == [];
    } else {
      ExitsPerLeave(s0, events[..|events| - 1]);
      hide Exits;
      LeaveStep(s0, Run(Step(s0, BeginLeave), events[..|events| - 1]), events[|events| - 1]);
    }
  }
}
