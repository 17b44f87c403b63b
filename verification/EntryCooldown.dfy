/**
 * The cooldown of a target the bastion could not reach, over whole runs: which of a session's steps start it and
 * which end it, and that the next entry is refused exactly until it is over.
 */
module EntryCooldown {
  import opened Basics
  import opened StateMachine
  import opened TargetVerify
  import opened Detector
  import opened Session
  import opened SessionProofs
  import opened SessionTheorems
  import opened EntryProtocol
  import opened SessionExits
  import opened SessionOutcomes

  /** The step ends an entry of this target because the bastion could not reach it. */
  predicate RefusedAsUnreachable(s: Sess, e: Event, target: string) {
    e.Poll? && s.op.EnterWait? && s.op.target == target && Step(s, e).op == Returned(Failed(ASSET_UNREACHABLE))
  }

  /** The step begins another entry of the target, proves one, or closes the session. */
  predicate StartsAfresh(s: Sess, e: Event, target: string) {
    e.Disposed? ||
    (s.op == EnterProbe(target) && Step(s, e).op == Returned(Succeeded)) ||
    (Step(s, e).writes == s.writes + [TargetLine(target)] && e.BeginEnter?)
  }

  /** When the target was last found unreachable, if nothing was started afresh since. */
  function LastRefusal(events: seq<Event>, target: string): Option<int>
    decreases |events|
  {
    if events == [] then None
    else
      var before, e := events[..|events| - 1], events[|events| - 1];
      var s := Run(CONNECTED, before);
      if StartsAfresh(s, e, target) then None
      else if RefusedAsUnreachable(s, e, target) then Some(e.now)
      else LastRefusal(before, target)
  }

  /** The session remembers exactly that. */
  predicate Remembers(s: Sess, target: string, last: Option<int>) {
    (target in s.unreachable <==> last.Some?) &&
    (last.Some? ==> s.unreachable[target] == last.value + UNREACHABLE_COOLDOWN_MS)
  }

  // ----- which steps touch it -----

  lemma EntryPollRemembers(s: Sess, o: Obs, now: int)
    requires s.op.EnterWait?
    ensures var t := EnterPoll(s, o, now);
            t.unreachable == (if t.op == Returned(Failed(ASSET_UNREACHABLE))
                              then s.unreachable[s.op.target := now + UNREACHABLE_COOLDOWN_MS] else s.unreachable)
  {
    hide Offers, EnterFail, SetState, FailureCode, LateCode, Gone;
    NoUnreachable(s);
    forall t: Sess, code
      ensures EnterFail(t, code).unreachable == t.unreachable && EnterFail(t, code).op == Returned(Failed(code))
    {
      FailKeepsCooldowns(t, code);
    }
    SetKeepsCooldowns(s);
  }

  lemma SetKeepsCooldowns(s: Sess)
    ensures forall next :: SetState(s, next).unreachable == s.unreachable
  {
    hide Move;
  }

  lemma FailKeepsCooldowns(s: Sess, code: ErrorCode)
    ensures EnterFail(s, code).unreachable == s.unreachable && EnterFail(s, code).op == Returned(Failed(code))
  {
    hide Move;
  }

  lemma IdentityRemembers(s: Sess, o: Obs)
    requires s.op.EnterProbe?
    ensures var t := EnterProbePoll(s, o);
            t.unreachable == (if t.op == Returned(Succeeded) then s.unreachable - {s.op.target} else s.unreachable)
  {
    hide EnterFail, NonEmpty, VerifyTargetIdentity, SetState;
    forall t: Sess, code
      ensures EnterFail(t, code).unreachable == t.unreachable && EnterFail(t, code).op == Returned(Failed(code))
    {
      FailKeepsCooldowns(t, code);
    }
    SetKeepsCooldowns(s);
    AcceptForgets(s, o);
  }

  lemma AcceptForgets(s: Sess, o: Obs)
    requires s.op.EnterProbe?
    ensures forall ips, verified :: var t := EnterAccepted(s, s.op.target, ips, verified);
              t.unreachable == s.unreachable - {s.op.target} && t.op == Returned(Succeeded)
  {
    hide Move;
  }

  lemma OtherPollsRemember(s: Sess, e: Event)
    requires e.Poll? && !IsEnter(s.op)
    ensures Step(s, e).unreachable == s.unreachable
  {
    hide Step, MenuPoll, LeavePoll, ListPoll, ExecPoll, ExecPromptPoll, ExecProbePoll;
    AdvanceIs(s, e.o, e.now, e.notified, e.complete, e.paged);
    ExecRemembers(s, e.o);
    if s.op.MenuWait? { MenuRemembers(s, e.o, e.notified); }
    WaitsRemember(s, e.o, e.complete, e.paged);
  }

  lemma ExecRemembers(s: Sess, o: Obs)
    ensures ExecPoll(s, o).unreachable == s.unreachable
    ensures s.op.ExecPrompt? ==> ExecPromptPoll(s, o).unreachable == s.unreachable
    ensures s.op.ExecProbe? ==> ExecProbePoll(s, o).unreachable == s.unreachable
  {
    hide SetState, Gone;
    forall t: Sess, next ensures SetState(t, next).unreachable == t.unreachable { SetKeepsCooldowns(t); }
  }

  lemma MenuRemembers(s: Sess, o: Obs, notified: bool)
    ensures MenuPoll(s, o, notified).unreachable == s.unreachable
  {
    hide ConnectFail, SetState;
    SetKeepsCooldowns(s);
    FailedConnectRemembers(s, notified, ABORTED);
    FailedConnectRemembers(SetState(s, UNKNOWN), notified, MENU_NOT_DETECTED);
  }

  lemma FailedConnectRemembers(s: Sess, notified: bool, code: ErrorCode)
    ensures ConnectFail(s, notified, code).unreachable == s.unreachable
  {
    hide SetState;
    forall t: Sess, next ensures SetState(t, next).unreachable == t.unreachable { SetKeepsCooldowns(t); }
  }

  lemma WaitsRemember(s: Sess, o: Obs, complete: bool, paged: bool)
    ensures s.op.LeaveWait? ==> LeavePoll(s, o).unreachable == s.unreachable
    ensures ListPoll(s, o, complete, paged).unreachable == s.unreachable
  {
    hide SetState, Gone;
    forall t: Sess, next ensures SetState(t, next).unreachable == t.unreachable { SetKeepsCooldowns(t); }
  }

  lemma BeginRemembers(s: Sess, target: string, account: Option<int>, now: int)
    ensures var t := EnterBegin(s, target, account, now);
            if t.writes == s.writes then t.unreachable == s.unreachable
            else t.unreachable == s.unreachable - {target} && t.writes == s.writes + [TargetLine(target)]
  {
    hide Admit, SetState;
    forall t: Sess, next
      ensures SetState(t, next).unreachable == t.unreachable && SetState(t, next).writes == t.writes
    {
      SetTouchesLife(t, next);
    }
  }

  lemma SetTouchesLife(s: Sess, next: SessionState)
    ensures var t := SetState(s, next); t == s.(life := t.life)
  {
    hide Move;
  }

  lemma OthersRemember(s: Sess, e: Event)
    requires !e.Poll? && !e.BeginEnter? && !e.Disposed?
    ensures Step(s, e).unreachable == s.unreachable
  {
    hide SetState, EnterBegin, Advance, ConnectFail, LeaveBegin, ListBegin, WriteJobLine, Close;
    forall t: Sess, next ensures SetState(t, next).unreachable == t.unreachable { SetKeepsCooldowns(t); }
    FailedConnectRemembers(s, false, CONNECT_FAILED);
    assert LeaveBegin(s).unreachable == ListBegin(s).unreachable == WriteJobLine(s).unreachable == s.unreachable by {
      BeginsRemember(s);
    }
  }

  lemma BeginsRemember(s: Sess)
    ensures LeaveBegin(s).unreachable == ListBegin(s).unreachable == WriteJobLine(s).unreachable == s.unreachable
  {
  }

  lemma DisposalForgets(s: Sess, notified: bool)
    ensures Close(s, notified).unreachable == map[]
  {
    hide SetState;
    forall t: Sess, next ensures SetState(t, next).unreachable == t.unreachable { SetKeepsCooldowns(t); }
  }

  // ----- every run -----

  lemma StepRemembers(s: Sess, e: Event, target: string, last: Option<int>)
    requires Remembers(s, target, last)
    ensures Remembers(Step(s, e), target,
                      if StartsAfresh(s, e, target) then None
                      else if RefusedAsUnreachable(s, e, target) then Some(e.now) else last)
  {
    hide Close, Advance, EnterBegin, ExecBegin, ConnectDialed, OnWireClose, ApplyVerification, LeaveBegin, ListBegin,
         WriteJobLine, EnterPoll, EnterProbePoll;
    if e.Disposed? {
      DisposalForgets(s, e.notified);
    } else if e.BeginEnter? {
      BeginRemembers(s, e.wanted, e.chosenAccount, e.at);
      SameLine(s, e.wanted, target);
    } else if e.Poll? && IsEnter(s.op) {
      EntryPollIs(s, e.o, e.now, e.notified, e.complete, e.paged);
      hide Step;
      if s.op.EnterWait? { EntryPollRemembers(s, e.o, e.now); } else { IdentityRemembers(s, e.o); }
    } else if e.Poll? {
      OtherPollsRemember(s, e);
      hide Step;
    } else {
      OthersRemember(s, e);
      if IsEnter(s.op) { OnlyPollsEnd(s, e); }
      hide Step;
    }
  }

  lemma SameLine(s: Sess, wanted: string, target: string)
    ensures s.writes + [TargetLine(wanted)] == s.writes + [TargetLine(target)] <==> wanted == target
  {
    var a, b := s.writes + [TargetLine(wanted)], s.writes + [TargetLine(target)];
    assert a[|s.writes|] == TargetLine(wanted) && b[|s.writes|] == TargetLine(target);
  }

  lemma {:induction false} RunRemembers(events: seq<Event>, target: string)
    ensures Remembers(Run(CONNECTED, events), target, LastRefusal(events, target))
    decreases |events|
  {
    if events != [] {
      var before := events[..|events| - 1];
      RunRemembers(before, target);
      hide Step, Remembers, StartsAfresh, RefusedAsUnreachable;
      StepRemembers(Run(CONNECTED, before), events[|events| - 1], target, LastRefusal(before, target));
    }
  }

  /**
   * In every run, a session at its menu with nothing in flight enters a target by typing exactly its line, unless
   * the bastion last found that target unreachable less than UNREACHABLE_COOLDOWN_MS before and nothing was started
   * afresh since: then, and only then, it answers ASSET_UNREACHABLE and nothing else happens.
   */
  lemma CooldownIff(events: seq<Event>, target: string, account: Option<int>, at: int)
    requires var s := Run(CONNECTED, events); s.op.Idle? && s.life.state == JUMPSERVER_MENU
    requires Admissible(target, account)
    ensures var s := Run(CONNECTED, events); var t := Step(s, BeginEnter(target, account, at));
            var last := LastRefusal(events, target);
            if last.Some? && at < last.value + UNREACHABLE_COOLDOWN_MS
            then t == s.(op := Returned(Failed(ASSET_UNREACHABLE)))
            else t.writes == s.writes + [TargetLine(target)] && t.op == EnterWait(target, account, account.None?)
  {
    RunRemembers(events, target);
    hide Run, LastRefusal, ValidTarget;
    var s := Run(CONNECTED, events);
    EntryBegun(s, target, account, at);
    hide Step;
    if Cooling(s, target, at) { RefusedEntryTouchesNothing(s, target, account, at, ASSET_UNREACHABLE); }
  }
}
