/**
 * leave() types `exit` into the asset's shell (src/jumpserver/session.ts). Until another asset is entered,
 * no command script may follow it: the shell may be on its way out. One way of ending leave breaks that.
 */
module SessionExits {
  import opened Basics
  import opened StateMachine
  import opened TargetVerify
  import opened Detector
  import opened Session
  import opened SessionProofs
  import opened SessionTheorems

  /** An exit was typed and no asset has been entered since. */
  predicate ExitOpen(ws: seq<Write>) {
    ws != [] &&
    match ws[|ws| - 1]
    case ExitLine => true
    case TargetLine(_) => false
    case _ => ExitOpen(ws[..|ws| - 1])
  }

  lemma ExitAppend(ws: seq<Write>, w: Write)
    ensures ExitOpen(ws + [w]) <==> w.ExitLine? || (!w.TargetLine? && ExitOpen(ws))
  {
    assert (ws + [w])[..|ws|] == ws;
  }

  /** The states from which a command can still be reached without another entry. */
  predicate Inside(state: SessionState) { state == ENTERING_ASSET || state == ASSET_SHELL || state == COMMAND_RUNNING }

  /** Behind an exit no shell is in use, unless leave is still waiting for the menu. */
  predicate Confirmed(s: Sess) {
    (ExitOpen(s.writes) ==> !Inside(s.life.state) || IsLeave(s.op)) && (IsLeave(s.op) ==> ExitOpen(s.writes))
  }

  /** The caller gives up on leave while the screen shows no menu: leave returns and the shell counts as usable. */
  predicate AbandonsLeave(s: Sess, e: Event) {
    e.Poll? && s.op.LeaveWait? && s.life.state == ASSET_SHELL && !AtMenu(s) && !Gone(s) && e.o.aborted
  }

  // ----- the segments -----

  /** What an operation in flight on an asset does: it stays inside, or leaves for good. */
  lemma InsideSegment(s: Sess, t: Sess)
    requires Inv(s) && Keeps(s, t) && (IsEnter(s.op) || IsExec(s.op)) && OneLine(s, t)
    ensures (ExitOpen(t.writes) ==> ExitOpen(s.writes)) && (Inside(t.life.state) ==> Inside(s.life.state)) &&
            !IsLeave(t.op)
  {
    if t.writes != s.writes { ExitAppend(s.writes, t.writes[|t.writes| - 1]); }
    hide ExitOpen, Binding, AddressesAllow, ValidTarget;
  }

  lemma EnterPollWrites(s: Sess, o: Obs, now: int)
    ensures s.op.EnterWait? ==> OneLine(s, EnterPoll(s, o, now))
    ensures s.op.EnterProbe? ==> OneLine(s, EnterProbePoll(s, o))
  {
    hide Move, EnterFail, Offers, NonEmpty, VerifyTargetIdentity, FailureCode, LateCode;
    forall t: Sess, code ensures EnterFail(t, code).writes == t.writes && EnterFail(t, code).op.Returned? {
      EnterFailEnd(t, code);
    }
  }

  lemma EnterFailEnd(s: Sess, code: ErrorCode)
    ensures EnterFail(s, code).writes == s.writes && EnterFail(s, code).op.Returned?
  {
    hide Move;
  }

  /** At most one write, which is no exit, by an operation that stays or returns. */
  predicate OneLine(s: Sess, t: Sess) {
    (t.op.Returned? || IsEnter(t.op) || IsExec(t.op)) &&
    (t.writes == s.writes || (t.writes != [] && t.writes == s.writes + [t.writes[|t.writes| - 1]] &&
                              !t.writes[|t.writes| - 1].ExitLine?))
  }

  lemma ExecPollWrites(s: Sess, o: Obs)
    ensures s.op.ExecWait? ==> OneLine(s, ExecPoll(s, o))
    ensures s.op.ExecPrompt? ==> OneLine(s, ExecPromptPoll(s, o))
    ensures s.op.ExecProbe? ==> OneLine(s, ExecProbePoll(s, o))
  {
    hide Move;
  }

  lemma MenuSegment(s: Sess, o: Obs, notified: bool)
    requires s.op.MenuWait? && !Inside(s.life.state)
    ensures var t := MenuPoll(s, o, notified); t.writes == s.writes && !Inside(t.life.state) && !IsLeave(t.op)
  {
    ConnectFailEnds(s, notified, ABORTED);
    ConnectFailEnds(SetState(s, UNKNOWN), notified, MENU_NOT_DETECTED);
    hide ConnectFail;
  }

  lemma ConnectFailEnds(s: Sess, notified: bool, code: ErrorCode)
    ensures var t := ConnectFail(s, notified, code); t.writes == s.writes && !Inside(t.life.state) && t.op.Returned?
  {
  }

  lemma OutwardMove(l: Life, next: SessionState)
    requires !Inside(next)
    ensures !Inside(Move(l, next).state)
  {
  }

  lemma LeaveEnds(s: Sess)
    ensures var t := LeaveEnd(s); t.writes == s.writes && t.op.Returned? && !Inside(t.life.state)
  {
    OutwardMove(s.life, UNKNOWN);
    OutwardMove(s.life, JUMPSERVER_MENU);
    hide Move;
  }

  /** leave's own wait: it ends at the menu, or the session is given up, unless it is abandoned. */
  lemma LeaveSegment(s: Sess, o: Obs, now: int, notified: bool, complete: bool, paged: bool)
    requires s.op.LeaveWait? && (s.life.state == ASSET_SHELL || Dead(s.life.state)) && (Live(s.life.state) ==> !Gone(s))
    ensures var t := LeavePoll(s, o);
            t.writes == s.writes && (t.op.Returned? || IsLeave(t.op)) &&
            (t.op.Returned? ==> (Inside(t.life.state) <==> AbandonsLeave(s, Poll(o, now, notified, complete, paged))))
  {
    LeaveEnds(s);
    hide LeaveEnd;
  }

  // ----- every step -----

  lemma PollSegment(s: Sess, e: Event)
    requires Inv(s) && Confirmed(s) && e.Poll?
    ensures Confirmed(Step(s, e)) <==> !AbandonsLeave(s, e)
  {
    AdvanceIs(s, e.o, e.now, e.notified, e.complete, e.paged);
    if IsEnter(s.op) || IsExec(s.op) {
      AssetSegment(s, e);
    } else {
      WaitOutside(s);
      hide Inv, Step, ExitOpen, MenuPoll, LeavePoll, ListPoll;
      if s.op.MenuWait? { MenuSegment(s, e.o, e.notified); }
      if s.op.LeaveWait? { LeaveSegment(s, e.o, e.now, e.notified, e.complete, e.paged); }
      if s.op.ListWait? { ListSegment(s, e.o, e.complete, e.paged); }
    }
  }

  lemma AssetSegment(s: Sess, e: Event)
    requires Inv(s) && Confirmed(s) && e.Poll? && (IsEnter(s.op) || IsExec(s.op))
    ensures Confirmed(Step(s, e))
  {
    var t := Step(s, e);
    StepKeeps(s, e);
    AdvanceIs(s, e.o, e.now, e.notified, e.complete, e.paged);
    EnterPollWrites(s, e.o, e.now);
    ExecPollWrites(s, e.o);
    hide Step, Inv, Keeps, ExitOpen, OneLine, EnterPoll, EnterProbePoll, ExecPoll, ExecPromptPoll, ExecProbePoll;
    InsideSegment(s, t);
  }

  /** The states the other operations wait in. */
  lemma WaitOutside(s: Sess)
    requires Inv(s)
    ensures s.op.MenuWait? ==> !Inside(s.life.state)
    ensures s.op.ListWait? ==> !Inside(s.life.state)
    ensures s.op.LeaveWait? ==> (s.life.state == ASSET_SHELL || Dead(s.life.state)) && (Live(s.life.state) ==> !Gone(s))
  {
    hide Binding;
  }

  lemma ListSegment(s: Sess, o: Obs, complete: bool, paged: bool)
    requires s.op.ListWait? && !Inside(s.life.state)
    ensures var t := ListPoll(s, o, complete, paged); t.writes == s.writes && !Inside(t.life.state) && !IsLeave(t.op)
  {
    OutwardMove(s.life, UNKNOWN);
    hide Move;
  }

  /** Which segment a poll runs. */
  lemma AdvanceIs(s: Sess, o: Obs, now: int, notified: bool, complete: bool, paged: bool)
    ensures var t := Step(s, Poll(o, now, notified, complete, paged));
            (s.op.MenuWait? ==> t == MenuPoll(s, o, notified)) &&
            (s.op.EnterWait? ==> t == EnterPoll(s, o, now)) && (s.op.EnterProbe? ==> t == EnterProbePoll(s, o)) &&
            (s.op.ExecWait? ==> t == ExecPoll(s, o)) && (s.op.ExecPrompt? ==> t == ExecPromptPoll(s, o)) &&
            (s.op.ExecProbe? ==> t == ExecProbePoll(s, o)) && (s.op.LeaveWait? ==> t == LeavePoll(s, o)) &&
            (s.op.ListWait? ==> t == ListPoll(s, o, complete, paged)) &&
            (!s.op.MenuWait? && !IsEnter(s.op) && !IsExec(s.op) && !s.op.LeaveWait? && !s.op.ListWait? ==> t == s)
  {
    hide MenuPoll, EnterPoll, EnterProbePoll, ExecPoll, ExecPromptPoll, ExecProbePoll, LeavePoll, ListPoll;
  }

  lemma EntryBegins(s: Sess, wanted: string, account: Option<int>, at: int)
    requires Inv(s) && Confirmed(s) && s.op.Idle?
    ensures Confirmed(EnterBegin(s, wanted, account, at))
  {
    if s.life.state == JUMPSERVER_MENU { ExitAppend(s.writes, TargetLine(wanted)); }
    hide ExitOpen, ValidTarget, InCooldown, Binding;
  }

  lemma ShortBegins(s: Sess, threw: bool)
    requires Inv(s) && Confirmed(s) && s.op.Idle?
    ensures Confirmed(ExecBegin(s, threw)) && Confirmed(LeaveBegin(s)) && Confirmed(ListBegin(s)) &&
            Confirmed(WriteJobLine(s))
  {
    ExitAppend(s.writes, Script(s.currentTarget, s.currentIps));
    ExitAppend(s.writes, ExitLine);
    ExitAppend(s.writes, ListKey);
    ExitAppend(s.writes, JobLine);
    hide ExitOpen, Binding;
  }

  lemma FromOutside(s: Sess, e: Event)
    requires Inv(s) && Confirmed(s)
    requires e.Data? || e.WireClosed? || e.Disposed? || e.InterruptWrite? || e.ProbeWrite? || e.Verification? ||
             e.Dialed? || e.Resend? || e.Consume?
    ensures Confirmed(Step(s, e))
  {
    ExitAppend(s.writes, CtrlC(true));
    ExitAppend(s.writes, Probe);
    ExitAppend(s.writes, ExitLine);
    hide ExitOpen, Binding;
    match e
    case Disposed(notified) => CloseEnds(s, notified); hide Close;
    case Dialed(dialed) => ConnectFailEnds(s, false, CONNECT_FAILED); hide ConnectFail;
    case _ => hide Close, ConnectFail;
  }

  lemma CloseEnds(s: Sess, notified: bool)
    ensures var t := Close(s, notified); t.writes == s.writes && !Inside(t.life.state) && t.op == s.op
  {
  }

  /** Exactly one step uncovers a shell behind an unconfirmed exit: a leave whose caller aborts it. */
  lemma StepConfirmsIff(s: Sess, e: Event)
    requires Inv(s) && Confirmed(s)
    ensures Confirmed(Step(s, e)) <==> !AbandonsLeave(s, e)
  {
    hide Inv, Confirmed, EnterBegin, ExecBegin, LeaveBegin, ListBegin, WriteJobLine, Advance;
    match e
    case Poll(_, _, _, _, _) => PollSegment(s, e);
    case BeginEnter(wanted, account, at) => if s.op.Idle? { EntryBegins(s, wanted, account, at); }
    case BeginExec(threw) => if s.op.Idle? { ShortBegins(s, threw); }
    case BeginLeave => if s.op.Idle? { ShortBegins(s, false); }
    case BeginList => if s.op.Idle? { ShortBegins(s, false); }
    case JobWrite => if s.op.Idle? { ShortBegins(s, false); }
    case _ => FromOutside(s, e);
  }

  /** No step of the run abandons a leave. */
  ghost predicate LeavesAreAwaited(events: seq<Event>) {
    forall n :: 0 <= n < |events| ==> !AbandonsLeave(Run(CONNECTED, events[..n]), events[n])
  }

  lemma AwaitedBefore(events: seq<Event>)
    requires LeavesAreAwaited(events) && events != []
    ensures LeavesAreAwaited(events[..|events| - 1])
    ensures !AbandonsLeave(Run(CONNECTED, events[..|events| - 1]), events[|events| - 1])
  {
    var before := events[..|events| - 1];
    forall n | 0 <= n < |before| ensures !AbandonsLeave(Run(CONNECTED, before[..n]), before[n]) {
      assert before[..n] == events[..n] && before[n] == events[n];
    }
  }

  /** No script was typed behind an exit with no entry in between. */
  ghost predicate ScriptsInside(ws: seq<Write>) { forall i :: 0 <= i < |ws| && ws[i].Script? ==> !ExitOpen(ws[..i]) }

  lemma InsideAppend(ws: seq<Write>, w: Write)
    requires ScriptsInside(ws) && (w.Script? ==> !ExitOpen(ws))
    ensures ScriptsInside(ws + [w])
  {
    forall i | 0 <= i < |ws + [w]| && (ws + [w])[i].Script? ensures !ExitOpen((ws + [w])[..i]) {
      assert (ws + [w])[..i] == ws[..i];
      if i == |ws| { assert ws[..i] == ws; }
    }
  }

  /**
   * In every run in which no caller aborts a leave that is still waiting for the menu, each command
   * script was typed with no exit open: the last exit before it was followed by another entry.
   */
  lemma {:induction false} NoScriptBehindExit(events: seq<Event>)
    requires LeavesAreAwaited(events)
    ensures var s := Run(CONNECTED, events); Confirmed(s) && ScriptsInside(s.writes)
    decreases |events|
  {
    if events != [] {
      var before, e := events[..|events| - 1], events[|events| - 1];
      AwaitedBefore(events);
      NoScriptBehindExit(before);
      RunKeeps(CONNECTED, before);
      hide Step, Inv, Confirmed, ExitOpen, ScriptsInside, AbandonsLeave;
      StepConfirmsIff(Run(CONNECTED, before), e);
      StepTypesInside(Run(CONNECTED, before), e);
    }
  }

  lemma StepTypesInside(s: Sess, e: Event)
    requires Inv(s) && Confirmed(s) && ScriptsInside(s.writes)
    ensures ScriptsInside(Step(s, e).writes)
  {
    var t := Step(s, e);
    StepWrites(s, e);
    assert e.BeginExec? && !s.op.Idle? ==> t == s by { hide Inv, Confirmed, ScriptsInside; }
    hide Step, Inv, ExitOpen, ScriptsInside, Wired, Gone;
    if t.writes != s.writes { InsideAppend(s.writes, t.writes[|t.writes| - 1]); }
  }

  /** And one that is aborted does it: the exit is on its way, and the next command follows it. */
  lemma ScriptBehindExit(target: string) returns (events: seq<Event>)
    requires ValidTarget(target) && IsIpv4Literal(target)
    ensures !ScriptsInside(Run(CONNECTED, events).writes)
  {
    hide Run;
    hide ValidTarget, IsIpv4Literal, ScriptsInside, Close, MenuPoll, EnterPoll, EnterProbePoll, ListPoll, EnterBegin,
         ExecPoll;
    var t := ReachMenu();
    t := VisitAsset(t, target);
    t := AbandonedLeave(t);
    events := Extend(t, BeginExec(false));
    var s, s1 := Run(CONNECTED, t), Run(CONNECTED, events);
    BehindExit(s.writes, s1.writes[|s1.writes| - 1]);
  }

  lemma BehindExit(ws: seq<Write>, w: Write)
    requires ExitOpen(ws) && w.Script?
    ensures !ScriptsInside(ws + [w])
  {
    assert (ws + [w])[|ws|] == w && (ws + [w])[..|ws|] == ws;
  }

  lemma AbandonedLeave(before: seq<Event>) returns (events: seq<Event>)
    requires var s := Run(CONNECTED, before); s.life.state == ASSET_SHELL && s.op.Idle? && !Gone(s)
    ensures var s := Run(CONNECTED, events); s.life.state == ASSET_SHELL && s.op.Idle? && !Gone(s) && ExitOpen(s.writes)
  {
    hide Run;
    hide Close, MenuPoll, EnterPoll, EnterProbePoll, ListPoll, EnterBegin, ExecPoll, ExitOpen;
    var t := TypedExit(before);
    t := Extend(t, Poll(QUIESCENT.(aborted := true), 0, true, false, false));
    events := Extend(t, Consume);
  }

  lemma TypedExit(before: seq<Event>) returns (events: seq<Event>)
    requires var s := Run(CONNECTED, before); s.life.state == ASSET_SHELL && s.op.Idle? && !Gone(s)
    ensures var s := Run(CONNECTED, events);
            s.life.state == ASSET_SHELL && s.op == LeaveWait(0) && s.screen == BLANK_SCREEN && !Gone(s) &&
              ExitOpen(s.writes)
  {
    hide Run;
    hide Close, MenuPoll, EnterPoll, EnterProbePoll, ListPoll, LeavePoll, EnterBegin, ExecPoll, ExitOpen;
    ExitAppend(Run(CONNECTED, before).writes, ExitLine);
    var t := Extend(before, Data(BLANK_SCREEN));
    events := Extend(t, BeginLeave);
  }
}
