/**
 * The command loop of one target's batch (src/jumpserver/session-manager.ts): what each await answers is
 * given per command, and what is modelled is which scripts are typed, which rows and which audit records
 * result, and when the loop stops.
 */
module Batch {
  import opened Basics
  import opened Session

  datatype Item = Item(
    command: string,
    blocked: bool,   // refused by the classifier
    probed: bool,    // commandExistenceProbe has a probe for it
    gated: bool)     // it has a beforeExec

  datatype ProbeAnswer = Missing | Present | ProbeThrew

  datatype GateAnswer = Allowed | Denied | GateFailed

  /** What session.exec of the command did. */
  datatype ExecAnswer = Finished(typed: bool) | Threw(typed: bool, code: ErrorCode)

  /** The answers one command meets. */
  datatype Answer = Answer(
    aborted: bool,       // the signal at the top of the loop
    bound: bool,         // assertTargetBinding
    probe: ProbeAnswer,
    gate: GateAnswer,
    exec: ExecAnswer,
    stillRunning: bool)  // the session is in COMMAND_RUNNING after a caught error

  datatype RowError =
    | Ok | NotBound | CommandBlocked | CommandNotFound | ApprovalDenied | GateError
    | ExecError(code: ErrorCode)

  datatype Row = Row(command: string, error: RowError)

  datatype Log =
    | ProbeTyped(item: nat)
    | GatePassed(item: nat)     // beforeExec resolved
    | ScriptTyped(item: nat)    // the command's own script went to the wire
    | Audited(item: nat, error: RowError)

  datatype BatchResult = BatchAborted(log: seq<Log>) | BatchDone(rows: seq<Row>, log: seq<Log>)

  /** The try block for one command: how it ends, and what it types on the way. */
  function Attempt(i: nat, item: Item, a: Answer): (RowError, seq<Log>) {
    if item.blocked then (CommandBlocked, [])
    else
      var probed := if item.probed then [ProbeTyped(i)] else [];
      if item.probed && a.probe == Missing then (CommandNotFound, probed)
      else if item.gated && a.gate == Denied then (ApprovalDenied, probed)
      else if item.gated && a.gate == GateFailed then (GateError, probed)
      else
        var passed := probed + if item.gated then [GatePassed(i)] else [];
        var typed := if a.exec.typed then [ScriptTyped(i)] else [];
        (if a.exec.Finished? then Ok else ExecError(a.exec.code), passed + typed)
  }

  /** The loop stops after this command. */
  predicate Stops(item: Item, i: nat, a: Answer) { !a.bound || (Attempt(i, item, a).0 != Ok && a.stillRunning) }

  /** What the loop has produced so far. */
  datatype Progress = Progress(rows: seq<Row>, log: seq<Log>, left: bool)

  /** One pass through the loop. */
  function Pass(s: Progress, i: nat, item: Item, a: Answer): Progress {
    if s.left then s
    else if !a.bound then Progress(s.rows + [Row(item.command, NotBound)], s.log, true)
    else
      var (error, typed) := Attempt(i, item, a);
      Progress(s.rows + [Row(item.command, error)], s.log + (typed + [Audited(i, error)]),
               error != Ok && a.stillRunning)
  }

  /** The state of the loop behind the first n commands. */
  function Loop(items: seq<Item>, answers: seq<Answer>, n: nat): Progress
    requires n <= |items| == |answers|
  {
    if n == 0 then Progress([], [], false) else Pass(Loop(items, answers, n - 1), n - 1, items[n - 1], answers[n - 1])
  }

  /** The first command at whose turn the signal was set, if the loop reaches it. */
  predicate AbortsAt(items: seq<Item>, answers: seq<Answer>, n: nat)
    requires |items| == |answers|
  {
    n < |items| && !Loop(items, answers, n).left && answers[n].aborted && forall k :: 0 <= k < n ==> !answers[k].aborted
  }

  // ----- what the result has to say -----

  /** The command gets as far as its gate. */
  predicate ReachesGate(item: Item, a: Answer) {
    a.bound && !item.blocked && !(item.probed && a.probe == Missing)
  }

  /** The command is executed. */
  predicate Executes(item: Item, a: Answer) { ReachesGate(item, a) && (item.gated ==> a.gate == Allowed) }

  /** When a row reports what. */
  predicate ErrorFits(error: RowError, item: Item, a: Answer) {
    match error
    case NotBound => !a.bound
    case CommandBlocked => a.bound && item.blocked
    case CommandNotFound => a.bound && !item.blocked && item.probed && a.probe == Missing
    case ApprovalDenied => ReachesGate(item, a) && item.gated && a.gate == Denied
    case GateError => ReachesGate(item, a) && item.gated && a.gate == GateFailed
    case ExecError(code) => Executes(item, a) && a.exec.Threw? && a.exec.code == code
    case Ok => Executes(item, a) && a.exec.Finished?
  }

  /** Everything the log says about command k, in order. */
  function LogAbout(log: seq<Log>, k: nat): seq<Log> { Filter(log, (l: Log) => l.item == k) }

  /** What it has to say. */
  function Story(k: nat, item: Item, a: Answer, error: RowError): seq<Log> {
    (if a.bound && !item.blocked && item.probed then [ProbeTyped(k)] else []) +
    (if Executes(item, a) && item.gated then [GatePassed(k)] else []) +
    (if Executes(item, a) && a.exec.typed then [ScriptTyped(k)] else []) +
    (if a.bound then [Audited(k, error)] else [])
  }

  /** The loop ends with this command. */
  predicate Last(error: RowError, a: Answer) { error == NotBound || (error != Ok && a.stillRunning) }

  predicate RowTells(row: Row, log: seq<Log>, item: Item, a: Answer, k: nat) {
    row.command == item.command && ErrorFits(row.error, item, a) && LogAbout(log, k) == Story(k, item, a, row.error)
  }

  /** The rows tell, command by command, what happened, and so does the log. */
  ghost predicate Tells(rows: seq<Row>, log: seq<Log>, items: seq<Item>, answers: seq<Answer>) {
    |rows| <= |items| == |answers| && (forall l <- log :: l.item < |rows|) &&
    (forall k :: 0 <= k < |rows| ==> RowTells(rows[k], log, items[k], answers[k], k)) &&
    (forall k :: 0 <= k < |rows| - 1 ==> !Last(rows[k].error, answers[k]))
  }

  /** The loop came to an end by itself: all commands are done, or the last one has ended it. */
  ghost predicate Complete(rows: seq<Row>, items: seq<Item>, answers: seq<Answer>)
    requires |rows| <= |items| == |answers|
  {
    |rows| == |items| || (rows != [] && Last(rows[|rows| - 1].error, answers[|rows| - 1]))
  }

  /** The loop was still going when it met the signal, in front of the command behind these rows. */
  ghost predicate Interrupted(rows: seq<Row>, answers: seq<Answer>) {
    |rows| < |answers| && answers[|rows|].aborted && (rows != [] ==> !Last(rows[|rows| - 1].error, answers[|rows| - 1]))
  }

  ghost predicate NotAborted(rows: seq<Row>, answers: seq<Answer>)
    requires |rows| <= |answers|
  {
    forall k :: 0 <= k < |rows| ==> !answers[k].aborted
  }

  /** The loop of runTargetBatch. */
  method RunCommands(items: seq<Item>, answers: seq<Answer>) returns (r: BatchResult)
    requires |items| == |answers|
    ensures r.BatchAborted? <==> exists n :: AbortsAt(items, answers, n)
    ensures r.BatchAborted? ==> exists n :: AbortsAt(items, answers, n) && r.log == Loop(items, answers, n).log
    ensures r.BatchDone? ==>
            Progress(r.rows, r.log, Loop(items, answers, |items|).left) == Loop(items, answers, |items|)
    ensures r.BatchDone? ==>
              Tells(r.rows, r.log, items, answers) && Complete(r.rows, items, answers) && NotAborted(r.rows, answers)
    ensures r.BatchAborted? ==>
              exists rows :: Tells(rows, r.log, items, answers) && Interrupted(rows, answers) &&
                NotAborted(rows, answers)
  {
    hide Tells, Complete, Interrupted, Attempt;
    var rows: seq<Row> := [];
    var log: seq<Log> := [];
    var i := 0;
    while i < |items|
      invariant 0 <= i <= |items| && Progress(rows, log, false) == Loop(items, answers, i)
      invariant forall k :: 0 <= k < i ==> !answers[k].aborted
    {
      if answers[i].aborted {
        assert AbortsAt(items, answers, i);
        ResultTells(items, answers, i);
        return BatchAborted(log);
      }
      if !answers[i].bound {
        rows := rows + [Row(items[i].command, NotBound)];
        LeftStays(items, answers, i + 1);
        ResultTells(items, answers, i + 1);
        return BatchDone(rows, log);
      }
      var error, typed := TryCommand(i, items[i], answers[i]);
      rows := rows + [Row(items[i].command, error)];
      log := log + (typed + [Audited(i, error)]);
      i := i + 1;
      if error != Ok && answers[i - 1].stillRunning {
        LeftStays(items, answers, i);
        ResultTells(items, answers, i);
        return BatchDone(rows, log);
      }
    }
    ResultTells(items, answers, |items|);
    return BatchDone(rows, log);
  }

  /** The body of the try block. */
  method TryCommand(i: nat, item: Item, a: Answer) returns (error: RowError, typed: seq<Log>)
    ensures (error, typed) == Attempt(i, item, a)
  {
    typed := [];
    if item.blocked {
      return CommandBlocked, typed;
    }
    if item.probed {
      typed := [ProbeTyped(i)];
      if a.probe == Missing {
        return CommandNotFound, typed;
      }
    }
    if item.gated {
      if a.gate == Denied {
        return ApprovalDenied, typed;
      }
      if a.gate == GateFailed {
        return GateError, typed;
      }
      typed := typed + [GatePassed(i)];
    } else {
      assert typed + [] == typed;
    }
    if a.exec.typed {
      typed := typed + [ScriptTyped(i)];
    } else {
      assert typed + [] == typed;
    }
    error := if a.exec.Finished? then Ok else ExecError(a.exec.code);
  }

  /** Once left, the loop does nothing more. */
  lemma LeftStays(items: seq<Item>, answers: seq<Answer>, n: nat)
    requires n <= |items| == |answers| && Loop(items, answers, n).left
    ensures forall m :: n <= m <= |items| ==> Loop(items, answers, m) == Loop(items, answers, n)
  {
    var m := n;
    while m < |items|
      invariant n <= m <= |items| && forall k :: n <= k <= m ==> Loop(items, answers, k) == Loop(items, answers, n)
    {
      m := m + 1;
    }
  }

  /** The try block answers truly, and leaves its story behind. */
  lemma AttemptTells(i: nat, item: Item, a: Answer)
    requires a.bound
    ensures var (error, typed) := Attempt(i, item, a);
            error != NotBound && ErrorFits(error, item, a) && typed + [Audited(i, error)] == Story(i, item, a, error)
  {
  }

  lemma {:induction false} AllAbout(log: seq<Log>, k: nat)
    ensures (forall l <- log :: l.item == k) ==> LogAbout(log, k) == log
    ensures (forall l <- log :: l.item != k) ==> LogAbout(log, k) == []
  {
    if log != [] {
      AllAbout(log[1..], k);
      assert log == [log[0]] + log[1..];
    }
  }

  /** One more row, with its own entries behind the others. */
  lemma TellsMore(rows: seq<Row>, log: seq<Log>, row: Row, more: seq<Log>, items: seq<Item>, answers: seq<Answer>)
    requires Tells(rows, log, items, answers) && |rows| < |items|
    requires rows != [] ==> !Last(rows[|rows| - 1].error, answers[|rows| - 1])
    requires var n := |rows|;
             row.command == items[n].command && ErrorFits(row.error, items[n], answers[n]) &&
             more == Story(n, items[n], answers[n], row.error)
    ensures Tells(rows + [row], log + more, items, answers)
  {
    hide ErrorFits, Last, RowTells, Story;
    var n, all, longer := |rows|, log + more, rows + [row];
    StoryIsOwn(n, items[n], answers[n], row.error);
    forall l <- all ensures l.item <= n { assert l in log || l in more; }
    forall k | 0 <= k <= n ensures RowTells(longer[k], all, items[k], answers[k], k) {
      AboutAppend(log, more, n, k);
      if k < n {
        SameStory(rows[k], log, all, items[k], answers[k], k);
      } else {
        OwnStory(row, all, more, items[n], answers[n], n);
      }
    }
    forall k | 0 <= k < n ensures !Last(longer[k].error, answers[k]) { assert longer[k] == rows[k]; }
  }

  lemma SameStory(row: Row, log: seq<Log>, all: seq<Log>, item: Item, a: Answer, k: nat)
    requires RowTells(row, log, item, a, k) && LogAbout(all, k) == LogAbout(log, k)
    ensures RowTells(row, all, item, a, k)
  {
  }

  lemma OwnStory(row: Row, all: seq<Log>, more: seq<Log>, item: Item, a: Answer, n: nat)
    requires row.command == item.command && ErrorFits(row.error, item, a) && more == Story(n, item, a, row.error)
    requires LogAbout(all, n) == more
    ensures RowTells(row, all, item, a, n)
  {
  }

  lemma StoryIsOwn(k: nat, item: Item, a: Answer, error: RowError)
    ensures forall l <- Story(k, item, a, error) :: l.item == k
  {
  }

  lemma AboutAppend(log: seq<Log>, more: seq<Log>, n: nat, k: nat)
    requires (forall l <- log :: l.item < n) && (forall l <- more :: l.item == n) && k <= n
    ensures LogAbout(log + more, k) == if k < n then LogAbout(log, k) else more
  {
    FilterAppend(log, more, (l: Log) => l.item == k);
    AllAbout(log, n);
    AllAbout(more, k);
    hide Filter;
    assert LogAbout(log, k) + [] == LogAbout(log, k);
  }

  /** What holds of the loop behind its first n commands. */
  ghost predicate TellsSoFar(s: Progress, items: seq<Item>, answers: seq<Answer>, n: nat) {
    Tells(s.rows, s.log, items, answers) && |s.rows| <= n && (!s.left ==> |s.rows| == n) &&
    (s.left <==> s.rows != [] && Last(s.rows[|s.rows| - 1].error, answers[|s.rows| - 1]))
  }

  lemma {:induction false} LoopTells(items: seq<Item>, answers: seq<Answer>, n: nat)
    requires n <= |items| == |answers|
    ensures TellsSoFar(Loop(items, answers, n), items, answers, n)
    decreases n
  {
    hide TellsSoFar, Pass;
    if n > 0 {
      LoopTells(items, answers, n - 1);
      PassTells(Loop(items, answers, n - 1), items, answers, n - 1);
    } else {
      NothingToTell(items, answers);
    }
  }

  /** What the loop returns, wherever it stops. */
  lemma ResultTells(items: seq<Item>, answers: seq<Answer>, n: nat)
    requires n <= |items| == |answers|
    ensures var s := Loop(items, answers, n);
            Tells(s.rows, s.log, items, answers) && |s.rows| <= n <= |answers| &&
            (s.left || n == |items| ==> Complete(s.rows, items, answers)) &&
            (!s.left && n < |items| && answers[n].aborted ==> Interrupted(s.rows, answers))
  {
    hide Tells, Loop;
    LoopTells(items, answers, n);
  }

  lemma PassTells(s: Progress, items: seq<Item>, answers: seq<Answer>, i: nat)
    requires i < |items| == |answers| && TellsSoFar(s, items, answers, i)
    ensures TellsSoFar(Pass(s, i, items[i], answers[i]), items, answers, i + 1)
  {
    hide Tells, Attempt, Story, ErrorFits;
    var a := answers[i];
    if !s.left {
      if a.bound {
        var (error, typed) := Attempt(i, items[i], a);
        AttemptTells(i, items[i], a);
        TellsMore(s.rows, s.log, Row(items[i].command, error), typed + [Audited(i, error)], items, answers);
      } else {
        NotBoundTells(i, items[i], a);
        TellsMore(s.rows, s.log, Row(items[i].command, NotBound), [], items, answers);
        assert s.log + [] == s.log;
      }
    }
  }

  lemma NothingToTell(items: seq<Item>, answers: seq<Answer>)
    requires |items| == |answers|
    ensures TellsSoFar(Progress([], [], false), items, answers, 0)
  {
  }

  lemma NotBoundTells(i: nat, item: Item, a: Answer)
    requires !a.bound
    ensures ErrorFits(NotBound, item, a) && Story(i, item, a, NotBound) == []
  {
  }

  // ----- what the rows and the log say -----

  function CountOf(log: seq<Log>, p: Log -> bool): nat {
    if log == [] then 0 else CountOf(log[..|log| - 1], p) + if p(log[|log| - 1]) then 1 else 0
  }

  lemma {:induction false} CountAppend(a: seq<Log>, b: seq<Log>, p: Log -> bool)
    ensures CountOf(a + b, p) == CountOf(a, p) + CountOf(b, p)
    decreases |b|
  {
    if b == [] {
      assert a + b == a;
    } else {
      assert (a + b)[..|a + b| - 1] == a + b[..|b| - 1];
      CountAppend(a, b[..|b| - 1], p);
    }
  }

  lemma {:induction false} CountNone(log: seq<Log>, p: Log -> bool)
    requires forall l <- log :: !p(l)
    ensures CountOf(log, p) == 0
  {
    if log != [] { CountNone(log[..|log| - 1], p); }
  }

  function IsAuditOf(i: nat): Log -> bool { (l: Log) => l.Audited? && l.item == i }

  function IsScriptOf(i: nat): Log -> bool { (l: Log) => l == ScriptTyped(i) }

  /** The rows answer the requested commands in order, and the log of each command comes in its turn. */
  ghost predicate Accounted(s: Progress, items: seq<Item>, answers: seq<Answer>, n: nat)
    requires n <= |items| == |answers|
  {
    |s.rows| <= n && (!s.left ==> |s.rows| == n) &&
    (forall k :: 0 <= k < |s.rows| ==> s.rows[k].command == items[k].command) &&
    (forall l <- s.log :: l.item < |s.rows|) &&
    (s.left ==> s.rows != [] && Stops(items[|s.rows| - 1], |s.rows| - 1, answers[|s.rows| - 1]))
  }

  /** Per command: one audit record unless its binding was lost, at most one script, and that one earned. */
  ghost predicate Earned(s: Progress, items: seq<Item>, answers: seq<Answer>, i: nat)
    requires i < |items| == |answers|
  {
    CountOf(s.log, IsAuditOf(i)) == (if i < |s.rows| && s.rows[i].error != NotBound then 1 else 0) &&
    CountOf(s.log, IsScriptOf(i)) <= 1 &&
    (forall p :: 0 <= p < |s.log| && s.log[p] == ScriptTyped(i) ==> EarnedAt(s.log, p, items[i], answers[i], i))
  }

  /** The script at place p of the log was neither blocked, nor missing, and its gate had resolved before. */
  ghost predicate EarnedAt(log: seq<Log>, p: nat, item: Item, a: Answer, i: nat) {
    a.bound && !item.blocked && !(item.probed && a.probe == Missing) &&
    (item.gated ==> a.gate == Allowed && exists q :: 0 <= q < p && q < |log| && log[q] == GatePassed(i))
  }

  lemma PassAccounted(s: Progress, items: seq<Item>, answers: seq<Answer>, n: nat)
    requires n < |items| == |answers| && Accounted(s, items, answers, n)
    ensures Accounted(Pass(s, n, items[n], answers[n]), items, answers, n + 1)
  {
    AttemptIsOwn(n, items[n], answers[n]);
    hide Attempt;
  }

  lemma {:induction false} LoopAccounted(items: seq<Item>, answers: seq<Answer>, n: nat)
    requires n <= |items| == |answers|
    ensures Accounted(Loop(items, answers, n), items, answers, n)
    decreases n
  {
    if n > 0 {
      LoopAccounted(items, answers, n - 1);
      PassAccounted(Loop(items, answers, n - 1), items, answers, n - 1);
    } else {
      NothingAccounted(items, answers);
    }
    hide Accounted, Pass;
  }

  lemma NothingAccounted(items: seq<Item>, answers: seq<Answer>)
    requires |items| == |answers|
    ensures Accounted(Progress([], [], false), items, answers, 0)
  {
  }

  /** The script at place p was neither blocked nor missing, and its gate resolved right before. */
  predicate Justified(typed: seq<Log>, p: nat, item: Item, a: Answer, i: nat) {
    !item.blocked && !(item.probed && a.probe == Missing) &&
    (item.gated ==> a.gate == Allowed && 0 < p <= |typed| && typed[p - 1] == GatePassed(i))
  }

  lemma AttemptIsOwn(i: nat, item: Item, a: Answer)
    ensures var (error, typed) := Attempt(i, item, a);
            error != NotBound && (forall l <- typed :: l.item == i && !l.Audited?) &&
            (forall p :: 0 <= p < |typed| && typed[p] == ScriptTyped(i) ==>
               p == |typed| - 1 && Justified(typed, p, item, a, i))
  {
  }

  lemma AttemptCounts(i: nat, item: Item, a: Answer, k: nat)
    ensures var (error, typed) := Attempt(i, item, a); var log := typed + [Audited(i, error)];
            CountOf(log, IsAuditOf(k)) == (if k == i then 1 else 0) &&
              CountOf(log, IsScriptOf(k)) <= (if k == i then 1 else 0)
  {
    var (error, typed) := Attempt(i, item, a);
    AttemptIsOwn(i, item, a);
    hide Attempt;
    var audit := [Audited(i, error)];
    CountAppend(typed, audit, IsAuditOf(k));
    CountAppend(typed, audit, IsScriptOf(k));
    CountNone(typed, IsAuditOf(k));
    assert audit[..0] == [];
    OneScript(typed, i, k);
  }

  lemma OneScript(typed: seq<Log>, i: nat, k: nat)
    requires forall l <- typed :: l.item == i
    requires forall p :: 0 <= p < |typed| && typed[p] == ScriptTyped(i) ==> p == |typed| - 1
    ensures CountOf(typed, IsScriptOf(k)) <= if k == i then 1 else 0
  {
    if typed != [] {
      var front := typed[..|typed| - 1];
      forall l <- front ensures !IsScriptOf(k)(l) {
        var p :| 0 <= p < |front| && front[p] == l;
        assert typed[p] == l && l in typed;
      }
      CountNone(front, IsScriptOf(k));
      assert typed[|typed| - 1] in typed;
    }
  }

  /** The pass of another command leaves what was said of command i. */
  lemma OtherPassEarned(s: Progress, items: seq<Item>, answers: seq<Answer>, n: nat, i: nat)
    requires n < |items| == |answers| && i < |items| && i != n && Accounted(s, items, answers, n) &&
             Earned(s, items, answers, i)
    ensures Earned(Pass(s, n, items[n], answers[n]), items, answers, i)
  {
    if !s.left && answers[n].bound {
      var (error, typed) := Attempt(n, items[n], answers[n]);
      AttemptIsOwn(n, items[n], answers[n]);
      AttemptCounts(n, items[n], answers[n], i);
      hide Attempt, CountOf;
      OtherLog(s.log, typed + [Audited(n, error)], items[i], answers[i], i);
    }
  }

  /** Entries about another command change nothing for command i. */
  lemma OtherLog(log: seq<Log>, more: seq<Log>, item: Item, a: Answer, i: nat)
    requires CountOf(more, IsAuditOf(i)) == 0 && CountOf(more, IsScriptOf(i)) == 0
    requires forall l <- more :: l.item != i
    requires forall p :: 0 <= p < |log| && log[p] == ScriptTyped(i) ==> EarnedAt(log, p, item, a, i)
    ensures CountOf(log + more, IsAuditOf(i)) == CountOf(log, IsAuditOf(i))
    ensures CountOf(log + more, IsScriptOf(i)) == CountOf(log, IsScriptOf(i))
    ensures forall p :: 0 <= p < |log + more| && (log + more)[p] == ScriptTyped(i) ==>
            EarnedAt(log + more, p, item, a, i)
  {
    CountAppend(log, more, IsAuditOf(i));
    CountAppend(log, more, IsScriptOf(i));
    hide CountOf, EarnedAt;
    var all := log + more;
    assert forall k :: 0 <= k < |more| ==> more[k] in more;
    assert forall k :: |log| <= k < |all| ==> all[k] == more[k - |log|];
    forall p | 0 <= p < |all| && all[p] == ScriptTyped(i) ensures EarnedAt(all, p, item, a, i) {
      EarnedStays(log, more, p, item, a, i);
    }
  }

  lemma EarnedStays(log: seq<Log>, more: seq<Log>, p: nat, item: Item, a: Answer, i: nat)
    ensures EarnedAt(log, p, item, a, i) ==> EarnedAt(log + more, p, item, a, i)
  {
    if EarnedAt(log, p, item, a, i) && item.gated {
      var q :| 0 <= q < p && q < |log| && log[q] == GatePassed(i);
      assert (log + more)[q] == GatePassed(i);
    }
  }

  /** The pass of command n itself. */
  lemma OwnPassEarned(s: Progress, items: seq<Item>, answers: seq<Answer>, n: nat)
    requires n < |items| == |answers| && Accounted(s, items, answers, n) && Earned(s, items, answers, n)
    ensures Earned(Pass(s, n, items[n], answers[n]), items, answers, n)
  {
    if !s.left {
      NotYetLogged(s, items, answers, n);
      if answers[n].bound {
        var (error, typed) := Attempt(n, items[n], answers[n]);
        AttemptIsOwn(n, items[n], answers[n]);
        AttemptCounts(n, items[n], answers[n], n);
        hide Attempt, CountOf, EarnedAt, Accounted;
        OwnLog(s.log, typed, error, items[n], answers[n], n);
      }
    }
  }

  lemma NotYetLogged(s: Progress, items: seq<Item>, answers: seq<Answer>, n: nat)
    requires n < |items| == |answers| && Accounted(s, items, answers, n) && !s.left
    ensures |s.rows| == n && forall k :: 0 <= k < |s.log| ==> s.log[k].item != n
  {
    forall k | 0 <= k < |s.log| ensures s.log[k].item != n { assert s.log[k] in s.log; }
  }

  lemma OwnLog(log: seq<Log>, typed: seq<Log>, error: RowError, item: Item, a: Answer, n: nat)
    requires forall k :: 0 <= k < |log| ==> log[k].item != n
    requires CountOf(typed + [Audited(n, error)], IsAuditOf(n)) == 1 &&
             CountOf(typed + [Audited(n, error)], IsScriptOf(n)) <= 1
    requires a.bound && forall q :: 0 <= q < |typed| && typed[q] == ScriptTyped(n) ==> Justified(typed, q, item, a, n)
    ensures var all := log + (typed + [Audited(n, error)]);
            CountOf(all, IsAuditOf(n)) == 1 && CountOf(all, IsScriptOf(n)) <= 1 &&
            forall p :: 0 <= p < |all| && all[p] == ScriptTyped(n) ==> EarnedAt(all, p, item, a, n)
  {
    var more := typed + [Audited(n, error)];
    var all := log + more;
    CountAppend(log, more, IsAuditOf(n));
    CountAppend(log, more, IsScriptOf(n));
    CountNone(log, IsAuditOf(n));
    CountNone(log, IsScriptOf(n));
    hide CountOf, EarnedAt;
    forall p | 0 <= p < |all| && all[p] == ScriptTyped(n) ensures EarnedAt(all, p, item, a, n) {
      EarnedHere(log, typed, error, item, a, n, p);
    }
  }

  lemma EarnedHere(log: seq<Log>, typed: seq<Log>, error: RowError, item: Item, a: Answer, n: nat, p: nat)
    requires forall k :: 0 <= k < |log| ==> log[k].item != n
    requires a.bound && forall q :: 0 <= q < |typed| && typed[q] == ScriptTyped(n) ==> Justified(typed, q, item, a, n)
    requires var all := log + (typed + [Audited(n, error)]); p < |all| && all[p] == ScriptTyped(n)
    ensures EarnedAt(log + (typed + [Audited(n, error)]), p, item, a, n)
  {
    var q := p - |log|;
    var all := log + (typed + [Audited(n, error)]);
    assert 0 <= q < |typed| && typed[q] == all[p];
    assert Justified(typed, q, item, a, n);
    if item.gated {
      assert all[p - 1] == typed[q - 1];
    }
  }

  lemma NothingEarned(items: seq<Item>, answers: seq<Answer>, i: nat)
    requires i < |items| == |answers|
    ensures Earned(Progress([], [], false), items, answers, i)
  {
  }

  lemma {:induction false} LoopEarned(items: seq<Item>, answers: seq<Answer>, n: nat, i: nat)
    requires n <= |items| == |answers| && i < |items|
    ensures Earned(Loop(items, answers, n), items, answers, i)
    decreases n
  {
    hide Earned, Accounted, Pass;
    if n == 0 {
      NothingEarned(items, answers, i);
    } else {
      LoopEarned(items, answers, n - 1, i);
      LoopAccounted(items, answers, n - 1);
      if i == n - 1 { OwnPassEarned(Loop(items, answers, n - 1), items, answers, i); }
      else { OtherPassEarned(Loop(items, answers, n - 1), items, answers, n - 1, i); }
    }
  }

  /**
   * Without an abort the rows are a prefix of the requested commands in order, and all of them unless the
   * binding was lost or an error left the command running; no command is typed twice, none is typed when
   * it was blocked, missing or not allowed, each only after its own gate resolved; and every row has
   * exactly one audit record, except the one that reports the lost binding.
   */
  lemma BatchAccounting(items: seq<Item>, answers: seq<Answer>, i: nat)
    requires |items| == |answers| && i < |items|
    ensures var s := Loop(items, answers, |items|);
            |s.rows| <= |items| && (forall k :: 0 <= k < |s.rows| ==> s.rows[k].command == items[k].command) &&
            (|s.rows| == |items| ||
             (s.rows != [] && Stops(items[|s.rows| - 1], |s.rows| - 1, answers[|s.rows| - 1]))) &&
            Earned(s, items, answers, i)
  {
    LoopAccounted(items, answers, |items|);
    LoopEarned(items, answers, |items|, i);
    hide Loop, Earned, Stops, Attempt;
  }
}
