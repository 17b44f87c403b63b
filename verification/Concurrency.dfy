/** The permit gate and the bounded map of src/jumpserver/concurrency.ts. */
module Concurrency {
  import opened Basics
  import opened Gates

  /** Semaphore; a waiter is named by the operation that waits. */
  class Semaphore {
    var available: nat
    var waiters: seq<nat>

    ghost function View(): Permits
      reads this
    {
      Permits(available, waiters)
    }

    constructor (size: int)
      ensures available == Max(1, size) && waiters == []
    {
      available, waiters := Max(1, size), [];
    }

    /** acquire() up to its await. */
    method AcquirePermit(id: nat) returns (granted: bool)
      modifies this
      ensures (View(), granted) == Acquire(old(View()), id)
      ensures old(available) + |waiters| == available + old(|waiters|) + 1
    {
      if available > 0 {
        available := available - 1;
        return true;
      }
      waiters := waiters + [id];
      return false;
    }
  }

  /** What releaser() returns: calling it again does nothing. */
  class Releaser {
    var released: bool
    const gate: Semaphore

    constructor (gate: Semaphore)
      ensures !released && this.gate == gate
    {
      this.gate := gate;
      released := false;
    }

    method Call() returns (woken: Option<nat>)
      modifies this, gate
      ensures released
      ensures old(released) ==> gate.View() == old(gate.View()) && woken.None?
      ensures !old(released) ==> (gate.View(), woken) == Release(old(gate.View()))
    {
      if released {
        return None;
      }
      released := true;
      if |gate.waiters| > 0 {
        woken := Some(gate.waiters[0]);
        gate.waiters := gate.waiters[1..];
      } else {
        woken := None;
        gate.available := gate.available + 1;
      }
    }
  }

  // ----- mapWithConcurrency -----

  datatype Worker =
    | Top                // about to look at the signal and claim an item
    | Busy(index: nat)   // awaiting worker(items[index], index)
    | Ended
    | Rejected(item: nat)

  datatype Map<R> = Map(
    next: nat,
    aborted: bool,
    settled: nat,
    results: seq<Option<R>>,
    workers: seq<Worker>,
    fired: bool,             // the signal
    claimed: seq<nat>,       // history: the items handed to worker, in order
    reported: seq<nat>)      // history: the counts passed to onSettled

  function Begin<R>(concurrency: int, n: nat): Map<R> {
    Map(0, false, 0, seq(n, i => None), seq(Min(Max(1, concurrency), n), i => Top), false, [], [])
  }

  datatype MapEvent = Fire | Claim(w: nat) | Resolve(w: nat) | Reject(w: nat)

  /** One segment; the call for item i resolves to f(i). */
  function MapStep<R>(s: Map<R>, f: nat -> R, e: MapEvent): Map<R> {
    match e
    case Fire => s.(fired := true)
    case Claim(w) =>
      if w >= |s.workers| || !s.workers[w].Top? then s
      else if s.fired then s.(aborted := true, workers := s.workers[w := Ended])
      else if s.next >= |s.results| then s.(next := s.next + 1, workers := s.workers[w := Ended])
      else s.(next := s.next + 1, workers := s.workers[w := Busy(s.next)], claimed := s.claimed + [s.next])
    case Resolve(w) =>
      if w >= |s.workers| || !s.workers[w].Busy? || s.workers[w].index >= |s.results| then s
      else s.(results := s.results[s.workers[w].index := Some(f(s.workers[w].index))], workers := s.workers[w := Top],
              settled := s.settled + 1, reported := s.reported + [s.settled + 1])
    case Reject(w) =>
      if w >= |s.workers| || !s.workers[w].Busy? then s else s.(workers := s.workers[w := Rejected(s.workers[w].index)])
  }

  function MapRun<R>(s: Map<R>, f: nat -> R, events: seq<MapEvent>): Map<R>
    decreases |events|
  {
    if events == [] then s else MapStep(MapRun(s, f, events[..|events| - 1]), f, events[|events| - 1])
  }

  predicate AllEnded(ws: seq<Worker>) { forall k :: 0 <= k < |ws| ==> ws[k].Ended? }

  /** Promise.all resolved and no abort was seen. */
  predicate Returns<R>(s: Map<R>) { AllEnded(s.workers) && !s.aborted }

  predicate Holding(w: Worker, i: int) { (w.Busy? && w.index == i) || (w.Rejected? && w.item == i) }

  ghost predicate Held(ws: seq<Worker>, i: int) { exists k :: 0 <= k < |ws| && Holding(ws[k], i) }

  function Filled<R>(results: seq<Option<R>>): nat {
    if results == [] then 0 else Filled(results[..|results| - 1]) + if results[|results| - 1].Some? then 1 else 0
  }

  /** Each claimed item is either in the hands of exactly one worker or has its result. */
  ghost predicate HandsInv<R>(ws: seq<Worker>, results: seq<Option<R>>, next: nat) {
    (forall k, i :: 0 <= k < |ws| && Holding(ws[k], i) ==> i < next && i < |results|) &&
    (forall j, k, i :: 0 <= j < |ws| && 0 <= k < |ws| && Holding(ws[j], i) && Holding(ws[k], i) ==> j == k) &&
    (forall i :: 0 <= i < |results| ==>
       (results[i].Some? || Held(ws, i) <==> i < next) && !(results[i].Some? && Held(ws, i)))
  }

  /** Results come from their own items, and a worker ends when there is nothing left or the signal is set. */
  ghost predicate ReturnInv<R>(s: Map<R>, f: nat -> R) {
    (forall i :: 0 <= i < |s.results| && s.results[i].Some? ==> s.results[i].value == f(i)) &&
    (s.aborted ==> s.fired) &&
    (!s.aborted ==> forall k :: 0 <= k < |s.workers| && s.workers[k].Ended? ==> s.next >= |s.results|)
  }

  ghost predicate CountInv<R>(s: Map<R>) {
    s.claimed == seq(Min(s.next, |s.results|), i => i) && s.settled == Filled(s.results) &&
      s.reported == seq(s.settled, i => i + 1)
  }

  ghost predicate MapInv<R>(s: Map<R>, f: nat -> R) {
    HandsInv(s.workers, s.results, s.next) && ReturnInv(s, f) && CountInv(s)
  }

  lemma {:induction false} FilledUpdate<R>(results: seq<Option<R>>, i: nat, v: R)
    requires i < |results| && results[i].None?
    ensures Filled(results[i := Some(v)]) == Filled(results) + 1
    decreases |results|
  {
    var r1 := results[i := Some(v)];
    if i == |results| - 1 {
      assert r1[..|results| - 1] == results[..|results| - 1];
    } else {
      assert r1[..|results| - 1] == results[..|results| - 1][i := Some(v)];
      FilledUpdate(results[..|results| - 1], i, v);
    }
  }

  lemma {:induction false} FilledCount<R>(results: seq<Option<R>>)
    ensures (forall i :: 0 <= i < |results| ==> results[i].Some?) ==> Filled(results) == |results|
    ensures (forall i :: 0 <= i < |results| ==> results[i].None?) ==> Filled(results) == 0
  {
    if results != [] { FilledCount(results[..|results| - 1]); }
  }

  /** Who holds an item when one worker changes. */
  lemma HeldChange(ws: seq<Worker>, w: nat, to: Worker, i: int)
    requires w < |ws|
    ensures Held(ws[w := to], i) ==> Held(ws, i) || Holding(to, i)
    ensures Held(ws, i) ==> Held(ws[w := to], i) || Holding(ws[w], i)
    ensures Holding(to, i) ==> Held(ws[w := to], i)
  {
    if Held(ws, i) {
      var k :| 0 <= k < |ws| && Holding(ws[k], i);
      if k != w { assert Holding(ws[w := to][k], i); }
    }
    if Holding(to, i) { assert Holding(ws[w := to][w], i); }
  }

  lemma ClaimKeepsHands<R>(ws: seq<Worker>, results: seq<Option<R>>, next: nat, w: nat)
    requires HandsInv(ws, results, next) && w < |ws| && ws[w].Top? && next < |results|
    ensures HandsInv(ws[w := Busy(next)], results, next + 1)
  {
    var ws1 := ws[w := Busy(next)];
    forall i ensures Held(ws1, i) <==> Held(ws, i) || i == next { HeldChange(ws, w, Busy(next), i); }
    hide Held;
  }

  lemma LetGo<R>(ws: seq<Worker>, results: seq<Option<R>>, next: nat, w: nat)
    requires HandsInv(ws, results, next) && w < |ws| && ws[w].Busy?
    ensures forall i :: Held(ws[w := Top], i) <==> Held(ws, i) && i != ws[w].index
  {
    var at := ws[w].index;
    assert Holding(ws[w], at);
    var ws1 := ws[w := Top];
    forall k | 0 <= k < |ws1| ensures !Holding(ws1[k], at) {
      if Holding(ws[k], at) { assert k == w; }
    }
    forall i ensures Held(ws[w := Top], i) <==> Held(ws, i) && i != at { HeldChange(ws, w, Top, i); }
  }

  lemma ResolveKeepsHands<R>(ws: seq<Worker>, results: seq<Option<R>>, next: nat, w: nat, v: R)
    requires HandsInv(ws, results, next) && w < |ws| && ws[w].Busy?
    ensures var at := ws[w].index;
            at < |results| && results[at].None? && HandsInv(ws[w := Top], results[at := Some(v)], next)
  {
    var at := ws[w].index;
    assert Holding(ws[w], at) && Held(ws, at);
    LetGo(ws, results, next, w);
    hide Held;
  }

  lemma OtherStepsKeepHands<R>(ws: seq<Worker>, results: seq<Option<R>>, next: nat, w: nat, to: Worker)
    requires HandsInv(ws, results, next) && w < |ws|
    requires (ws[w].Top? && to.Ended?) || (ws[w].Busy? && to == Rejected(ws[w].index))
    ensures HandsInv(ws[w := to], results, next) && (next >= |results| ==> HandsInv(ws[w := to], results, next + 1))
  {
    var ws1 := ws[w := to];
    forall i ensures Held(ws1, i) <==> Held(ws, i) { HeldChange(ws, w, to, i); }
    forall k, i | 0 <= k < |ws| ensures Holding(ws1[k], i) <==> Holding(ws[k], i) {}
    hide Held;
  }

  lemma StepKeepsHands<R>(s: Map<R>, f: nat -> R, e: MapEvent)
    requires HandsInv(s.workers, s.results, s.next)
    ensures var t := MapStep(s, f, e); HandsInv(t.workers, t.results, t.next)
    ensures e.Resolve? && e.w < |s.workers| && s.workers[e.w].Busy? ==>
              s.workers[e.w].index < |s.results| && s.results[s.workers[e.w].index].None?
  {
    match e
    case Fire =>
    case Claim(w) =>
      if w < |s.workers| && s.workers[w].Top? {
        OtherStepsKeepHands(s.workers, s.results, s.next, w, Ended);
        if s.next < |s.results| { ClaimKeepsHands(s.workers, s.results, s.next, w); }
      }
    case Resolve(w) =>
      if w < |s.workers| && s.workers[w].Busy? {
        ResolveKeepsHands(s.workers, s.results, s.next, w, f(s.workers[w].index));
      }
    case Reject(w) =>
      if w < |s.workers| && s.workers[w].Busy? {
        OtherStepsKeepHands(s.workers, s.results, s.next, w, Rejected(s.workers[w].index));
      }
    hide HandsInv;
  }

  lemma StepKeepsReturn<R>(s: Map<R>, f: nat -> R, e: MapEvent)
    requires ReturnInv(s, f)
    ensures ReturnInv(MapStep(s, f, e), f)
  {
  }

  lemma StepKeepsCount<R>(s: Map<R>, f: nat -> R, e: MapEvent)
    requires CountInv(s)
    requires e.Resolve? && e.w < |s.workers| && s.workers[e.w].Busy? ==>
               s.workers[e.w].index < |s.results| && s.results[s.workers[e.w].index].None?
    ensures CountInv(MapStep(s, f, e))
  {
    if e.Resolve? && e.w < |s.workers| && s.workers[e.w].Busy? {
      FilledUpdate(s.results, s.workers[e.w].index, f(s.workers[e.w].index));
    }
    hide Filled;
  }

  lemma MapStepKeeps<R>(s: Map<R>, f: nat -> R, e: MapEvent)
    requires MapInv(s, f)
    ensures var t := MapStep(s, f, e); MapInv(t, f) && |t.results| == |s.results| && |t.workers| == |s.workers|
  {
    StepKeepsHands(s, f, e);
    StepKeepsReturn(s, f, e);
    StepKeepsCount(s, f, e);
    hide HandsInv, ReturnInv, CountInv;
  }

  lemma BeginKeeps<R>(concurrency: int, n: nat, f: nat -> R)
    ensures MapInv(Begin(concurrency, n), f)
  {
    FilledCount(Begin<R>(concurrency, n).results);
    hide Filled;
  }

  lemma {:induction false} MapRunKeeps<R>(concurrency: int, n: nat, f: nat -> R, events: seq<MapEvent>)
    ensures var s := MapRun(Begin(concurrency, n), f, events);
            MapInv(s, f) && |s.results| == n && |s.workers| == Min(Max(1, concurrency), n)
    decreases |events|
  {
    if events == [] {
      BeginKeeps(concurrency, n, f);
    } else {
      var before := events[..|events| - 1];
      MapRunKeeps(concurrency, n, f, before);
      MapStepKeeps(MapRun(Begin(concurrency, n), f, before), f, events[|events| - 1]);
    }
    hide MapInv, MapStep;
  }

  /** The items being worked on. */
  function InFlight(ws: seq<Worker>): nat {
    if ws == [] then 0 else InFlight(ws[..|ws| - 1]) + if ws[|ws| - 1].Busy? then 1 else 0
  }

  lemma {:induction false} InFlightAtMost(ws: seq<Worker>)
    ensures InFlight(ws) <= |ws|
  {
    if ws != [] { InFlightAtMost(ws[..|ws| - 1]); }
  }

  /**
   * In every schedule: at most min(limit, n) calls of worker are in flight, the items are claimed in
   * order and each at most once, and onSettled counts 1, 2, 3 and so on without a gap.
   */
  lemma BoundedAndOrdered<R>(concurrency: int, n: nat, f: nat -> R, events: seq<MapEvent>)
    ensures var s := MapRun(Begin(concurrency, n), f, events);
            InFlight(s.workers) <= Min(Max(1, concurrency), n) &&
            |s.claimed| <= n && (forall i :: 0 <= i < |s.claimed| ==> s.claimed[i] == i) &&
            (forall k :: 0 <= k < |s.reported| ==> s.reported[k] == k + 1)
  {
    MapRunKeeps(concurrency, n, f, events);
    InFlightAtMost(MapRun(Begin(concurrency, n), f, events).workers);
    hide MapRun, Held, Filled, InFlight;
  }

  /** A normal return has every result in its place, each from its own item, and reported all n of them. */
  lemma ReturnsEverything<R>(concurrency: int, n: nat, f: nat -> R, events: seq<MapEvent>)
    ensures var s := MapRun(Begin(concurrency, n), f, events);
            Returns(s) ==> |s.results| == n == |s.reported| && forall i :: 0 <= i < n ==> s.results[i] == Some(f(i))
  {
    MapRunKeeps(concurrency, n, f, events);
    var s := MapRun(Begin(concurrency, n), f, events);
    if Returns(s) {
      FilledCount(s.results);
      if n > 0 { assert s.workers[0].Ended?; }
      assert forall i :: !Held(s.workers, i);
    }
    hide MapRun, Filled;
  }

  /** Once the signal is set no item starts, in any continuation. */
  lemma {:induction false} NothingStartsAfterTheSignal<R>(s: Map<R>, f: nat -> R, events: seq<MapEvent>)
    requires s.fired
    ensures MapRun(s, f, events).fired && MapRun(s, f, events).claimed == s.claimed
    decreases |events|
  {
    if events != [] { NothingStartsAfterTheSignal(s, f, events[..|events| - 1]); }
  }

  // ----- the workers come to an end -----

  /** At the top of its loop a worker ends if the signal is set or nothing is left, and takes the next item if not. */
  lemma WorkerGoes<R>(s: Map<R>, f: nat -> R, w: nat)
    requires w < |s.workers|
    ensures var t := MapStep(s, f, Claim(w)); var ends := s.fired || s.next >= |s.results|;
            s.workers[w].Top? ==>
              t.workers == s.workers[w := if ends then Ended else Busy(s.next)] &&
              (t.aborted <==> s.aborted || s.fired) &&
              t.claimed == (if ends then s.claimed else s.claimed + [s.next]) && t.results == s.results
    ensures var t := MapStep(s, f, Reject(w));
            s.workers[w].Busy? ==> t == s.(workers := s.workers[w := Rejected(s.workers[w].index)])
    ensures var t := MapStep(s, f, Resolve(w));
            s.workers[w].Busy? && s.workers[w].index < |s.results| ==>
              t.workers == s.workers[w := Top] && t.settled == s.settled + 1
  {
  }

  function WorkOf(w: Worker): nat {
    match w
    case Top => 1
    case Busy(_) => 2
    case _ => 0
  }

  function Work(ws: seq<Worker>): nat { if ws == [] then 0 else Work(ws[..|ws| - 1]) + WorkOf(ws[|ws| - 1]) }

  lemma {:induction false} WorkUpdate(ws: seq<Worker>, w: nat, to: Worker)
    requires w < |ws|
    ensures Work(ws[w := to]) == Work(ws) - WorkOf(ws[w]) + WorkOf(to)
    decreases |ws|
  {
    var ws1 := ws[w := to];
    if w == |ws| - 1 {
      assert ws1[..|ws| - 1] == ws[..|ws| - 1];
    } else {
      assert ws1[..|ws| - 1] == ws[..|ws| - 1][w := to];
      WorkUpdate(ws[..|ws| - 1], w, to);
    }
  }

  /** The items nobody has claimed yet, and what the workers have in hand. */
  function Remaining<R>(s: Map<R>): nat { 3 * (|s.results| - Min(s.next, |s.results|)) + Work(s.workers) }

  /** In every run each step of a worker that has not ended brings the whole map closer to its end. */
  lemma MapStepsDecrease<R>(concurrency: int, n: nat, f: nat -> R, events: seq<MapEvent>, e: MapEvent)
    requires var s := MapRun(Begin(concurrency, n), f, events);
             !e.Fire? && e.w < |s.workers| && if e.Claim? then s.workers[e.w].Top? else s.workers[e.w].Busy?
    ensures var s := MapRun(Begin(concurrency, n), f, events); Remaining(MapStep(s, f, e)) < Remaining(s)
  {
    MapRunKeeps(concurrency, n, f, events);
    var s := MapRun(Begin(concurrency, n), f, events);
    hide MapRun, Work, Filled, Held;
    StepKeepsHands(s, f, e);
    hide HandsInv, ReturnInv, CountInv;
    WorkUpdate(s.workers, e.w, MapStep(s, f, e).workers[e.w]);
  }

  /** mapWithConcurrency in its own form: shared counters and an array the workers fill. */
  class BoundedMap<R> {
    var next: nat
    var aborted: bool
    var settled: nat
    const results: array<Option<R>>
    ghost var workers: seq<Worker>
    ghost var fired: bool
    ghost var claimed: seq<nat>
    ghost var reported: seq<nat>

    ghost function View(): Map<R>
      reads this, results
    {
      Map(next, aborted, settled, results[..], workers, fired, claimed, reported)
    }

    constructor (concurrency: int, n: nat)
      ensures fresh(results) && View() == Begin(concurrency, n)
    {
      var limit := Max(1, concurrency);
      results := new Option<R>[n](i => None);
      next, aborted, settled := 0, false, 0;
      workers, fired, claimed, reported := seq(Min(limit, n), i => Top), false, [], [];
    }

    /** The top of runOne's loop: the item to work on, if any. */
    method ClaimNext(ghost w: nat, signal: bool) returns (index: Option<nat>)
      requires w < |workers| && workers[w].Top? && signal == fired
      modifies this
      ensures forall f :: View() == MapStep(old(View()), f, Claim(w))
      ensures if old(fired) || old(next) >= results.Length then index.None? else index == Some(old(next))
    {
      if signal {
        aborted, workers := true, workers[w := Ended];
        return None;
      }
      var i := next;
      next := next + 1;
      if i >= results.Length {
        workers := workers[w := Ended];
        return None;
      }
      workers, claimed := workers[w := Busy(i)], claimed + [i];
      return Some(i);
    }

    /** The rest of runOne's loop, once worker(items[index], index) resolved to value; done is what onSettled gets. */
    method Settle(ghost w: nat, index: nat, value: R) returns (done: nat)
      requires w < |workers| && workers[w] == Busy(index) && index < results.Length
      modifies this, results
      ensures forall f: nat -> R :: f(index) == value ==> View() == MapStep(old(View()), f, Resolve(w))
      ensures done == old(settled) + 1
    {
      results[index] := Some(value);
      settled := settled + 1;
      workers, reported := workers[w := Top], reported + [settled];
      return settled;
    }
  }
}
