/**
 * The permit gate over many session managers (src/jumpserver/concurrency.ts, mutex.ts and the batch
 * entry of session-manager.ts) as a step system: a batch first acquires a permit, then queues on its
 * manager's mutex; every other operation queues directly. Each step is one synchronous segment.
 */
module Gates {
  import opened Basics

  datatype Phase =
    | AtGate     // waiting for a permit
    | Woken      // acquire() resolved
    | Queued     // waiting for its turn
    | Running
    | Leaving    // out of the mutex, finally clauses to run
    | Done

  datatype Operation = Operation(manager: nat, gated: bool, phase: Phase, ran: bool, dropped: bool)

  /** The semaphore: free permits, and who waits in order of arrival. */
  datatype Permits = Permits(available: nat, waiters: seq<nat>)

  /** acquire(): whether the caller got its permit at once. */
  function Acquire(p: Permits, id: nat): (Permits, bool) {
    if p.available > 0 then (p.(available := p.available - 1), true) else (p.(waiters := p.waiters + [id]), false)
  }

  /** A releaser called for the first time: the permit goes to the first waiter, or back. */
  function Release(p: Permits): (Permits, Option<nat>) {
    if p.waiters != [] then (p.(waiters := p.waiters[1..]), Some(p.waiters[0]))
    else (p.(available := p.available + 1), None)
  }

  datatype System = System(
    permits: Permits,
    ops: seq<Operation>,               // in order of arrival
    queues: map<nat, seq<nat>>,        // for each manager, every call of mutex.run in order
    granted: seq<nat>)                 // history: who got a permit, in order

  function Start(size: int): System { System(Permits(Max(1, size), []), [], map[], []) }

  function Queue(queues: map<nat, seq<nat>>, m: nat): seq<nat> { if m in queues then queues[m] else [] }

  /** Its gate in the chain is open. */
  predicate Through(p: Phase) { p.Leaving? || p.Done? }

  function Enqueue(s: System, i: nat): System
    requires i < |s.ops|
  {
    var m := s.ops[i].manager;
    s.(ops := s.ops[i := s.ops[i].(phase := Queued)], queues := s.queues[m := Queue(s.queues, m) + [i]])
  }

  function Arrive(s: System, manager: nat, gated: bool): System {
    var i := |s.ops|;
    var s1 := s.(ops := s.ops + [Operation(manager, gated, AtGate, false, false)]);
    if !gated then Enqueue(s1, i)
    else
      var (p, now) := Acquire(s.permits, i);
      var s2 := s1.(permits := p);
      if now then s2.(ops := s2.ops[i := s2.ops[i].(phase := Woken)], granted := s2.granted + [i]) else s2
  }

  /** Operation i, at place k of its manager's queue, may proceed: the one before it is through. */
  predicate CanProceed(s: System, i: nat, k: nat) {
    i < |s.ops| && s.ops[i].phase.Queued? && k < |Queue(s.queues, s.ops[i].manager)| &&
      Queue(s.queues, s.ops[i].manager)[k] == i &&
    (k > 0 ==> var before := Queue(s.queues, s.ops[i].manager)[k - 1]; before < |s.ops| && Through(s.ops[before].phase))
  }

  function Proceed(s: System, i: nat, aborted: bool): System
    requires i < |s.ops|
  {
    var op := s.ops[i];
    s.(ops := s.ops[i := if aborted then op.(phase := Leaving, dropped := true)
                    else op.(phase := Running, ran := true)])
  }

  function Leave(s: System, i: nat): System
    requires i < |s.ops|
  {
    var s1 := s.(ops := s.ops[i := s.ops[i].(phase := Done)]);
    if !s.ops[i].gated then s1
    else
      var (p, woken) := Release(s.permits);
      var s2 := s1.(permits := p);
      if woken.None? || woken.value >= |s2.ops| then s2
      else s2.(ops := s2.ops[woken.value := s2.ops[woken.value].(phase := Woken)],
               granted := s2.granted + [woken.value])
  }

  datatype Event =
    | Arrives(manager: nat, gated: bool)
    | Continues(i: nat)                   // behind the awaited permit: call mutex.run
    | Proceeds(i: nat, k: nat, aborted: bool)  // behind the awaited gate
    | Finishes(i: nat)                    // the function settled: open the gate
    | Leaves(i: nat)                      // release the permit

  predicate Enabled(s: System, e: Event) {
    match e
    case Arrives(_, _) => true
    case Continues(i) => i < |s.ops| && s.ops[i].phase.Woken?
    case Proceeds(i, k, _) => CanProceed(s, i, k)
    case Finishes(i) => i < |s.ops| && s.ops[i].phase.Running?
    case Leaves(i) => i < |s.ops| && s.ops[i].phase.Leaving?
  }

  function Step(s: System, e: Event): System {
    if !Enabled(s, e) then s
    else match e
      case Arrives(manager, gated) => Arrive(s, manager, gated)
      case Continues(i) => Enqueue(s, i)
      case Proceeds(i, _, aborted) => Proceed(s, i, aborted)
      case Finishes(i) => s.(ops := s.ops[i := s.ops[i].(phase := Leaving)])
      case Leaves(i) => Leave(s, i)
  }

  function Run(s: System, events: seq<Event>): System
    decreases |events|
  {
    if events == [] then s else Step(Run(s, events[..|events| - 1]), events[|events| - 1])
  }

  // ----- counting -----

  predicate Holds(op: Operation) { op.gated && !op.phase.AtGate? && !op.phase.Done? }

  /** The permits in use. */
  function Held(ops: seq<Operation>): nat {
    if ops == [] then 0 else Held(ops[..|ops| - 1]) + if Holds(ops[|ops| - 1]) then 1 else 0
  }

  lemma {:induction false} HeldUpdate(ops: seq<Operation>, i: nat, op: Operation)
    requires i < |ops|
    ensures Held(ops[i := op]) == Held(ops) - (if Holds(ops[i]) then 1 else 0) + if Holds(op) then 1 else 0
    decreases |ops|
  {
    var ops1 := ops[i := op];
    if i == |ops| - 1 {
      assert ops1[..|ops| - 1] == ops[..|ops| - 1];
    } else {
      assert ops1[..|ops| - 1] == ops[..|ops| - 1][i := op];
      HeldUpdate(ops[..|ops| - 1], i, op);
    }
  }

  lemma HeldAppend(ops: seq<Operation>, op: Operation)
    ensures Held(ops + [op]) == Held(ops) + if Holds(op) then 1 else 0
  {
    assert (ops + [op])[..|ops|] == ops;
  }

  lemma {:induction false} SomeHolder(ops: seq<Operation>) returns (i: nat)
    requires Held(ops) > 0
    ensures i < |ops| && Holds(ops[i])
  {
    if Holds(ops[|ops| - 1]) { i := |ops| - 1; } else { i := SomeHolder(ops[..|ops| - 1]); }
  }

  // ----- the invariant -----

  predicate Increasing(ids: seq<nat>) { forall a, b :: 0 <= a < b < |ids| ==> ids[a] < ids[b] }

  ghost predicate PermitInv(s: System, size: nat) {
    s.permits.available + Held(s.ops) == size && (s.permits.waiters != [] ==> s.permits.available == 0) &&
    Waiting(s.ops, s.permits.waiters) && Granting(s.ops, s.granted) && Before(s.granted, s.permits.waiters)
  }

  /** The waiters are the operations at the gate, in order of arrival. */
  ghost predicate Waiting(ops: seq<Operation>, ids: seq<nat>) {
    Increasing(ids) && (forall i <- ids :: AtTheGate(ops, i)) && (forall i :: AtTheGate(ops, i) ==> i in ids)
  }

  predicate AtTheGate(ops: seq<Operation>, i: nat) { i < |ops| && ops[i].gated && ops[i].phase.AtGate? }

  /** A permit was granted to the gated operations past the gate, in order of arrival. */
  ghost predicate Granting(ops: seq<Operation>, ids: seq<nat>) {
    Increasing(ids) && (forall i <- ids :: PastTheGate(ops, i)) && (forall i :: PastTheGate(ops, i) ==> i in ids)
  }

  predicate PastTheGate(ops: seq<Operation>, i: nat) { i < |ops| && ops[i].gated && !ops[i].phase.AtGate? }

  predicate Before(a: seq<nat>, b: seq<nat>) { forall i <- a, k <- b :: i < k }

  /** In each queue: first those that are through, then at most one running, then those that wait. */
  ghost predicate QueueInv(ops: seq<Operation>, queues: map<nat, seq<nat>>) {
    (forall m <- queues, k :: 0 <= k < |queues[m]| ==>
       var i := queues[m][k]; i < |ops| && ops[i].manager == m && !ops[i].phase.AtGate? && !ops[i].phase.Woken?) &&
    (forall m <- queues, a, b :: 0 <= a < b < |queues[m]| ==>
       queues[m][a] != queues[m][b] && (Through(ops[queues[m][a]].phase) || ops[queues[m][b]].phase.Queued?)) &&
    (forall i :: 0 <= i < |ops| && !ops[i].phase.AtGate? && !ops[i].phase.Woken? ==> i in Queue(queues, ops[i].manager))
  }

  predicate OperationInv(op: Operation) {
    (op.phase.AtGate? || op.phase.Woken? ==> op.gated) &&
    (op.ran <==> op.phase.Running? || (Through(op.phase) && !op.dropped)) &&
      (op.dropped ==> !op.ran && Through(op.phase))
  }

  ghost predicate Inv(s: System, size: nat) {
    PermitInv(s, size) && QueueInv(s.ops, s.queues) && forall i :: 0 <= i < |s.ops| ==> OperationInv(s.ops[i])
  }

  lemma EnqueueKeeps(s: System, i: nat)
    requires i < |s.ops| && QueueInv(s.ops, s.queues) && (s.ops[i].phase.Woken? || s.ops[i].phase.AtGate?)
    ensures QueueInv(Enqueue(s, i).ops, Enqueue(s, i).queues)
  {
    var m := s.ops[i].manager;
    var s1 := Enqueue(s, i);
    var queue := Queue(s.queues, m);
    NotQueued(s, i);
    StillMembers(s, i);
    forall n <- s1.queues, a, b | 0 <= a < b < |s1.queues[n]|
      ensures s1.queues[n][a] < |s1.ops| && s1.queues[n][b] < |s1.ops| && s1.queues[n][a] != s1.queues[n][b] &&
              (Through(s1.ops[s1.queues[n][a]].phase) || s1.ops[s1.queues[n][b]].phase.Queued?)
    {
      if n == m { assert s1.queues[m] == queue + [i]; }
    }
  }

  /** Everyone past the gate is in its manager's queue, the new one included. */
  lemma StillMembers(s: System, i: nat)
    requires i < |s.ops| && QueueInv(s.ops, s.queues) && (s.ops[i].phase.Woken? || s.ops[i].phase.AtGate?)
    ensures var s1 := Enqueue(s, i);
            forall k :: 0 <= k < |s1.ops| && !s1.ops[k].phase.AtGate? && !s1.ops[k].phase.Woken? ==>
              k in Queue(s1.queues, s1.ops[k].manager)
  {
    var m := s.ops[i].manager;
    var s1 := Enqueue(s, i);
    var queue := Queue(s.queues, m);
    forall k | 0 <= k < |s1.ops| && !s1.ops[k].phase.AtGate? && !s1.ops[k].phase.Woken?
      ensures k in Queue(s1.queues, s1.ops[k].manager)
    {
      if k == i { assert s1.queues[m][|queue|] == i; }
      else if s1.ops[k].manager == m { assert k in queue; }
    }
  }

  /** An operation that has not called mutex.run is in no queue. */
  lemma NotQueued(s: System, i: nat)
    requires i < |s.ops| && QueueInv(s.ops, s.queues) && (s.ops[i].phase.Woken? || s.ops[i].phase.AtGate?)
    ensures forall m <- s.queues, k :: 0 <= k < |s.queues[m]| ==> s.queues[m][k] != i && s.queues[m][k] < |s.ops|
  {
  }

  /** An operation moves on without leaving its place in the queue; a waiting one must be first. */
  lemma MoveKeepsQueues(s: System, i: nat, op: Operation, k: nat)
    requires QueueInv(s.ops, s.queues) && i < |s.ops| && op.manager == s.ops[i].manager
    requires s.ops[i].phase.AtGate? ==> op.phase.Woken?
    requires !s.ops[i].phase.AtGate? ==> !s.ops[i].phase.Woken? && !op.phase.AtGate? && !op.phase.Woken?
    requires Through(s.ops[i].phase) ==> Through(op.phase)
    requires s.ops[i].phase.Queued? ==> CanProceed(s, i, k)
    ensures QueueInv(s.ops[i := op], s.queues)
  {
    if s.ops[i].phase.Queued? { FirstInQueue(s, i, k); }
  }

  /** Two places of one queue. */
  lemma QueueOrder(s: System, m: nat, a: nat, b: nat)
    requires QueueInv(s.ops, s.queues) && m in s.queues && a < b < |s.queues[m]|
    ensures var queue := s.queues[m];
            queue[a] < |s.ops| && queue[b] < |s.ops| && queue[a] != queue[b] &&
            (Through(s.ops[queue[a]].phase) || s.ops[queue[b]].phase.Queued?)
  {
  }

  lemma QueueMembers(s: System, i: nat, k: nat)
    requires QueueInv(s.ops, s.queues) && CanProceed(s, i, k)
    ensures s.ops[i].manager in s.queues && forall a :: 0 <= a < |s.queues[s.ops[i].manager]| ==>
              s.queues[s.ops[i].manager][a] < |s.ops|
  {
  }

  /** Who may proceed has only calls that are through before it, and only waiting ones behind it. */
  lemma FirstInQueue(s: System, i: nat, k: nat)
    requires QueueInv(s.ops, s.queues) && CanProceed(s, i, k)
    ensures var queue := Queue(s.queues, s.ops[i].manager);
            s.ops[i].manager in s.queues && (forall a :: 0 <= a < |queue| ==> queue[a] < |s.ops|) &&
            (forall a :: 0 <= a < k ==> Through(s.ops[queue[a]].phase)) &&
            (forall b :: k < b < |queue| ==> s.ops[queue[b]].phase.Queued?) &&
            (forall a :: 0 <= a < |queue| && queue[a] == i ==> a == k)
  {
    hide QueueInv;
    QueueMembers(s, i, k);
    var m := s.ops[i].manager;
    var queue := s.queues[m];
    forall a | 0 <= a < k ensures Through(s.ops[queue[a]].phase) {
      if a < k - 1 { QueueOrder(s, m, a, k - 1); }
    }
    forall b | k < b < |queue| ensures s.ops[queue[b]].phase.Queued? { QueueOrder(s, m, k, b); }
    forall a | 0 <= a < |queue| && a != k ensures queue[a] != i {
      if a < k { QueueOrder(s, m, a, k); } else { QueueOrder(s, m, k, a); }
    }
  }

  // ----- every step keeps the invariant -----

  lemma ArriveKeepsQueues(s: System, manager: nat, gated: bool)
    requires QueueInv(s.ops, s.queues)
    ensures QueueInv(Arrive(s, manager, gated).ops, Arrive(s, manager, gated).queues)
  {
    var op := Operation(manager, gated, AtGate, false, false);
    var s1 := s.(ops := s.ops + [op]);
    assert QueueInv(s1.ops, s1.queues);
    if gated {
      assert QueueInv(s1.ops[|s.ops| := op.(phase := Woken)], s.queues);
      hide QueueInv;
    } else {
      hide QueueInv;
      EnqueueKeeps(s1, |s.ops|);
    }
  }

  lemma Appended(ids: seq<nat>, w: nat)
    requires Increasing(ids) && forall i <- ids :: i < w
    ensures Increasing(ids + [w]) && forall i :: i in ids + [w] <==> i in ids || i == w
  {
    forall i ensures i in ids + [w] <==> i in ids || i == w {}
    forall a, b | 0 <= a < b < |ids + [w]| ensures (ids + [w])[a] < (ids + [w])[b] {
      if b == |ids| { assert ids[a] in ids; }
    }
  }

  lemma Arrived(s: System, manager: nat, gated: bool)
    ensures var s1 := Arrive(s, manager, gated); var i := |s.ops|;
            if !gated then s1.ops == s.ops + [Operation(manager, gated, Queued, false, false)] &&
              s1.permits == s.permits && s1.granted == s.granted
            else if s.permits.available > 0 then
              s1.ops == s.ops + [Operation(manager, gated, Woken, false, false)] && s1.granted == s.granted + [i] &&
              s1.permits == s.permits.(available := s.permits.available - 1)
            else
              s1.ops == s.ops + [Operation(manager, gated, AtGate, false, false)] && s1.granted == s.granted &&
              s1.permits == s.permits.(waiters := s.permits.waiters + [i])
  {
    hide Queue;
  }

  lemma ArriveKeepsPermits(s: System, size: nat, manager: nat, gated: bool)
    requires PermitInv(s, size)
    ensures PermitInv(Arrive(s, manager, gated), size)
  {
    Arrived(s, manager, gated);
    hide Arrive;
    var s1 := Arrive(s, manager, gated);
    var n := |s.ops|;
    HeldAppend(s.ops, s1.ops[n]);
    hide Held;
    forall i: nat ensures (AtTheGate(s1.ops, i) <==> AtTheGate(s.ops, i) || (i == n && AtTheGate(s1.ops, n))) &&
                          (PastTheGate(s1.ops, i) <==> PastTheGate(s.ops, i) || (i == n && PastTheGate(s1.ops, n))) {
      if i < n { assert s1.ops[i] == s.ops[i]; }
    }
    assert forall i <- s.permits.waiters :: AtTheGate(s.ops, i) && i < n;
    assert forall i <- s.granted :: PastTheGate(s.ops, i) && i < n;
    Appended(s.permits.waiters, n);
    Appended(s.granted, n);
    hide AtTheGate, PastTheGate, Increasing;
    assert Waiting(s1.ops, s1.permits.waiters);
    assert Granting(s1.ops, s1.granted);
    assert Before(s1.granted, s1.permits.waiters);
  }

  /** A move that neither takes nor returns a permit. */
  lemma MoveKeepsPermits(s: System, s1: System, size: nat, i: nat, op: Operation)
    requires PermitInv(s, size) && i < |s.ops| && s1.ops == s.ops[i := op]
    requires s1.permits == s.permits && s1.granted == s.granted
    requires op.gated == s.ops[i].gated && Holds(op) == Holds(s.ops[i]) && !s.ops[i].phase.AtGate? && !op.phase.AtGate?
    ensures PermitInv(s1, size)
  {
    HeldUpdate(s.ops, i, op);
    hide Held;
  }

  /** The first waiter gets the permit that was returned. */
  lemma WakeKeepsPermits(s: System, s1: System, size: nat)
    requires s.permits.waiters != []
    requires s.permits.available == 0 && Held(s.ops) + 1 == size
    requires Waiting(s.ops, s.permits.waiters) && Granting(s.ops, s.granted) && Before(s.granted, s.permits.waiters)
    requires var w := s.permits.waiters[0];
             w < |s.ops| && s1.ops == s.ops[w := s.ops[w].(phase := Woken)] && s1.granted == s.granted + [w]
    requires s1.permits == s.permits.(waiters := s.permits.waiters[1..])
    ensures PermitInv(s1, size)
  {
    var w := s.permits.waiters[0];
    assert w in s.permits.waiters;
    HeldUpdate(s.ops, w, s1.ops[w]);
    hide Held;
    var rest := s1.permits.waiters;
    assert s.permits.waiters == [w] + rest;
    forall i: nat
      ensures AtTheGate(s1.ops, i) <==> AtTheGate(s.ops, i) && i != w
      ensures PastTheGate(s1.ops, i) <==> PastTheGate(s.ops, i) || i == w
    {
      if i < |s.ops| && i != w { assert s1.ops[i] == s.ops[i]; }
    }
    assert w !in rest;
    Appended(s.granted, w);
    assert Granting(s1.ops, s1.granted) && Waiting(s1.ops, rest) && Before(s1.granted, rest);
  }

  lemma LeaveKeepsPermits(s: System, size: nat, i: nat)
    requires PermitInv(s, size) && i < |s.ops| && s.ops[i].phase.Leaving?
    ensures PermitInv(Leave(s, i), size)
  {
    var s1 := s.(ops := s.ops[i := s.ops[i].(phase := Done)]);
    HeldUpdate(s.ops, i, s.ops[i].(phase := Done));
    forall k: nat
      ensures AtTheGate(s1.ops, k) == AtTheGate(s.ops, k) && PastTheGate(s1.ops, k) == PastTheGate(s.ops, k)
    {
      if k < |s.ops| && k != i { assert s1.ops[k] == s.ops[k]; }
    }
    hide Held;
    assert Waiting(s1.ops, s.permits.waiters) && Granting(s1.ops, s.granted);
    if s.ops[i].gated && s.permits.waiters != [] {
      assert AtTheGate(s.ops, s.permits.waiters[0]);
      hide Waiting, Granting, Before;
      WakeKeepsPermits(s1, Leave(s, i), size);
    } else {
      hide Waiting, Granting, Before;
    }
  }

  lemma LeaveKeepsQueues(s: System, size: nat, i: nat)
    requires PermitInv(s, size) && QueueInv(s.ops, s.queues) && i < |s.ops| && s.ops[i].phase.Leaving?
    ensures QueueInv(Leave(s, i).ops, s.queues) && Leave(s, i).queues == s.queues
  {
    var s1 := s.(ops := s.ops[i := s.ops[i].(phase := Done)]);
    MoveKeepsQueues(s, i, s.ops[i].(phase := Done), 0);
    if s.ops[i].gated && s.permits.waiters != [] {
      var w := s.permits.waiters[0];
      assert w in s.permits.waiters;
      hide QueueInv;
      MoveKeepsQueues(s1, w, s1.ops[w].(phase := Woken), 0);
    }
    hide QueueInv;
  }

  lemma StepKeeps(s: System, size: nat, e: Event)
    requires Inv(s, size)
    ensures Inv(Step(s, e), size)
  {
    hide QueueInv, PermitInv, Enqueue, Arrive, Leave;
    if Enabled(s, e) {
      match e
      case Arrives(manager, gated) =>
        ArriveKeepsQueues(s, manager, gated);
        ArriveKeepsPermits(s, size, manager, gated);
        ArriveKeepsOperations(s, manager, gated);
      case Continues(i) =>
        EnqueueKeeps(s, i);
        Enqueued(s, i);
        MoveKeepsPermits(s, Enqueue(s, i), size, i, s.ops[i].(phase := Queued));
      case Proceeds(i, k, aborted) =>
        MoveKeepsQueues(s, i, Proceed(s, i, aborted).ops[i], k);
        MoveKeepsPermits(s, Proceed(s, i, aborted), size, i, Proceed(s, i, aborted).ops[i]);
      case Finishes(i) =>
        MoveKeepsQueues(s, i, s.ops[i].(phase := Leaving), 0);
        MoveKeepsPermits(s, Step(s, e), size, i, s.ops[i].(phase := Leaving));
      case Leaves(i) =>
        LeaveKeepsPermits(s, size, i);
        LeaveKeepsQueues(s, size, i);
        LeaveKeepsOperations(s, size, i);
    }
  }

  lemma Enqueued(s: System, i: nat)
    requires i < |s.ops|
    ensures var s1 := Enqueue(s, i);
            s1.ops == s.ops[i := s.ops[i].(phase := Queued)] && s1.permits == s.permits && s1.granted == s.granted
  {
  }

  lemma ArriveKeepsOperations(s: System, manager: nat, gated: bool)
    requires forall i :: 0 <= i < |s.ops| ==> OperationInv(s.ops[i])
    ensures var s1 := Arrive(s, manager, gated); forall i :: 0 <= i < |s1.ops| ==> OperationInv(s1.ops[i])
  {
  }

  lemma LeaveKeepsOperations(s: System, size: nat, i: nat)
    requires PermitInv(s, size) && i < |s.ops| && s.ops[i].phase.Leaving?
    requires forall i :: 0 <= i < |s.ops| ==> OperationInv(s.ops[i])
    ensures var s1 := Leave(s, i); forall i :: 0 <= i < |s1.ops| ==> OperationInv(s1.ops[i])
  {
    if s.permits.waiters != [] { assert AtTheGate(s.ops, s.permits.waiters[0]); }
    hide Held;
  }

  lemma {:induction false} RunKeeps(size: int, events: seq<Event>)
    ensures Inv(Run(Start(size), events), Max(1, size))
    decreases |events|
  {
    if events == [] {
      assert Held([]) == 0;
    } else {
      RunKeeps(size, events[..|events| - 1]);
      StepKeeps(Run(Start(size), events[..|events| - 1]), Max(1, size), events[|events| - 1]);
      hide Inv;
    }
  }

  // ----- the theorems -----

  lemma {:induction false} HeldBounds(ops: seq<Operation>, ids: seq<nat>)
    requires Increasing(ids) && forall i <- ids :: i < |ops| && Holds(ops[i])
    ensures |ids| <= Held(ops)
    decreases |ops|
  {
    if ids != [] {
      var last := |ops| - 1;
      var k := ids[|ids| - 1];
      assert k in ids;
      var shorter := if k == last then ids[..|ids| - 1] else ids;
      forall i <- shorter ensures i < last {
        if k == last { var a :| 0 <= a < |shorter| && shorter[a] == i; assert ids[a] < ids[|ids| - 1]; }
        else { var a :| 0 <= a < |ids| && ids[a] == i; assert ids[a] <= k; }
      }
      assert forall i <- shorter :: i in ids;
      HeldBounds(ops[..last], shorter);
    }
  }

  /**
   * In every schedule: free and held permits add up to the size, callers wait only when none is free,
   * permits are granted in order of arrival, and no more than `size` gated operations hold one.
   */
  lemma PermitsConserved(size: int, events: seq<Event>, holders: seq<nat>)
    requires Increasing(holders)
    requires var s := Run(Start(size), events); forall i <- holders :: i < |s.ops| && Holds(s.ops[i])
    ensures var s := Run(Start(size), events);
            s.permits.available + Held(s.ops) == Max(1, size) &&
            (s.permits.waiters != [] ==> s.permits.available == 0) &&
            |holders| <= Max(1, size) && Increasing(s.granted) && Increasing(s.permits.waiters) &&
            (forall i <- s.granted, k <- s.permits.waiters :: i < k)
  {
    RunKeeps(size, events);
    HeldBounds(Run(Start(size), events).ops, holders);
    hide Run, Held;
  }

  /**
   * In every schedule: two operations of one manager never run at once, an operation runs only when
   * every earlier call in its queue is through, and one dropped by its signal while waiting never ran.
   */
  lemma TurnsExclusive(size: int, events: seq<Event>, m: nat, a: nat, b: nat)
    requires var s := Run(Start(size), events); m in s.queues && a < b < |s.queues[m]|
    ensures var s := Run(Start(size), events); var queue := s.queues[m];
            (forall i <- queue :: i < |s.ops| && s.ops[i].manager == m) && queue[a] < |s.ops| && queue[b] < |s.ops| &&
            (s.ops[queue[b]].phase.Running? ==> Through(s.ops[queue[a]].phase)) &&
            (s.ops[queue[a]].phase.Running? ==> s.ops[queue[b]].phase.Queued? && !s.ops[queue[b]].ran)
    ensures var s := Run(Start(size), events); forall i :: 0 <= i < |s.ops| && s.ops[i].dropped ==> !s.ops[i].ran
  {
    RunKeeps(size, events);
    hide Run, PermitInv;
  }

  /** A call runs exactly when its turn comes without its signal being set, and is dropped exactly when it is set. */
  lemma CallRunsIff(s: System, e: Event, i: nat)
    requires i < |s.ops|
    ensures var t := Step(s, e); var itsTurn := e.Proceeds? && e.i == i && CanProceed(s, i, e.k);
            |t.ops| >= |s.ops| && (t.ops[i].ran <==> s.ops[i].ran || (itsTurn && !e.aborted)) &&
            (t.ops[i].dropped <==> s.ops[i].dropped || (itsTurn && e.aborted)) &&
            (itsTurn ==> t.ops[i].phase == if e.aborted then Leaving else Running)
  {
  }

  // ----- deadlock freedom -----

  function Rank(p: Phase): nat {
    match p
    case AtGate => 5
    case Woken => 4
    case Queued => 3
    case Running => 2
    case Leaving => 1
    case Done => 0
  }

  function Measure(ops: seq<Operation>): nat {
    if ops == [] then 0 else Measure(ops[..|ops| - 1]) + Rank(ops[|ops| - 1].phase)
  }

  lemma {:induction false} MeasureUpdate(ops: seq<Operation>, i: nat, op: Operation)
    requires i < |ops|
    ensures Measure(ops[i := op]) == Measure(ops) - Rank(ops[i].phase) + Rank(op.phase)
    decreases |ops|
  {
    var ops1 := ops[i := op];
    if i == |ops| - 1 {
      assert ops1[..|ops| - 1] == ops[..|ops| - 1];
    } else {
      assert ops1[..|ops| - 1] == ops[..|ops| - 1][i := op];
      MeasureUpdate(ops[..|ops| - 1], i, op);
    }
  }

  /** Every step but an arrival brings the outstanding operations closer to their end. */
  lemma StepsDecrease(size: int, events: seq<Event>, e: Event)
    requires Enabled(Run(Start(size), events), e) && !e.Arrives?
    ensures var s := Run(Start(size), events); Measure(Step(s, e).ops) < Measure(s.ops)
  {
    RunKeeps(size, events);
    var s := Run(Start(size), events);
    hide Run, QueueInv;
    match e
    case Leaves(i) => LeaveDecreases(s, Max(1, size), i);
    case Continues(i) =>
      Enqueued(s, i);
      hide Enqueue, Measure, PermitInv;
      MeasureUpdate(s.ops, i, s.ops[i].(phase := Queued));
    case Proceeds(i, k, aborted) =>
      hide Measure, PermitInv;
      MeasureUpdate(s.ops, i, Proceed(s, i, aborted).ops[i]);
    case Finishes(i) =>
      hide Measure, PermitInv;
      MeasureUpdate(s.ops, i, s.ops[i].(phase := Leaving));
  }

  lemma LeaveDecreases(s: System, size: nat, i: nat)
    requires PermitInv(s, size) && i < |s.ops| && s.ops[i].phase.Leaving?
    ensures Measure(Leave(s, i).ops) < Measure(s.ops)
  {
    var ops1 := s.ops[i := s.ops[i].(phase := Done)];
    MeasureUpdate(s.ops, i, s.ops[i].(phase := Done));
    if s.ops[i].gated && s.permits.waiters != [] {
      var w := s.permits.waiters[0];
      assert w in s.permits.waiters;
      assert AtTheGate(s.ops, w);
      MeasureUpdate(ops1, w, ops1[w].(phase := Woken));
    }
    hide Measure, PermitInv;
  }

  /** The first call in a queue that is not through can go on. */
  lemma FirstCanGo(s: System, size: nat, i: nat) returns (e: Event)
    requires Inv(s, size) && i < |s.ops| && s.ops[i].phase.Queued?
    ensures Enabled(s, e) && !e.Arrives?
  {
    var m := s.ops[i].manager;
    assert i in Queue(s.queues, m);
    var queue := s.queues[m];
    var k :| 0 <= k < |queue| && queue[k] == i;
    var j := 0;
    while j < k && Through(s.ops[queue[j]].phase)
      invariant 0 <= j <= k && (j > 0 ==> Through(s.ops[queue[j - 1]].phase))
    {
      j := j + 1;
    }
    var first := queue[j];
    assert s.ops[first].manager == m;
    e := if s.ops[first].phase.Queued? then Proceeds(first, j, false) else Finishes(first);
  }

  /** Whatever the schedule so far, some step is possible while an operation is outstanding. */
  lemma NeverStuck(size: int, events: seq<Event>, i: nat) returns (e: Event)
    requires var s := Run(Start(size), events); i < |s.ops| && !s.ops[i].phase.Done?
    ensures Enabled(Run(Start(size), events), e) && !e.Arrives?
  {
    var s := Run(Start(size), events);
    RunKeeps(size, events);
    var k := i;
    if s.ops[i].phase.AtGate? {
      // Every permit is held, so there is a holder, and a holder is past the gate.
      assert i in s.permits.waiters;
      k := SomeHolder(s.ops);
    }
    match s.ops[k].phase
    case Woken => e := Continues(k);
    case Queued => e := FirstCanGo(s, Max(1, size), k);
    case Running => e := Finishes(k);
    case _ => e := Leaves(k);
  }
}
