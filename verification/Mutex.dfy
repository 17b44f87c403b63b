/** The serial queue of one session (src/jumpserver/mutex.ts): a chain of gates, each waiting for the one before. */
module Mutex {

  /** The promise a queued call resolves when it is through. */
  class Gate {
    var open: bool

    constructor (open: bool)
      ensures this.open == open
    {
      this.open := open;
    }
  }

  class SessionMutex {
    var tail: Gate
    ghost var chain: seq<Gate>    // every gate ever made, the resolved one of the constructor first
    ghost var running: set<nat>   // the calls whose function is in progress, by position in the chain

    /** Gates open front to back, and a call in progress stands right behind the open ones. */
    ghost predicate Valid()
      reads this, chain
    {
      chain != [] && tail == chain[|chain| - 1] && chain[0].open &&
      (forall i, k :: 0 <= i < k < |chain| ==> chain[i] != chain[k]) &&
      (forall k :: 0 < k < |chain| && chain[k].open ==> chain[k - 1].open) &&
      (forall k <- running :: 0 < k < |chain| && chain[k - 1].open && !chain[k].open)
    }

    constructor ()
      ensures Valid() && |chain| == 1 && fresh(chain[0]) && running == {}
    {
      var resolved := new Gate(true);
      tail, chain, running := resolved, [resolved], {};
    }

    /** run() up to its await: the new gate goes behind the current tail. */
    method Enqueue() returns (gate: Gate, prev: Gate)
      requires Valid()
      modifies this`tail, this`chain
      ensures Valid()
      ensures fresh(gate) && !gate.open && tail == gate && prev == old(tail)
      ensures chain == old(chain) + [gate]
    {
      gate := new Gate(false);
      prev := tail;
      tail := gate;
      chain := chain + [gate];
    }

    /** run() behind its await, for the call at position k: run the function, or drop the call if it was aborted. */
    method Proceed(ghost k: nat, gate: Gate, prev: Gate, aborted: bool) returns (runs: bool)
      requires Valid() && 0 < k < |chain| && chain[k] == gate && chain[k - 1] == prev
      requires prev.open && !gate.open
      modifies this`running, gate
      ensures Valid() && runs == !aborted && gate.open == aborted
      ensures running == if runs then old(running) + {k} else old(running) - {k}
    {
      OpenPrefix();
      if aborted {
        gate.open := true;
        running := running - {k};
        return false;
      }
      running := running + {k};
      return true;
    }

    /** The finally clause of run(). */
    method Release(ghost k: nat, gate: Gate)
      requires Valid() && k in running && chain[k] == gate
      modifies this`running, gate
      ensures Valid() && gate.open && running == old(running) - {k}
    {
      AtMostOneRuns();
      gate.open := true;
      running := running - {k};
    }

    /** Everything before an open gate is open. */
    lemma OpenPrefix()
      requires Valid()
      ensures forall i, k :: 0 <= i <= k < |chain| && chain[k].open ==> chain[i].open
    {
      forall i, k | 0 <= i <= k < |chain| && chain[k].open ensures chain[i].open {
        var j := k;
        while j > i
          invariant i <= j <= k && chain[j].open
        {
          j := j - 1;
        }
      }
    }

    /** Mutual exclusion, and first come first served: the call in progress has everything before it behind it. */
    lemma AtMostOneRuns()
      requires Valid()
      ensures forall a, b :: a in running && b in running ==> a == b
      ensures forall a, i :: a in running && 0 <= i < a ==> chain[i].open
    {
      OpenPrefix();
      forall a, i | a in running && 0 <= i < a ensures chain[i].open { assert chain[a - 1].open; }
    }
  }
}
