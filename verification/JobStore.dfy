/** The job store in its own form (src/runtime/job-store.ts), proved against the step system of JobStops. */
module JobStore {
  import opened Basics
  import opened TerminalObserver
  import opened JobOutput
  import opened JobStops

  /** The loop of pump() over the jobs of the list. */
  function PumpAll(s: Store, ids: seq<string>, health: string -> Health, bundle: string -> bool, now: int): Store
    decreases |ids|
  {
    if ids == [] then s
    else PumpJob(PumpAll(s, ids[..|ids| - 1], health, bundle, now), ids[|ids| - 1], health(ids[|ids| - 1]),
                 bundle(ids[|ids| - 1]), now)
  }

  /** The loop of prune(). */
  function PruneAll(s: Store, ids: seq<string>, now: int): Store
    decreases |ids|
  {
    if ids == [] then s else PruneJob(PruneAll(s, ids[..|ids| - 1], now), ids[|ids| - 1], now)
  }

  /** A whole pump is a run of the step system, so all its invariants and theorems apply. */
  lemma {:induction false} PumpAllIsSound(s: Store, ids: seq<string>, health: string -> Health,
      bundle: string -> bool, now: int)
    requires Inv(s)
    ensures var t := PumpAll(s, ids, health, bundle, now); Inv(t) && Decided(s, t)
    decreases |ids|
  {
    if ids != [] {
      var before := PumpAll(s, ids[..|ids| - 1], health, bundle, now);
      PumpAllIsSound(s, ids[..|ids| - 1], health, bundle, now);
      StepKeeps(before, Pumped(ids[|ids| - 1], health(ids[|ids| - 1]), bundle(ids[|ids| - 1]), now));
      hide Inv;
    }
  }

  lemma {:induction false} PruneAllIsSound(s: Store, ids: seq<string>, now: int)
    requires Inv(s)
    ensures var t := PruneAll(s, ids, now); Inv(t) && Decided(s, t) && t.records == s.records
    decreases |ids|
  {
    if ids == [] {
      assert Decided(s, s);
    } else {
      var before := PruneAll(s, ids[..|ids| - 1], now);
      PruneAllIsSound(s, ids[..|ids| - 1], now);
      PruneIsSound(before, ids[|ids| - 1], now);
      DecidedTwice(s, before, PruneJob(before, ids[|ids| - 1], now));
      hide Inv, PruneJob, Decided;
    }
  }

  lemma PruneIsSound(s: Store, id: string, now: int)
    requires Inv(s)
    ensures var t := PruneJob(s, id, now); Inv(t) && Decided(s, t) && t.records == s.records
  {
    StepKeeps(s, Pruned(id, now));
    hide Inv, Decided;
  }

  lemma NotYetAsked(s: Store, id: string)
    requires Inv(s)
    ensures id in s.records && s.records[id].state == RUNNING ==> Count(s.asked, id) == 0
  {
    if id in s.records { assert RecordInv(s, id); }
  }

  lemma DecidedTwice(a: Store, b: Store, c: Store)
    requires Decided(a, b) && Decided(b, c)
    ensures Decided(a, c)
  {
  }

  class JobStore {
    var records: map<string, Job>   // the record objects
    var listed: set<string>         // the keys of this.jobs
    var stopInflight: set<string>
    ghost var probing: map<string, Option<string>>
    ghost var callers: seq<Caller>
    ghost var asked: seq<string>
    ghost var verifiedJobs: set<string>

    ghost function View(): Store
      reads this
    {
      Store(records, listed, stopInflight, probing, callers, asked, verifiedJobs)
    }

    ghost predicate Valid()
      reads this
    {
      Inv(View())
    }

    constructor ()
      ensures Valid() && View() == EMPTY
    {
      records, listed, stopInflight := map[], {}, {};
      probing, callers, asked, verifiedJobs := map[], [], [], {};
    }

    method FinishRecord(id: string, state: JobState, error: Option<string>, now: int)
      requires id in records
      modifies this`records
      ensures View() == Finish(old(View()), id, state, error, now)
    {
      var job := records[id];
      if job.state == STOPPED || job.state == LOST {
        assert records[id := job] == records;
        return;
      }
      records := records[id := job.(state := state, stoppedAt := Some(now), error := error)];
    }

    /** start(), once manager.startJob resolved with the record's first event number. */
    method Start(id: string, job: Job)
      requires Valid() && id !in records
      modifies this`records, this`listed
      ensures Valid() && View() == Step(old(View()), Started(id, job))
    {
      StepKeeps(View(), Started(id, job));
      records := records[id := Begun(job)];
      listed := listed + {id};
    }

    /** stopInternal() up to its await; `asks`: manager.stopJob was called. */
    method BeginStopInternal(id: string, reason: Option<string>, bundle: bool, now: int) returns (asks: bool)
      requires id in records
      modifies this`records, this`probing, this`asked
      ensures View() == StopInternal(old(View()), id, reason, bundle, now)
      ensures asks <==> old(records)[id].state == RUNNING && bundle
    {
      asks := false;
      if records[id].state == RUNNING {
        records := records[id := records[id].(state := STOPPING)];
        if bundle {
          records := records[id := records[id].(state := VERIFYING)];
          asked, probing := asked + [id], probing[id := reason];
          asks := true;
          return;
        }
        FinishRecord(id, LOST, Some(reason.GetOr(NOT_VERIFIED)), now);
        return;
      }
      FinishRecord(id, STOPPED, reason, now);
    }

    /** stop() up to its await; `known`: the job exists and belongs to the caller's conversation. */
    method Stop(id: string, reason: Option<string>, scope: Option<string>, bundle: bool, now: int)
        returns (known: bool, asks: bool)
      requires Valid()
      modifies this
      ensures Valid() && Decided(old(View()), View())
      ensures View() == StopBegin(old(View()), id, reason, scope, bundle, now)
      ensures known <==> id in old(listed) && (scope.None? || old(records)[id].session == scope.value)
      ensures asks ==> Count(old(asked), id) == 0 && asked == old(asked) + [id]
      ensures !asks ==> asked == old(asked)
    {
      StopBeginKeeps(View(), id, reason, scope, bundle, now);
      NotYetAsked(View(), id);
      hide Inv, Decided, Count;
      if id !in listed || id !in records || (scope.Some? && records[id].session != scope.value) {
        return false, false;
      }
      known := true;
      if id in stopInflight {
        asks := false;
      } else {
        asks := BeginStopInternal(id, reason, bundle, now);
        stopInflight := stopInflight + {id};
      }
      callers := callers + [Waiting(id)];
    }

    /** stopInternal(), called with `reason`, after manager.stopJob settled. */
    method StopJobSettled(id: string, reason: Option<string>, verified: bool, rejection: Option<string>, now: int)
      requires Valid() && id in probing && probing[id] == reason
      modifies this`records, this`probing, this`verifiedJobs
      ensures Valid() && Decided(old(View()), View())
      ensures View() == StopResolved(old(View()), id, verified, rejection, now)
    {
      StepKeeps(View(), ManagerSettled(id, verified, rejection, now));
      assert id in records;
      hide Inv, Decided;
      probing := probing - {id};
      if !verified {
        FinishRecord(id, LOST, Some(reason.GetOr(rejection.GetOr(NOT_VERIFIED))), now);
        return;
      }
      verifiedJobs := verifiedJobs + {id};
      FinishRecord(id, STOPPED, reason, now);
    }

    /** The body of pump()'s loop. */
    method PumpOne(id: string, health: Health, bundle: bool, now: int)
      requires Valid()
      modifies this
      ensures Valid() && Decided(old(View()), View())
      ensures View() == PumpJob(old(View()), id, health, bundle, now)
    {
      hide Inv, Decided, StopBegin, Harvest;
      PumpKeeps(View(), id, health, bundle, now);
      if health.Healthy? { HarvestKeeps(View(), id, health.events); }
      if id !in listed || id !in records || records[id].state != RUNNING {
        return;
      }
      match health {
        case BundleGone => FinishRecord(id, LOST, Some("session bundle is gone"), now);
        case Disconnected => FinishRecord(id, LOST, Some("ssh connection lost"), now);
        case NotOwner => FinishRecord(id, LOST, Some("the remote shell is no longer owned by this job"), now);
        case Healthy(events) =>
          HarvestState(records[id], events);
          var job := HarvestLoop(records[id], events);
          records := records[id := job];
          if now - job.startedAt >= job.maxDurationMs {
            var known, asks := Stop(id, Some("maxDuration reached"), None, bundle, now);
          }
      }
    }

    /** pump(): every listed job in order, then the prune. */
    method Pump(ids: seq<string>, health: string -> Health, bundle: string -> bool, now: int)
      requires Valid()
      modifies this
      ensures Valid() && Decided(old(View()), View())
      ensures View() == PruneAll(PumpAll(old(View()), ids, health, bundle, now), ids, now)
    {
      ghost var before := View();
      hide Inv, Decided, PumpJob, PruneJob;
      PumpAllIsSound(before, ids, health, bundle, now);
      var i := 0;
      while i < |ids|
        invariant 0 <= i <= |ids| && Valid() && View() == PumpAll(before, ids[..i], health, bundle, now)
      {
        assert ids[..i + 1][..i] == ids[..i];
        PumpOne(ids[i], health(ids[i]), bundle(ids[i]), now);
        i := i + 1;
      }
      assert ids[..|ids|] == ids;
      ghost var pumped := View();
      PruneAllIsSound(pumped, ids, now);
      i := 0;
      while i < |ids|
        invariant 0 <= i <= |ids| && Valid() && View() == PruneAll(pumped, ids[..i], now)
      {
        assert ids[..i + 1][..i] == ids[..i];
        PruneOne(ids[i], now);
        i := i + 1;
      }
      DecidedTwice(before, pumped, View());
    }

    method PruneOne(id: string, now: int)
      requires Valid()
      modifies this`listed, this`stopInflight
      ensures Valid() && View() == PruneJob(old(View()), id, now)
    {
      PruneIsSound(View(), id, now);
      hide Inv, Decided;
      if id in listed && id in records && Stale(records[id], now) {
        listed, stopInflight := listed - {id}, stopInflight - {id};
      }
    }

    /** read() after its pump: the window, and the cursor moved past it. */
    method ReadOutput(id: string, scope: Option<string>, since: Option<int>, full: bool, maxChars: Option<int>)
        returns (v: Option<ReadView>)
      requires forall j <- records.Values :: |j.output| <= j.producedChars
      modifies this`records
      ensures v.Some? <==>
                id in listed && id in old(records) && (scope.None? || old(records)[id].session == scope.value)
      ensures v.None? ==> records == old(records)
      ensures v.Some? ==>
                id in records && (records[id], v.value) == ReadJob(old(records)[id], since, full, maxChars) &&
                records == old(records)[id := records[id]]
    {
      if id !in listed || id !in records || (scope.Some? && records[id].session != scope.value) {
        return None;
      }
      var job, view := Read(records[id], since, full, maxChars);
      records := records[id := job];
      return Some(view);
    }
  }
}
