/**
 * Stopping jobs (src/runtime/job-store.ts) as a step system: any number of stop, stopAll and pump
 * calls race on the same store. A step is a synchronous segment; every order of steps is a run.
 */
module JobStops {
  import opened Basics
  import opened TerminalObserver
  import opened JobOutput

  /** What pump() sees of a running job. */
  datatype Health = BundleGone | Disconnected | NotOwner | Healthy(events: seq<Entry>)

  /** A caller of stop(), once it holds the promise of id. */
  datatype Caller = Waiting(id: string) | Answered(id: string, verdict: JobState)

  datatype Store = Store(
    records: map<string, Job>,      // every record ever created: callers keep theirs after it left the list
    listed: set<string>,            // this.jobs
    inflight: set<string>,          // this.stopInflight
    probing: map<string, Option<string>>,  // stopInternal calls awaiting manager.stopJob, with their reason
    callers: seq<Caller>,
    asked: seq<string>,             // history: the jobs manager.stopJob was called for
    verified: set<string>)          // history: those it verified

  const EMPTY := Store(map[], {}, {}, map[], [], [], {})

  predicate Terminal(s: JobState) { s == STOPPED || s == LOST }

  /** finish(): a terminal record is left alone. */
  function FinishJob(j: Job, state: JobState, error: Option<string>, now: int): Job {
    if Terminal(j.state) then j else j.(state := state, stoppedAt := Some(now), error := error)
  }

  function Finish(s: Store, id: string, state: JobState, error: Option<string>, now: int): Store
    requires id in s.records
  {
    s.(records := s.records[id := FinishJob(s.records[id], state, error, now)])
  }

  const NOT_VERIFIED := "Ctrl+C sent but the remote shell could not be re-verified"

  /** stopInternal up to its await, and to its end when there is nothing to wait for. */
  function StopInternal(s: Store, id: string, reason: Option<string>, bundle: bool, now: int): Store
    requires id in s.records
  {
    var job := s.records[id];
    if !job.state.RUNNING? then Finish(s, id, STOPPED, reason, now)
    else if bundle then
      s.(records := s.records[id := job.(state := VERIFYING)], asked := s.asked + [id],
         probing := s.probing[id := reason])
    else Finish(s.(records := s.records[id := job.(state := STOPPING)]), id, LOST, Some(reason.GetOr(NOT_VERIFIED)),
                now)
  }

  /** stop() up to its await; scope: the caller's conversation, when it gave one. */
  function StopBegin(s: Store, id: string, reason: Option<string>, scope: Option<string>, bundle: bool,
      now: int): Store {
    if id !in s.listed || id !in s.records || (scope.Some? && s.records[id].session != scope.value) then s
    else if id in s.inflight then s.(callers := s.callers + [Waiting(id)])
    else
      var s1 := StopInternal(s, id, reason, bundle, now);
      s1.(inflight := s1.inflight + {id}, callers := s1.callers + [Waiting(id)])
  }

  /** manager.stopJob settled; a rejection counts as not verified, with its own message. */
  function StopResolved(s: Store, id: string, verified: bool, rejection: Option<string>, now: int): Store {
    if id !in s.probing || id !in s.records then s
    else
      var reason := s.probing[id];
      Finish(s.(probing := s.probing - {id}, verified := if verified then s.verified + {id} else s.verified),
             id, if verified then STOPPED else LOST,
             if verified then reason else Some(reason.GetOr(rejection.GetOr(NOT_VERIFIED))), now)
  }

  /** The creator of the promise goes on: its finally clause forgets the promise. */
  function StopSettled(s: Store, id: string): Store {
    if id in s.inflight && id !in s.probing then s.(inflight := s.inflight - {id}) else s
  }

  /** A caller receives the record its promise resolved to. */
  function Answer(s: Store, i: nat): Store {
    if i < |s.callers| && s.callers[i].Waiting? && s.callers[i].id in s.records && s.callers[i].id !in s.probing then
      s.(callers := s.callers[i := Answered(s.callers[i].id, s.records[s.callers[i].id].state)])
    else s
  }

  /** pump() on one job: a loss ends it, its output is harvested, and past its duration it is stopped like any other. */
  function PumpJob(s: Store, id: string, health: Health, bundle: bool, now: int): Store {
    if id !in s.listed || id !in s.records || !s.records[id].state.RUNNING? then s
    else match health
      case BundleGone => Finish(s, id, LOST, Some("session bundle is gone"), now)
      case Disconnected => Finish(s, id, LOST, Some("ssh connection lost"), now)
      case NotOwner => Finish(s, id, LOST, Some("the remote shell is no longer owned by this job"), now)
      case Healthy(events) =>
        var s1 := s.(records := s.records[id := Harvest(s.records[id], events)]);
        var overdue := now - s.records[id].startedAt >= s.records[id].maxDurationMs;
        if overdue then StopBegin(s1, id, Some("maxDuration reached"), None, bundle, now) else s1
  }

  const KEEP_FINISHED_MS := 10 * 60 * 1000

  predicate Stale(j: Job, now: int) {
    !j.state.RUNNING? && j.stoppedAt.Some? && now - j.stoppedAt.value > KEEP_FINISHED_MS
  }

  /** prune() on one job. */
  function PruneJob(s: Store, id: string, now: int): Store {
    if id in s.listed && id in s.records && Stale(s.records[id], now)
    then s.(listed := s.listed - {id}, inflight := s.inflight - {id}) else s
  }

  datatype Event =
    | Started(id: string, job: Job)
    | StopCalled(id: string, reason: Option<string>, scope: Option<string>, bundle: bool, now: int)
    | ManagerSettled(id: string, verified: bool, rejection: Option<string>, now: int)
    | PromiseForgotten(id: string)
    | CallerAnswered(i: nat)
    | Pumped(id: string, health: Health, bundle: bool, now: int)
    | Pruned(id: string, now: int)
    | Disposed

  /** The record of a job that has just started. */
  function Begun(job: Job): Job {
    job.(state := RUNNING, stoppedAt := None, error := None, bytes := 0, truncated := false, producedChars := 0,
         readCursor := 0, output := [])
  }

  function Step(s: Store, e: Event): Store {
    match e
    case Started(id, job) =>
      // Identifiers are random; a fresh one names no earlier job.
      if id in s.records then s
      else s.(records := s.records[id := Begun(job)], listed := s.listed + {id})
    case StopCalled(id, reason, scope, bundle, now) => StopBegin(s, id, reason, scope, bundle, now)
    case ManagerSettled(id, verified, rejection, now) => StopResolved(s, id, verified, rejection, now)
    case PromiseForgotten(id) => StopSettled(s, id)
    case CallerAnswered(i) => Answer(s, i)
    case Pumped(id, health, bundle, now) => PumpJob(s, id, health, bundle, now)
    case Pruned(id, now) => PruneJob(s, id, now)
    case Disposed => s.(listed := {}, inflight := {})
  }

  function Run(s: Store, events: seq<Event>): Store
    decreases |events|
  {
    if events == [] then s else Step(Run(s, events[..|events| - 1]), events[|events| - 1])
  }

  // ----- what every run keeps -----

  function Count(ids: seq<string>, id: string): nat {
    if ids == [] then 0 else (if ids[|ids| - 1] == id then 1 else 0) + Count(ids[..|ids| - 1], id)
  }

  ghost predicate RecordInv(s: Store, id: string)
    requires id in s.records
  {
    var state := s.records[id].state;
    (state != STOPPING) &&
    (state == VERIFYING <==> id in s.probing) &&
    (state == STOPPED <==> id in s.verified) &&
    (id in s.probing && id in s.listed ==> id in s.inflight) &&
    (state == VERIFYING ==> Count(s.asked, id) == 1) &&
    (state == RUNNING ==> s.records[id].stoppedAt.None? && Count(s.asked, id) == 0 && id !in s.inflight) &&
    Count(s.asked, id) <= 1 && (id in s.verified ==> Count(s.asked, id) == 1)
  }

  ghost predicate CallerInv(s: Store, c: Caller) {
    c.id in s.records && !s.records[c.id].state.RUNNING? &&
    (c.Answered? ==> Terminal(c.verdict) && s.records[c.id].state == c.verdict)
  }

  ghost predicate Inv(s: Store) {
    s.listed <= s.records.Keys && s.inflight <= s.listed && s.probing.Keys <= s.records.Keys &&
    (forall id <- s.asked :: id in s.records) && s.verified <= s.records.Keys &&
    (forall id <- s.records :: RecordInv(s, id)) &&
    (forall c <- s.callers :: CallerInv(s, c))
  }

  /** The outcome of a job is decided once. */
  ghost predicate Decided(s: Store, t: Store) {
    forall id <- s.records :: id in t.records &&
      (Terminal(s.records[id].state) ==>
         t.records[id].state == s.records[id].state && t.records[id].stoppedAt == s.records[id].stoppedAt)
  }

  lemma CountAppend(ids: seq<string>, id: string, other: string)
    ensures Count(ids + [other], id) == Count(ids, id) + if id == other then 1 else 0
  {
    assert (ids + [other])[..|ids|] == ids;
  }

  lemma {:induction false} CountAbsent(ids: seq<string>, id: string)
    requires id !in ids
    ensures Count(ids, id) == 0
  {
    if ids != [] { CountAbsent(ids[..|ids| - 1], id); }
  }

  /** t differs from s in what concerns job id only, and callers may have joined it. */
  ghost predicate Touches(s: Store, t: Store, id: string) {
    t.records.Keys == s.records.Keys && t.listed == s.listed &&
    (forall other <- s.records :: other != id ==>
       t.records[other] == s.records[other] && (other in t.inflight <==> other in s.inflight) &&
       (other in t.probing <==> other in s.probing) && (other in t.verified <==> other in s.verified)) &&
    t.inflight <= t.listed && t.probing.Keys <= t.records.Keys && t.verified <= t.records.Keys &&
    (t.asked == s.asked || t.asked == s.asked + [id]) &&
    (t.callers == s.callers || t.callers == s.callers + [Waiting(id)])
  }

  /** A job that is consistent after a step that touched nothing else leaves the whole store consistent. */
  lemma TouchKeeps(s: Store, t: Store, id: string)
    requires Inv(s) && id in s.records && Touches(s, t, id) && RecordInv(t, id)
    requires Terminal(s.records[id].state) ==>
               t.records[id].state == s.records[id].state && t.records[id].stoppedAt == s.records[id].stoppedAt
    requires (t.callers != s.callers || !s.records[id].state.RUNNING?) ==> !t.records[id].state.RUNNING?
    ensures Inv(t) && Decided(s, t)
  {
    forall other <- s.records | other != id ensures RecordInv(t, other) {
      CountAppend(s.asked, other, id);
      assert RecordInv(s, other);
      hide Count;
    }
    hide Count, RecordInv;
    forall c <- t.callers ensures CallerInv(t, c) {
      if c in s.callers { assert CallerInv(s, c); }
    }
  }

  lemma StopInternalIsSound(s: Store, id: string, reason: Option<string>, bundle: bool, now: int)
    requires Inv(s) && id in s.listed && id !in s.inflight
    ensures var s1 := StopInternal(s, id, reason, bundle, now);
            var t := s1.(inflight := s1.inflight + {id}, callers := s1.callers + [Waiting(id)]);
            Inv(t) && Decided(s, t)
  {
    var s1 := StopInternal(s, id, reason, bundle, now);
    var t := s1.(inflight := s1.inflight + {id}, callers := s1.callers + [Waiting(id)]);
    assert RecordInv(s, id);
    StoppedRecord(s, id, reason, bundle, now);
    StopTouches(s, id, reason, bundle, now);
    hide Inv, RecordInv, Touches, Decided, StopInternal;
    TouchKeeps(s, t, id);
  }

  lemma StopTouches(s: Store, id: string, reason: Option<string>, bundle: bool, now: int)
    requires Inv(s) && id in s.listed && id in s.records
    ensures var s1 := StopInternal(s, id, reason, bundle, now);
            var t := s1.(inflight := s1.inflight + {id}, callers := s1.callers + [Waiting(id)]);
            Touches(s, t, id) && !t.records[id].state.RUNNING? &&
            (Terminal(s.records[id].state) ==>
               t.records[id].state == s.records[id].state && t.records[id].stoppedAt == s.records[id].stoppedAt)
  {
    hide RecordInv, CallerInv, Count;
  }

  lemma StoppedRecord(s: Store, id: string, reason: Option<string>, bundle: bool, now: int)
    requires Inv(s) && id in s.listed && id !in s.inflight && id in s.records && RecordInv(s, id)
    ensures var s1 := StopInternal(s, id, reason, bundle, now);
            RecordInv(s1.(inflight := s1.inflight + {id}, callers := s1.callers + [Waiting(id)]), id)
  {
    CountAppend(s.asked, id, id);
    hide Count, Inv;
  }

  lemma StopBeginKeeps(s: Store, id: string, reason: Option<string>, scope: Option<string>, bundle: bool, now: int)
    requires Inv(s)
    ensures var t := StopBegin(s, id, reason, scope, bundle, now); Inv(t) && Decided(s, t)
  {
    hide Count, StopInternal;
    if id in s.listed && id in s.records && !(scope.Some? && s.records[id].session != scope.value) {
      assert RecordInv(s, id);
      if id in s.inflight {
        TouchKeeps(s, s.(callers := s.callers + [Waiting(id)]), id);
      } else {
        StopInternalIsSound(s, id, reason, bundle, now);
      }
    }
  }

  /** Replacing one running record by a running or lost one. */
  lemma RecordChanges(s: Store, id: string, job: Job)
    requires Inv(s) && id in s.records && s.records[id].state.RUNNING?
    requires job.state == LOST || (job.state == RUNNING && job.stoppedAt.None?)
    ensures var t := s.(records := s.records[id := job]); Inv(t) && Decided(s, t)
  {
    assert RecordInv(s, id);
    hide Count, Decided;
    TouchKeeps(s, s.(records := s.records[id := job]), id);
  }

  lemma HarvestKeeps(s: Store, id: string, events: seq<Entry>)
    requires Inv(s)
    ensures id in s.records && s.records[id].state.RUNNING? ==>
              Inv(s.(records := s.records[id := Harvest(s.records[id], events)]))
  {
    hide Harvest, Inv;
    if id in s.records && s.records[id].state.RUNNING? {
      assert s.records[id].stoppedAt.None? by { StartedRunning(s, id); }
      HarvestState(s.records[id], events);
      RecordChanges(s, id, Harvest(s.records[id], events));
    }
  }

  lemma StartedRunning(s: Store, id: string)
    requires Inv(s) && id in s.records && s.records[id].state.RUNNING?
    ensures s.records[id].stoppedAt.None?
  {
    assert RecordInv(s, id);
  }

  lemma PumpKeeps(s: Store, id: string, health: Health, bundle: bool, now: int)
    requires Inv(s)
    ensures var t := PumpJob(s, id, health, bundle, now); Inv(t) && Decided(s, t)
  {
    if id in s.listed && id in s.records && s.records[id].state.RUNNING? {
      var job := s.records[id];
      assert job.stoppedAt.None? by { assert RecordInv(s, id); }
      hide StopBegin, Harvest, Inv;
      if health.Healthy? {
        var harvested := Harvest(job, health.events);
        HarvestState(job, health.events);
        RecordChanges(s, id, harvested);
        StopBeginKeeps(s.(records := s.records[id := harvested]), id, Some("maxDuration reached"), None, bundle, now);
      } else {
        RecordChanges(s, id,
                      job.(state := LOST, stoppedAt := Some(now),
                           error := PumpJob(s, id, health, bundle, now).records[id].error));
      }
    }
  }

  lemma HarvestState(j: Job, events: seq<Entry>)
    ensures var k := Harvest(j, events);
            k.state == j.state && k.stoppedAt == j.stoppedAt && k.session == j.session && k.startedAt == j.startedAt &&
            k.maxDurationMs == j.maxDurationMs
  {
  }

  lemma ResolvedKeeps(s: Store, id: string, verified: bool, rejection: Option<string>, now: int)
    requires Inv(s)
    ensures var t := StopResolved(s, id, verified, rejection, now); Inv(t) && Decided(s, t)
  {
    if id in s.probing && id in s.records {
      assert RecordInv(s, id);
      hide Count;
      TouchKeeps(s, StopResolved(s, id, verified, rejection, now), id);
    }
  }

  lemma StartedKeeps(s: Store, id: string, job: Job)
    requires Inv(s)
    ensures Inv(Step(s, Started(id, job))) && Decided(s, Step(s, Started(id, job)))
  {
    var t := Step(s, Started(id, job));
    if id !in s.records {
      CountAbsent(s.asked, id);
      hide Count;
      forall other <- t.records ensures RecordInv(t, other) {
        if other != id { assert RecordInv(s, other); }
      }
      hide RecordInv;
      forall c <- t.callers ensures CallerInv(t, c) { assert CallerInv(s, c); }
    }
  }

  /** Leaving the list, forgetting a settled promise and answering callers touch no record. */
  lemma BookkeepingKeeps(s: Store, e: Event)
    requires Inv(s) && (e.PromiseForgotten? || e.CallerAnswered? || e.Pruned? || e.Disposed?)
    ensures Inv(Step(s, e)) && Decided(s, Step(s, e))
  {
    hide Count;
    var t := Step(s, e);
    forall id <- t.records ensures RecordInv(t, id) { assert RecordInv(s, id); }
    forall c <- t.callers ensures CallerInv(t, c) {
      if c in s.callers { assert CallerInv(s, c); }
      else {
        var w := s.callers[e.i];
        assert CallerInv(s, w) && RecordInv(s, w.id);
      }
    }
  }

  lemma StepKeeps(s: Store, e: Event)
    requires Inv(s)
    ensures Inv(Step(s, e)) && Decided(s, Step(s, e))
  {
    hide Inv, Decided, StopBegin, PumpJob, StopResolved;
    match e
    case StopCalled(id, reason, scope, bundle, now) => StopBeginKeeps(s, id, reason, scope, bundle, now);
    case Pumped(id, health, bundle, now) => PumpKeeps(s, id, health, bundle, now);
    case ManagerSettled(id, verified, rejection, now) => ResolvedKeeps(s, id, verified, rejection, now);
    case Started(id, job) => StartedKeeps(s, id, job);
    case _ => BookkeepingKeeps(s, e);
  }

  lemma {:induction false} RunKeeps(s: Store, events: seq<Event>)
    requires Inv(s)
    ensures Inv(Run(s, events)) && Decided(s, Run(s, events))
    decreases |events|
  {
    if events != [] {
      RunKeeps(s, events[..|events| - 1]);
      StepKeeps(Run(s, events[..|events| - 1]), events[|events| - 1]);
      hide Inv;
    }
  }

  // ----- the theorems -----

  /**
   * However stop, stopAll, pump, prune and dispose interleave: manager.stopJob is called at most once
   * for a job, exactly the verified ones are STOPPED, and a job is between states only while one stop is in flight.
   */
  lemma OneProbePerJob(events: seq<Event>)
    ensures var s := Run(EMPTY, events);
            forall id <- s.records ::
              Count(s.asked, id) <= 1 &&
              (s.records[id].state == STOPPED <==> id in s.verified) &&
              (id in s.listed && (s.records[id].state == STOPPING || s.records[id].state == VERIFYING) ==>
                 id in s.inflight && id in s.probing)
  {
    RunKeeps(EMPTY, events);
    hide Run, Count;
    var s := Run(EMPTY, events);
    forall id <- s.records ensures RecordInv(s, id) {}
  }

  /** Every caller of stop for a job is told the same, final outcome, and later steps do not change it. */
  lemma CallersAgree(before: seq<Event>, after: seq<Event>, i: nat, k: nat)
    requires i < |Run(EMPTY, before).callers| && k < |Run(Run(EMPTY, before), after).callers|
    requires var a := Run(EMPTY, before).callers[i]; var b := Run(Run(EMPTY, before), after).callers[k];
             a.Answered? && b.Answered? && a.id == b.id
    ensures Run(EMPTY, before).callers[i] == Run(Run(EMPTY, before), after).callers[k]
  {
    var s := Run(EMPTY, before);
    var t := Run(s, after);
    RunKeeps(EMPTY, before);
    RunKeeps(s, after);
    hide Run, Count, RecordInv;
    assert CallerInv(s, s.callers[i]) && CallerInv(t, t.callers[k]);
  }
}
