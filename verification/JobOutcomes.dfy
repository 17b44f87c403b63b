/**
 * When a job changes its state and why (src/runtime/job-store.ts): every change with its exact condition on the
 * step, the reason that is recorded, and who is asked. Said of any consistent store, so of every run (JobStops).
 */
module JobOutcomes {
  import opened Basics
  import opened TerminalObserver
  import opened JobOutput
  import opened JobStops

  /** The record of a listed job that is running. */
  predicate RunningJob(s: Store, id: string) { id in s.listed && id in s.records && s.records[id].state == RUNNING }

  /** The caller names a job that belongs to its conversation. */
  predicate Stops(s: Store, e: Event, id: string)
    requires RunningJob(s, id)
  {
    e.StopCalled? && e.id == id && (e.scope.None? || e.scope == Some(s.records[id].session))
  }

  /** The job has run for as long as it may, and its shell is still its own. */
  predicate Overdue(s: Store, e: Event, id: string)
    requires RunningJob(s, id)
  {
    e.Pumped? && e.id == id && e.health.Healthy? && e.now >= s.records[id].startedAt + s.records[id].maxDurationMs
  }

  /** The shell of the job is gone. */
  predicate LosesShell(e: Event, id: string) { e.Pumped? && e.id == id && !e.health.Healthy? }

  predicate Ends(s: Store, e: Event, id: string)
    requires RunningJob(s, id)
  {
    Stops(s, e, id) || Overdue(s, e, id)
  }

  function BundleOf(e: Event): bool
    requires e.StopCalled? || e.Pumped?
  {
    if e.StopCalled? then e.bundle else e.bundle
  }

  /** Why the job was asked to end. */
  function ReasonOf(e: Event): Option<string>
    requires e.StopCalled? || e.Pumped?
  {
    if e.StopCalled? then e.reason else Some("maxDuration reached")
  }

  function LossOf(h: Health): string
    requires !h.Healthy?
  {
    match h
    case BundleGone => "session bundle is gone"
    case Disconnected => "ssh connection lost"
    case NotOwner => "the remote shell is no longer owned by this job"
  }

  /** The state of a running job behind a step. */
  function RunningGoes(s: Store, e: Event, id: string): JobState
    requires RunningJob(s, id)
  {
    if LosesShell(e, id) then LOST
    else if Ends(s, e, id) then if BundleOf(e) then VERIFYING else LOST
    else RUNNING
  }

  /** A job that left RUNNING: since when it is lost, and why. */
  predicate LostFor(j: Job, reason: string, now: int) {
    j.state == LOST && j.stoppedAt == Some(now) && j.error == Some(reason)
  }

  /**
   * A running job stays one unless its shell is gone, somebody of its conversation stops it, or its time is up. Then
   * the manager is asked, exactly once and with that reason; or the job is lost at once, with the reason on record.
   */
  lemma RunningJobGoes(s: Store, e: Event, id: string)
    requires Inv(s) && RunningJob(s, id)
    ensures var t := Step(s, e);
            id in t.records && t.records[id].state == RunningGoes(s, e, id) &&
            (t.asked == s.asked + [id] <==> Ends(s, e, id) && BundleOf(e)) &&
            (Ends(s, e, id) && BundleOf(e) ==> t.probing == s.probing[id := ReasonOf(e)]) &&
            (Ends(s, e, id) && !BundleOf(e) ==>
               LostFor(t.records[id], ReasonOf(e).GetOr(NOT_VERIFIED), e.now)) &&
            (LosesShell(e, id) ==> LostFor(t.records[id], LossOf(e.health), e.now))
  {
    assert RecordInv(s, id);
    hide Inv, RecordInv, Harvest, StopBegin, PumpJob;
    OneMoreAsked(s.asked, id);
    match e
    case StopCalled(other, reason, scope, bundle, now) =>
      if other == id { RunningIsStopped(s, id, reason, scope, bundle, now); }
      else { StopElsewhere(s, other, reason, scope, bundle, now, id); }
    case Pumped(other, health, bundle, now) =>
      if other == id { RunningIsPumped(s, id, health, bundle, now); }
      else { PumpElsewhere(s, other, health, bundle, now, id); }
    case ManagerSettled(other, verified, rejection, now) => assert other in s.probing ==> other != id;
    case _ =>
  }

  lemma OneMoreAsked(asked: seq<string>, id: string)
    ensures asked != asked + [id] && forall other :: asked + [other] == asked + [id] <==> other == id
  {
    forall other ensures asked + [other] == asked + [id] <==> other == id {
      assert (asked + [other])[|asked|] == other && (asked + [id])[|asked|] == id;
    }
  }

  /** Stopping a running job of one's own conversation, or trying to stop one of another's. */
  lemma RunningIsStopped(s: Store, id: string, reason: Option<string>, scope: Option<string>, bundle: bool, now: int)
    requires RunningJob(s, id) && id !in s.inflight
    ensures var t := StopBegin(s, id, reason, scope, bundle, now);
            if scope.Some? && scope.value != s.records[id].session then t == s
            else if bundle
            then id in t.records && t.records[id].state == VERIFYING && t.asked == s.asked + [id] &&
                 t.probing == s.probing[id := reason]
            else id in t.records && LostFor(t.records[id], reason.GetOr(NOT_VERIFIED), now) && t.asked == s.asked
  {
  }

  lemma RunningIsPumped(s: Store, id: string, health: Health, bundle: bool, now: int)
    requires RunningJob(s, id) && id !in s.inflight
    ensures var t := PumpJob(s, id, health, bundle, now); var reason := "maxDuration reached";
            id in t.records &&
            if !health.Healthy? then LostFor(t.records[id], LossOf(health), now) && t.asked == s.asked
            else if now < s.records[id].startedAt + s.records[id].maxDurationMs
            then t.records[id].state == RUNNING && t.asked == s.asked
            else if bundle
            then t.records[id].state == VERIFYING && t.asked == s.asked + [id] &&
                 t.probing == s.probing[id := Some(reason)]
            else LostFor(t.records[id], reason, now) && t.asked == s.asked
  {
    hide Harvest, StopBegin;
    if health.Healthy? {
      HarvestState(s.records[id], health.events);
      RunningIsStopped(s.(records := s.records[id := Harvest(s.records[id], health.events)]), id,
                       Some("maxDuration reached"), None, bundle, now);
    }
  }

  lemma StopElsewhere(s: Store, other: string, reason: Option<string>, scope: Option<string>, bundle: bool, now: int,
      id: string)
    requires id in s.records && other != id
    ensures var t := StopBegin(s, other, reason, scope, bundle, now);
            id in t.records && t.records[id] == s.records[id] && (t.asked == s.asked || t.asked == s.asked + [other])
  {
  }

  lemma PumpElsewhere(s: Store, other: string, health: Health, bundle: bool, now: int, id: string)
    requires id in s.records && other != id
    ensures var t := PumpJob(s, other, health, bundle, now);
            id in t.records && t.records[id] == s.records[id] && (t.asked == s.asked || t.asked == s.asked + [other])
  {
    hide Harvest, StopBegin;
    if other in s.records && health.Healthy? {
      StopElsewhere(s.(records := s.records[other := Harvest(s.records[other], health.events)]), other,
                    Some("maxDuration reached"), None, bundle, now, id);
    }
  }

  /** What a job that is being verified becomes: what the manager says, and nothing else changes it. */
  lemma VerifyingJobGoes(s: Store, e: Event, id: string)
    requires Inv(s) && id in s.records && s.records[id].state == VERIFYING
    ensures var t := Step(s, e); var settles := e.ManagerSettled? && e.id == id;
            id in t.records && id in s.probing && t.asked != s.asked + [id] &&
            if !settles then t.records[id] == s.records[id]
            else if e.verified
            then t.records[id] == s.records[id].(state := STOPPED, stoppedAt := Some(e.now), error := s.probing[id])
            else LostFor(t.records[id], s.probing[id].GetOr(e.rejection.GetOr(NOT_VERIFIED)), e.now)
  {
    NotAskedTwice(s, id);
    OneMoreAsked(s.asked, id);
    hide Inv, Harvest, StopBegin, PumpJob;
    match e
    case StopCalled(other, reason, scope, bundle, now) =>
      if other == id { VerifyingIsStopped(s, id, reason, scope, bundle, now); }
      else { StopElsewhere(s, other, reason, scope, bundle, now, id); }
    case Pumped(other, health, bundle, now) =>
      if other == id { VerifyingIsPumped(s, id, health, bundle, now); }
      else { PumpElsewhere(s, other, health, bundle, now, id); }
    case _ =>
  }

  lemma NotAskedTwice(s: Store, id: string)
    requires Inv(s) && id in s.records && s.records[id].state == VERIFYING
    ensures id in s.probing && (id in s.listed ==> id in s.inflight)
  {
    assert RecordInv(s, id);
  }

  lemma VerifyingIsStopped(s: Store, id: string, reason: Option<string>, scope: Option<string>, bundle: bool, now: int)
    requires id in s.records && (id in s.listed ==> id in s.inflight)
    ensures var t := StopBegin(s, id, reason, scope, bundle, now); t.records == s.records && t.asked == s.asked
  {
  }

  lemma VerifyingIsPumped(s: Store, id: string, health: Health, bundle: bool, now: int)
    requires id in s.records && s.records[id].state == VERIFYING
    ensures PumpJob(s, id, health, bundle, now) == s
  {
    hide Harvest, StopBegin;
  }

  /** A job leaves the list exactly when the store is disposed, or when it has been finished for ten minutes. */
  lemma ListedIff(s: Store, e: Event, id: string)
    requires id in s.records
    ensures id in Step(s, e).listed <==>
            id in s.listed && !e.Disposed? &&
            !(e.Pruned? && e.id == id && !s.records[id].state.RUNNING? && s.records[id].stoppedAt.Some? &&
              e.now > s.records[id].stoppedAt.value + 600000)
  {
    hide Harvest, StopInternal;
    if e.StopCalled? && e.id in s.records { StopLists(s, e.id, e.reason, e.bundle, e.now); }
    if e.Pumped? && e.id in s.records && e.health.Healthy? {
      StopLists(s.(records := s.records[e.id := Harvest(s.records[e.id], e.health.events)]), e.id,
                Some("maxDuration reached"), e.bundle, e.now);
    }
  }

  lemma StopLists(s: Store, id: string, reason: Option<string>, bundle: bool, now: int)
    requires id in s.records
    ensures StopInternal(s, id, reason, bundle, now).listed == s.listed
  {
  }

  /** Whoever stops a job of its own conversation holds its promise from then on, and nobody else does. */
  lemma CallerJoins(s: Store, e: Event)
    requires e.StopCalled?
    ensures var t := Step(s, e);
            var known := e.id in s.listed && e.id in s.records &&
                         (e.scope.None? || e.scope == Some(s.records[e.id].session));
            if known then t.callers == s.callers + [Waiting(e.id)] && t.inflight == s.inflight + {e.id} else t == s
  {
    hide StopInternal;
    if e.id in s.records { StopKeepsCallers(s, e.id, e.reason, e.bundle, e.now); }
  }

  lemma StopKeepsCallers(s: Store, id: string, reason: Option<string>, bundle: bool, now: int)
    requires id in s.records
    ensures var t := StopInternal(s, id, reason, bundle, now); t.callers == s.callers && t.inflight == s.inflight
  {
  }

  /** A caller is told the state of the job once the manager has answered for it, and not before. */
  lemma CallerIsTold(s: Store, i: nat)
    requires Inv(s) && i < |s.callers| && s.callers[i].Waiting?
    ensures var id := s.callers[i].id;
            id in s.records &&
            Step(s, CallerAnswered(i)) ==
            if s.records[id].state == VERIFYING then s
            else s.(callers := s.callers[i := Answered(id, s.records[id].state)])
  {
    assert CallerInv(s, s.callers[i]);
    assert RecordInv(s, s.callers[i].id);
    hide Inv;
  }

  /** The promise of a stop is forgotten once the manager has answered, and not before. */
  lemma PromiseIsForgotten(s: Store, id: string)
    requires Inv(s) && id in s.records
    ensures Step(s, PromiseForgotten(id)) ==
            if s.records[id].state == VERIFYING then s else s.(inflight := s.inflight - {id})
  {
    assert RecordInv(s, id);
    assert id !in s.inflight ==> s.inflight - {id} == s.inflight;
    hide Inv;
  }

  /** A job starts running with nothing on its record; a known identifier starts nothing. */
  lemma JobStarts(s: Store, id: string, job: Job)
    ensures var t := Step(s, Started(id, job));
            if id in s.records then t == s
            else id in t.listed && t == s.(records := t.records, listed := s.listed + {id}) &&
                 t.records == s.records[id := Job(job.session, RUNNING, job.startedAt, None, job.maxDurationMs, None,
                                                  0, false, job.lastSeq, 0, 0, [])]
  {
  }
}
