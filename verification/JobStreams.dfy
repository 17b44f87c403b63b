/**
 * What of a job's output ever reaches its record (src/runtime/job-store.ts): pump() harvests running jobs only, so
 * the stream ends with the last harvest before the job stops running, whatever is recorded behind that.
 */
module JobStreams {
  import opened Basics
  import opened TerminalObserver
  import opened JobOutput
  import opened JobStops

  /** This step harvests job id. */
  predicate Harvests(s: Store, e: Event, id: string) {
    e.Pumped? && e.id == id && e.health.Healthy? && id in s.listed && id in s.records && s.records[id].state.RUNNING?
  }

  /** Everything that was harvested for job id in a run. */
  function Streamed(events: seq<Event>, id: string): string
    decreases |events|
  {
    if events == [] then []
    else
      var before, e := events[..|events| - 1], events[|events| - 1];
      Streamed(before, id) + if Harvests(Run(EMPTY, before), e, id) then Text(e.health.events) else []
  }

  /** The part of a record that only a harvest changes. */
  predicate SameStream(j: Job, k: Job) {
    k.output == j.output && k.bytes == j.bytes && k.producedChars == j.producedChars && k.truncated == j.truncated &&
    k.lastSeq == j.lastSeq
  }

  // ----- one step -----

  /** Stopping touches no output, and what does not run does not run again. */
  lemma StopIsSilent(s: Store, other: string, reason: Option<string>, scope: Option<string>, bundle: bool, now: int,
      id: string)
    requires id in s.records
    ensures var t := StopBegin(s, other, reason, scope, bundle, now);
            id in t.records && SameStream(s.records[id], t.records[id]) &&
            (!s.records[id].state.RUNNING? ==> !t.records[id].state.RUNNING?)
  {
    hide StopInternal;
    if other in s.records { StopInternalIsSilent(s, other, reason, bundle, now, id); }
  }

  lemma StopInternalIsSilent(s: Store, other: string, reason: Option<string>, bundle: bool, now: int, id: string)
    requires id in s.records && other in s.records
    ensures var t := StopInternal(s, other, reason, bundle, now);
            id in t.records && SameStream(s.records[id], t.records[id]) &&
            (!s.records[id].state.RUNNING? ==> !t.records[id].state.RUNNING?)
  {
  }

  lemma HarvestedThenStopped(s: Store, id: string, events: seq<Entry>, bundle: bool, now: int)
    requires id in s.records && id in s.listed && s.records[id].state.RUNNING?
    ensures var t := PumpJob(s, id, Healthy(events), bundle, now);
            id in t.records && SameStream(Harvest(s.records[id], events), t.records[id])
  {
    var s1 := s.(records := s.records[id := Harvest(s.records[id], events)]);
    hide Harvest, StopBegin;
    StopIsSilent(s1, id, Some("maxDuration reached"), None, bundle, now, id);
  }

  lemma PumpElsewhere(s: Store, other: string, health: Health, bundle: bool, now: int, id: string)
    requires id in s.records && !Harvests(s, Pumped(other, health, bundle, now), id)
    ensures var t := PumpJob(s, other, health, bundle, now);
            id in t.records && SameStream(s.records[id], t.records[id]) &&
            (!s.records[id].state.RUNNING? ==> !t.records[id].state.RUNNING?)
  {
    hide Harvest, StopBegin;
    if other in s.listed && other in s.records && s.records[other].state.RUNNING? && health.Healthy? {
      var s1 := s.(records := s.records[other := Harvest(s.records[other], health.events)]);
      StopIsSilent(s1, other, Some("maxDuration reached"), None, bundle, now, id);
    }
  }

  /** Only a harvest changes what a known job has produced, and only a running job is harvested. */
  lemma StepStream(s: Store, e: Event, id: string)
    requires id in s.records
    ensures var t := Step(s, e);
            id in t.records && (!s.records[id].state.RUNNING? ==> !t.records[id].state.RUNNING?) &&
            var j := if Harvests(s, e, id) then Harvest(s.records[id], e.health.events) else s.records[id];
            SameStream(j, t.records[id])
  {
    hide Harvest, StopBegin, PumpJob;
    match e
    case StopCalled(other, reason, scope, bundle, now) => StopIsSilent(s, other, reason, scope, bundle, now, id);
    case Pumped(other, health, bundle, now) =>
      if Harvests(s, e, id) { HarvestedThenStopped(s, id, health.events, bundle, now); }
      else { PumpElsewhere(s, other, health, bundle, now, id); }
    case _ =>
  }

  lemma StreamOf(j: Job, k: Job, stream: string)
    requires SameStream(j, k) && Holds(j, stream)
    ensures Holds(k, stream)
  {
  }

  /** A job nobody has started has produced nothing, and a new record holds nothing. */
  lemma NewcomerStream(s: Store, e: Event, id: string)
    requires id !in s.records
    ensures id in Step(s, e).records ==> Holds(Step(s, e).records[id], [])
  {
  }

  // ----- whole runs -----

  /** In every run: the record of a job is the tail of exactly what was harvested for it. */
  lemma {:induction false} RecordIsStream(events: seq<Event>, id: string)
    ensures var s := Run(EMPTY, events);
            if id in s.records then Holds(s.records[id], Streamed(events, id)) else Streamed(events, id) == []
    decreases |events|
  {
    if events != [] {
      var before, e := events[..|events| - 1], events[|events| - 1];
      var s := Run(EMPTY, before);
      RecordIsStream(before, id);
      hide Step, Holds, Text, Harvest;
      if id in s.records {
        StepStream(s, e, id);
        var stream := Streamed(before, id);
        if Harvests(s, e, id) {
          HarvestExtends(s.records[id], stream, e.health.events);
          StreamOf(Harvest(s.records[id], e.health.events), Step(s, e).records[id], stream + Text(e.health.events));
        } else {
          StreamOf(s.records[id], Step(s, e).records[id], stream);
        }
      } else {
        NewcomerStream(s, e, id);
      }
    }
  }

  lemma OneMore(events: seq<Event>, e: Event, id: string)
    ensures Run(EMPTY, events + [e]) == Step(Run(EMPTY, events), e)
    ensures Streamed(events + [e], id) ==
            Streamed(events, id) + if Harvests(Run(EMPTY, events), e, id) then Text(e.health.events) else []
  {
    assert (events + [e])[..|events|] == events;
    hide Step;
  }

  /** Once a job has stopped running, for whatever reason, nothing is ever added to its stream again. */
  lemma {:induction false} StreamEndsWithRunning(before: seq<Event>, after: seq<Event>, id: string)
    requires var s := Run(EMPTY, before); id in s.records && !s.records[id].state.RUNNING?
    ensures var s := Run(EMPTY, before); var t := Run(EMPTY, before + after);
            Streamed(before + after, id) == Streamed(before, id) &&
            id in t.records && !t.records[id].state.RUNNING? && SameStream(s.records[id], t.records[id])
    decreases |after|
  {
    if after == [] {
      assert before + after == before;
    } else {
      var front, e := after[..|after| - 1], after[|after| - 1];
      assert (before + front) + [e] == before + after;
      StreamEndsWithRunning(before, front, id);
      StepStream(Run(EMPTY, before + front), e, id);
      hide Run, Streamed, Step, Text, Harvest;
      OneMore(before + front, e, id);
    }
  }

  // ----- against the log of everything recorded -----

  /** Every harvest of the job hands it what the log holds behind the last number it has seen, up to some point. */
  ghost predicate Tails(events: seq<Event>, id: string, log: seq<Entry>) {
    forall n :: 0 <= n < |events| ==> StretchOf(Run(EMPTY, events[..n]), events[n], id, log)
  }

  ghost predicate StretchOf(s: Store, e: Event, id: string, log: seq<Entry>) {
    Harvests(s, e, id) ==>
      exists m :: s.records[id].lastSeq <= m <= |log| && e.health.events == log[s.records[id].lastSeq..m]
  }

  lemma TailsBefore(events: seq<Event>, id: string, log: seq<Entry>)
    requires Tails(events, id, log) && events != []
    ensures Tails(events[..|events| - 1], id, log)
    ensures StretchOf(Run(EMPTY, events[..|events| - 1]), events[|events| - 1], id, log)
  {
    var before := events[..|events| - 1];
    hide StretchOf, Run;
    forall n | 0 <= n < |before| ensures StretchOf(Run(EMPTY, before[..n]), before[n], id, log) {
      assert before[..n] == events[..n] && before[n] == events[n];
    }
  }

  /** One stretch of the log, harvested. */
  lemma StretchExtends(j: Job, log: seq<Entry>, from: nat, m: nat)
    requires Numbered(log, |log|) && from <= j.lastSeq <= m <= |log| && Holds(j, Text(log[from..j.lastSeq]))
    ensures var k := Harvest(j, log[j.lastSeq..m]); k.lastSeq == m && Holds(k, Text(log[from..m]))
  {
    var stretch := log[j.lastSeq..m];
    HarvestExtends(j, Text(log[from..j.lastSeq]), stretch);
    TextAppend(log[from..j.lastSeq], stretch);
    assert log[from..j.lastSeq] + stretch == log[from..m];
    LastNumberIsCursor(stretch, m, j.lastSeq);
    hide Text;
  }

  /**
   * In every run of a job whose harvests miss nothing, its stream is at all times exactly the output recorded
   * between its start and its last harvest: all of it while it runs, and never what is recorded between the last
   * harvest and its end.
   */
  lemma {:induction false} StreamIsLogSoFar(id: string, job: Job, events: seq<Event>, log: seq<Entry>)
    requires Numbered(log, |log|) && job.lastSeq <= |log| && Tails([Started(id, job)] + events, id, log)
    ensures var s := Run(EMPTY, [Started(id, job)] + events);
            id in s.records && job.lastSeq <= s.records[id].lastSeq <= |log| &&
            Holds(s.records[id], Text(log[job.lastSeq..s.records[id].lastSeq]))
    decreases |events|
  {
    var all := [Started(id, job)] + events;
    if events == [] {
      FirstStep(id, job);
      assert all == [Started(id, job)] && log[job.lastSeq..job.lastSeq] == [];
    } else {
      var front, e := events[..|events| - 1], events[|events| - 1];
      assert all[..|all| - 1] == [Started(id, job)] + front && all[|all| - 1] == e;
      TailsBefore(all, id, log);
      StreamIsLogSoFar(id, job, front, log);
      var s := Run(EMPTY, all[..|all| - 1]);
      StepStream(s, e, id);
      hide Step, Holds, Text, Harvest;
      var j := s.records[id];
      if Harvests(s, e, id) {
        var m :| j.lastSeq <= m <= |log| && e.health.events == log[j.lastSeq..m];
        StretchExtends(j, log, job.lastSeq, m);
        StreamOf(Harvest(j, e.health.events), Step(s, e).records[id], Text(log[job.lastSeq..m]));
      } else {
        StreamOf(j, Step(s, e).records[id], Text(log[job.lastSeq..j.lastSeq]));
      }
    }
  }

  lemma FirstStep(id: string, job: Job)
    ensures var s := Run(EMPTY, [Started(id, job)]);
            id in s.records && s.records[id] == Begun(job) && Holds(s.records[id], []) &&
              Begun(job).lastSeq == job.lastSeq
  {
    assert [Started(id, job)][..0] == [];
  }

  /** The lost tail: a job stopped and verified before the next pump never shows what it printed in between. */
  lemma TailIsLost(id: string, job: Job, tail: seq<Entry>)
    ensures var s := Run(EMPTY,
                         [Started(id, job), StopCalled(id, None, None, true, 1), ManagerSettled(id, true, None, 2),
                                 Pumped(id, Healthy(tail), true, 3)]);
            id in s.records && s.records[id].state == STOPPED && s.records[id].output == []
  {
    var first, stop := Started(id, job), StopCalled(id, None, None, true, 1);
    var settled, late := ManagerSettled(id, true, None, 2), Pumped(id, Healthy(tail), true, 3);
    FirstStep(id, job);
    assert Run(EMPTY, [first]) == Step(EMPTY, first) by { assert [first][..0] == []; }
    assert [first, stop] == [first] + [stop] && [first, stop, settled] == [first, stop] + [settled];
    assert [first, stop, settled, late] == [first, stop, settled] + [late];
    StopsRunning(Run(EMPTY, [first]), id, job);
    hide Run, Step;
    OneMore([first], stop, id);
    OneMore([first, stop], settled, id);
    OneMore([first, stop, settled], late, id);
    LatePump(Run(EMPTY, [first, stop, settled]), id, tail);
  }

  lemma LatePump(s: Store, id: string, tail: seq<Entry>)
    requires id in s.records && !s.records[id].state.RUNNING?
    ensures Step(s, Pumped(id, Healthy(tail), true, 3)) == s
  {
  }

  lemma StopsRunning(s: Store, id: string, job: Job)
    requires s == Step(EMPTY, Started(id, job))
    ensures var t := Step(Step(s, StopCalled(id, None, None, true, 1)), ManagerSettled(id, true, None, 2));
            id in t.records && t.records[id].state == STOPPED && t.records[id].output == []
  {
  }
}
