/**
 * The output of one streaming job (src/runtime/job-store.ts): pump() appends what the terminal ring
 * recorded, a bounded buffer keeps the tail, and read() hands out windows by absolute cursor.
 */
module JobOutput {
  import opened Basics
  import opened TerminalObserver

  datatype JobState = RUNNING | STOPPING | VERIFYING | STOPPED | LOST

  const MAX_JOB_OUTPUT := 256 * 1024
  const DEFAULT_READ_CHARS: nat := 8000

  /** A job record. */
  datatype Job = Job(
    session: string,
    state: JobState,
    startedAt: int,
    stoppedAt: Option<int>,
    maxDurationMs: int,
    error: Option<string>,
    bytes: nat,
    truncated: bool,
    lastSeq: nat,
    producedChars: nat,
    readCursor: int,
    output: string)

  // ----- harvesting -----

  /** The terminal output among some events. */
  function Text(events: seq<Entry>): string {
    if events == [] then []
    else
      var last := events[|events| - 1].content;
      Text(events[..|events| - 1]) + if last.Output? then last.data else []
  }

  function LastNumber(events: seq<Entry>, from: nat): nat {
    if events == [] then from else Max(LastNumber(events[..|events| - 1], from), events[|events| - 1].number)
  }

  function Capped(s: string): string { LastN(s, MAX_JOB_OUTPUT) }

  /** What pump() does to a running job with the events it was handed. */
  function Harvest(j: Job, events: seq<Entry>): Job {
    var text := Text(events);
    j.(lastSeq := LastNumber(events, j.lastSeq), output := Capped(j.output + text), bytes := j.bytes + |text|,
       producedChars := j.producedChars + |text|, truncated := j.truncated || |j.output| + |text| > MAX_JOB_OUTPUT)
  }

  /** The harvest loop of pump(). */
  method HarvestLoop(job: Job, events: seq<Entry>) returns (j: Job)
    ensures j == Harvest(job, events)
  {
    j := job;
    var i := 0;
    while i < |events|
      invariant 0 <= i <= |events|
      invariant j == job.(lastSeq := LastNumber(events[..i], job.lastSeq), output := job.output + Text(events[..i]),
                          bytes := job.bytes + |Text(events[..i])|,
                            producedChars := job.producedChars + |Text(events[..i])|)
    {
      var event := events[i];
      assert events[..i + 1][..i] == events[..i];
      if event.number > j.lastSeq { j := j.(lastSeq := event.number); }
      if event.content.Output? {
        var data := event.content.data;
        assert job.output + Text(events[..i]) + data == job.output + (Text(events[..i]) + data);
        j := j.(output := j.output + data, bytes := j.bytes + |data|, producedChars := j.producedChars + |data|);
      }
      i := i + 1;
    }
    assert events[..|events|] == events;
    if |j.output| > MAX_JOB_OUTPUT {
      j := j.(output := j.output[|j.output| - MAX_JOB_OUTPUT..], truncated := true);
    }
  }

  /** The buffer against the whole stream the job has produced. */
  predicate Holds(j: Job, stream: string) {
    j.producedChars == |stream| && j.bytes == |stream| && j.output == Capped(stream) &&
    (j.truncated <==> |stream| > MAX_JOB_OUTPUT)
  }

  /** Every harvest extends the stream by exactly the output handed in, and the buffer stays its tail. */
  lemma HarvestExtends(j: Job, stream: string, events: seq<Entry>)
    requires Holds(j, stream)
    ensures Holds(Harvest(j, events), stream + Text(events))
  {
    LastNAppend(stream, Text(events), MAX_JOB_OUTPUT);
    hide LastN;
    assert |j.output| == Min(MAX_JOB_OUTPUT, |stream|);
  }

  lemma {:induction false} LastNumberIsCursor(events: seq<Entry>, cursor: nat, from: nat)
    requires Numbered(events, cursor) && from <= cursor
    requires |events| == cursor - from
    ensures LastNumber(events, from) == cursor
  {
    if events != [] {
      LastNumberIsCursor(events[..|events| - 1], cursor - 1, from);
    }
  }

  lemma {:induction false} TextAppend(a: seq<Entry>, b: seq<Entry>)
    ensures Text(a + b) == Text(a) + Text(b)
    decreases |b|
  {
    if b == [] {
      assert a + b == a;
    } else {
      assert (a + b)[..|a + b| - 1] == a + b[..|b| - 1];
      TextAppend(a, b[..|b| - 1]);
    }
  }

  /** Of the unread events, those the ring no longer holds. */
  function Lost(unread: seq<Entry>, kept: nat): seq<Entry> { unread[..Max(0, |unread| - kept)] }

  /**
   * Exactly-once delivery from the ring to the job, whatever happened since its last harvest: of everything ever
   * recorded behind the last number the job has seen, in order, it takes exactly what the ring still holds, and
   * never anything twice. Its stream is extended by all of the recorded output if and only if none of the events
   * evicted unread carried any.
   */
  lemma ExactlyOnce(j: Job, stream: string, all: seq<Entry>, kept: seq<Entry>)
    requires Holds(j, stream) && Numbered(all, |all|) && j.lastSeq <= |all|
    requires |kept| <= |all| && kept == all[|all| - |kept|..]
    ensures var unread := all[j.lastSeq..]; var seen := Filter(kept, (e: Entry) => e.number > j.lastSeq);
            var j1 := Harvest(j, seen);
            unread == Lost(unread, |kept|) + seen && Holds(j1, stream + Text(seen)) &&
            j1.lastSeq == (if seen == [] then j.lastSeq else |all|) &&
            (Holds(j1, stream + Text(unread)) <==> Text(Lost(unread, |kept|)) == [])
  {
    var unread, seen := all[j.lastSeq..], Filter(kept, (e: Entry) => e.number > j.lastSeq);
    SeenIsSuffix(all, kept, j.lastSeq);
    HarvestExtends(j, stream, seen);
    TextAppend(Lost(unread, |kept|), seen);
    if seen != [] { LastSeen(seen, |all|, j.lastSeq); }
    hide Text, Filter, Numbered;
    assert Text(Lost(unread, |kept|)) == [] ==> Text(unread) == Text(seen);
  }

  /** What is selected by number is the back of what was recorded since. */
  lemma SeenIsSuffix(all: seq<Entry>, kept: seq<Entry>, since: nat)
    requires Numbered(all, |all|) && since <= |all| && |kept| <= |all| && kept == all[|all| - |kept|..]
    ensures var unread := all[since..]; var seen := Filter(kept, (e: Entry) => e.number > since);
            unread == Lost(unread, |kept|) + seen && Numbered(seen, |all|)
  {
    hide Numbered, Filter, LastN;
    BackIsNumbered(all, |all| - |kept|);
    FilterIsSuffix(kept, |all|, since);
    BackOfBack(all, kept, since);
    BackIsNumbered(all, Max(since, |all| - |kept|));
  }

  lemma BackOfBack(all: seq<Entry>, kept: seq<Entry>, since: nat)
    requires since <= |all| && |kept| <= |all| && kept == all[|all| - |kept|..]
    ensures var back := all[Max(since, |all| - |kept|)..];
            LastN(kept, |all| - since) == back && all[since..] == Lost(all[since..], |kept|) + back
  {
    var start := |all| - |kept|;
    if since >= start {
      DropOfDrop(all, start, since - start);
    } else {
      var unread := all[since..];
      DropOfDrop(all, since, start - since);
      assert unread == unread[..start - since] + unread[start - since..];
    }
  }

  lemma BackIsNumbered(all: seq<Entry>, from: nat)
    requires Numbered(all, |all|) && from <= |all|
    ensures Numbered(all[from..], |all|)
  {
  }

  lemma LastSeen(seen: seq<Entry>, cursor: nat, from: nat)
    requires seen != [] && Numbered(seen, cursor) && from <= cursor
    ensures LastNumber(seen, from) == cursor
  {
    var front := seen[..|seen| - 1];
    assert seen[|seen| - 1].number == cursor;
    NumbersBelow(front, cursor - 1, from);
  }

  lemma {:induction false} NumbersBelow(events: seq<Entry>, cursor: nat, from: nat)
    requires Numbered(events, cursor)
    ensures LastNumber(events, from) <= Max(cursor, from)
  {
    if events != [] { NumbersBelow(events[..|events| - 1], cursor - 1, from); }
  }

  /** It happens: an unread event leaves a ring of one, and its output never reaches the job. */
  lemma EvictedOutputIsLost()
    ensures var all := [Entry(1, Output("a")), Entry(2, Output("b"))]; var kept := all[1..];
            var seen := Filter(kept, (e: Entry) => e.number > NEW_JOB.lastSeq);
            seen == kept && !Holds(Harvest(NEW_JOB, seen), Text(all))
  {
    var all := [Entry(1, Output("a")), Entry(2, Output("b"))];
    var kept := all[1..];
    assert kept == [all[1]] && all[0..] == all && all[..1] == [all[0]] && all[0..1] == [all[0]];
    assert Text([all[0]]) == "a" by { assert [all[0]][..0] == []; }
    SeenIsSuffix(all, kept, 0);
    ExactlyOnce(NEW_JOB, [], all, kept);
    assert Lost(all, 1) == [all[0]];
    hide Text, Filter, Harvest;
    assert [] + Text(all) == Text(all);
  }

  // ----- reading -----

  datatype Mode = Cursor | Full

  datatype ReadView = ReadView(output: string, nextSeq: int, droppedChars: int, partial: bool, mode: Mode)

  /**
   * What a read by cursor hands out of the stream: at most as much as was asked for (one character at least, 8000 when
   * nothing is said), from the cursor on or from where the buffer begins, and nothing behind the end. The job's own
   * cursor follows an implicit read and is never moved back by an explicit one.
   */
  ghost predicate HandsOut(job: Job, stream: string, since: Option<int>, maxChars: Option<int>, j: Job, v: ReadView) {
    var limit := Max(1, maxChars.GetOr(8000));
    var requested := since.GetOr(job.readCursor);
    var start := Max(0, |stream| - MAX_JOB_OUTPUT);
    var from := Max(requested, start);
    (if from <= |stream| then v.output == stream[from..Min(from + limit, |stream|)] else v.output == []) &&
    v.nextSeq == from + |v.output| &&
    v.droppedChars == Max(0, start - requested) && (v.partial <==> v.nextSeq < |stream|) && v.mode == Cursor &&
    j == job.(readCursor := if since.None? then v.nextSeq else Max(job.readCursor, v.nextSeq))
  }

  /** What a full read hands out: everything that is still buffered, and the cursor moves behind it. */
  ghost predicate HandsOutAll(job: Job, stream: string, j: Job, v: ReadView) {
    var start := Max(0, |stream| - MAX_JOB_OUTPUT);
    v == ReadView(stream[start..], |stream|, start, false, Full) && j == job.(readCursor := |stream|)
  }

  /** read(): `since` is the explicit cursor; without one the job's own cursor is used. */
  method Read(job: Job, since: Option<int>, full: bool, maxChars: Option<int>) returns (j: Job, v: ReadView)
    requires |job.output| <= job.producedChars
    ensures (j, v) == ReadJob(job, since, full, maxChars)
    ensures forall stream | Holds(job, stream) ::
              if full then HandsOutAll(job, stream, j, v) else HandsOut(job, stream, since, maxChars, j, v)
  {
    forall stream | Holds(job, stream)
      ensures var (j, v) := ReadJob(job, since, full, maxChars);
              if full then HandsOutAll(job, stream, j, v) else HandsOut(job, stream, since, maxChars, j, v)
    {
      if full { FullReadIsTail(job, stream, maxChars, since); } else { ReadIsExact(job, stream, since, maxChars); }
    }
    hide Holds, HandsOut, HandsOutAll;
    j := job;
    var limit := Max(1, maxChars.GetOr(DEFAULT_READ_CHARS));
    var outputStart := j.producedChars - |j.output|;
    if full {
      j := j.(readCursor := j.producedChars);
      v := ReadView(j.output, j.producedChars, outputStart, false, Full);
      return;
    }
    var requested := if since.None? then j.readCursor else since.value;
    var begin := Max(requested, outputStart);
    var droppedChars := Max(0, outputStart - requested);
    var offset := Min(Max(0, begin - outputStart), |j.output|);
    var chunk := Slice(j.output, offset, limit);
    var nextSeq := begin + |chunk|;
    if since.None? {
      j := j.(readCursor := nextSeq);
    } else if nextSeq > j.readCursor {
      j := j.(readCursor := nextSeq);
    }
    v := ReadView(chunk, nextSeq, droppedChars, nextSeq < j.producedChars, Cursor);
  }

  function Window(job: Job, requested: int, limit: nat): string
    requires |job.output| <= job.producedChars
  {
    Slice(job.output, Min(Max(0, requested - (job.producedChars - |job.output|)), |job.output|), limit)
  }

  function ReadJob(job: Job, since: Option<int>, full: bool, maxChars: Option<int>): (Job, ReadView)
    requires |job.output| <= job.producedChars
  {
    var start := job.producedChars - |job.output|;
    if full then
      (job.(readCursor := job.producedChars), ReadView(job.output, job.producedChars, start, false, Full))
    else
      var requested := since.GetOr(job.readCursor);
      var chunk := Window(job, requested, Max(1, maxChars.GetOr(DEFAULT_READ_CHARS)));
      var next := Max(requested, start) + |chunk|;
      (job.(readCursor := if since.None? then next else Max(job.readCursor, next)),
       ReadView(chunk, next, Max(0, start - requested), next < job.producedChars, Cursor))
  }

  lemma SliceOfTail(s: string, start: nat, offset: nat, count: nat)
    requires start + offset <= |s| && count >= 1
    ensures var r := Slice(s[start..], offset, count); var from := start + offset;
            |r| == Min(count, |s| - from) && r == s[from..from + |r|]
  {
    var tail, from := s[start..], start + offset;
    if offset + count <= |tail| {
      assert tail[offset..offset + count] == s[from..from + count];
    } else if offset < |tail| {
      assert tail[offset..] == s[from..from + |tail| - offset];
    }
  }

  /** Every read by cursor, implicit or explicit, hands out exactly its stretch of the stream. */
  lemma ReadIsExact(j: Job, stream: string, since: Option<int>, maxChars: Option<int>)
    requires Holds(j, stream)
    ensures var (j1, v) := ReadJob(j, since, false, maxChars); HandsOut(j, stream, since, maxChars, j1, v)
  {
    var requested, limit := since.GetOr(j.readCursor), Max(1, maxChars.GetOr(8000));
    var start := Max(0, |stream| - MAX_JOB_OUTPUT);
    assert j.producedChars == |stream| && |stream| - |j.output| == start;
    hide Window, Holds, LastN;
    WindowIs(j, stream, requested, limit);
  }

  lemma WindowIs(j: Job, stream: string, requested: int, limit: nat)
    requires Holds(j, stream) && limit >= 1
    ensures var from := Max(requested, Max(0, |stream| - MAX_JOB_OUTPUT));
            Window(j, requested, limit) == if from <= |stream| then stream[from..Min(from + limit, |stream|)] else []
  {
    var start := |stream| - |j.output|;
    assert start == Max(0, |stream| - MAX_JOB_OUTPUT) && j.output == stream[start..];
    hide Holds, LastN;
    var from := Max(requested, start);
    if from <= |stream| {
      hide Slice;
      SliceOfTail(stream, start, from - start, limit);
    }
  }

  /**
   * What a read means on the stream: the window is the next stretch of the stream after the cursor
   * and the characters the buffer no longer has, and it is empty only at the end.
   */
  lemma ReadIsWindow(j: Job, stream: string, maxChars: Option<int>)
    requires Holds(j, stream) && 0 <= j.readCursor <= |stream|
    ensures var (j1, v) := ReadJob(j, None, false, maxChars); var from := j.readCursor + v.droppedChars;
            0 <= j.readCursor <= from <= j1.readCursor == v.nextSeq <= |stream| &&
            v.output == stream[from..j1.readCursor] && Holds(j1, stream) &&
            (v.droppedChars > 0 ==> |stream| - MAX_JOB_OUTPUT == from) &&
            (v.partial <==> j1.readCursor < |stream|) &&
            (v.output == [] ==> j1.readCursor == |stream|)
  {
    hide ReadJob;
    ReadIsExact(j, stream, None, maxChars);
  }

  /** A full read hands out everything still buffered and moves the cursor past it. */
  lemma FullReadIsTail(j: Job, stream: string, maxChars: Option<int>, since: Option<int>)
    requires Holds(j, stream)
    ensures var (j1, v) := ReadJob(j, since, true, maxChars); HandsOutAll(j, stream, j1, v) && Holds(j1, stream)
  {
    assert Capped(stream) == stream[Max(0, |stream| - MAX_JOB_OUTPUT)..];
  }

  /** An explicit cursor keeps the job's own cursor inside the stream exactly when it lies inside itself. */
  lemma ExplicitCursorStaysInsideIff(j: Job, stream: string, requested: int, maxChars: Option<int>)
    requires Holds(j, stream) && 0 <= j.readCursor <= |stream|
    ensures var (j1, v) := ReadJob(j, Some(requested), false, maxChars);
            Holds(j1, stream) && j.readCursor <= j1.readCursor && (j1.readCursor <= |stream| <==> requested <= |stream|)
  {
  }

  // ----- any interleaving of harvests and implicit reads -----

  datatype Action = Produce(events: seq<Entry>) | ReadNext(maxChars: Option<int>)

  /** One implicit read: where its window lies in the stream, and what it handed out. */
  datatype Delivery = Delivery(skipped: nat, from: nat, output: string)

  datatype Reader = Reader(job: Job, stream: string, deliveries: seq<Delivery>)

  function Act(r: Reader, a: Action): Reader
    requires |r.job.output| <= r.job.producedChars
  {
    match a
    case Produce(events) => r.(job := Harvest(r.job, events), stream := r.stream + Text(events))
    case ReadNext(maxChars) =>
      var (j1, v) := ReadJob(r.job, None, false, maxChars);
      Handed(r, j1, v.droppedChars, v.output)
  }

  /** A read that moved the job's cursor, dropped some characters and handed out the rest. */
  function Handed(r: Reader, j1: Job, dropped: int, output: string): Reader {
    r.(job := j1, deliveries := r.deliveries + [Delivery(Max(0, dropped), Max(0, r.job.readCursor + dropped), output)])
  }

  function Delivered(ds: seq<Delivery>): nat {
    if ds == [] then 0 else Delivered(ds[..|ds| - 1]) + ds[|ds| - 1].skipped + |ds[|ds| - 1].output|
  }

  /** Where delivery i ends. */
  function EndOf(d: Delivery): nat { d.from + |d.output| }

  ghost predicate Sound(r: Reader) {
    Holds(r.job, r.stream) && 0 <= r.job.readCursor <= |r.stream| &&
    r.job.readCursor == Delivered(r.deliveries) && Windows(r.deliveries, r.stream, r.job.readCursor)
  }

  /** Disjoint stretches of the stream, in order, none behind the cursor. */
  ghost predicate Windows(ds: seq<Delivery>, stream: string, cursor: int) {
    cursor <= |stream| && (forall d <- ds :: EndOf(d) <= cursor && d.output == stream[d.from..EndOf(d)]) &&
    (forall i, k :: 0 <= i < k < |ds| ==> EndOf(ds[i]) <= ds[k].from)
  }

  lemma WindowsGrow(ds: seq<Delivery>, d: Delivery, stream: string, cursor: int)
    requires Windows(ds, stream, cursor) && cursor <= d.from && EndOf(d) <= |stream|
    requires d.output == stream[d.from..EndOf(d)]
    ensures Windows(ds + [d], stream, EndOf(d))
  {
    var all := ds + [d];
    forall i, k | 0 <= i < k < |all| ensures EndOf(all[i]) <= all[k].from { assert all[i] in ds; }
  }

  lemma ActKeeps(r: Reader, a: Action)
    requires Sound(r)
    ensures Sound(Act(r, a))
  {
    match a
    case Produce(events) => ProduceKeeps(r, events);
    case ReadNext(maxChars) => ReadKeeps(r, maxChars);
  }

  lemma ProduceKeeps(r: Reader, events: seq<Entry>)
    requires Sound(r)
    ensures Sound(Act(r, Produce(events)))
  {
    SoundHolds(r);
    HarvestExtends(r.job, r.stream, events);
    hide Holds, Delivered, Text;
    assert Harvest(r.job, events).readCursor == r.job.readCursor;
    hide Harvest;
    var longer := r.stream + Text(events);
    forall d | d in r.deliveries ensures d.output == longer[d.from..EndOf(d)] {
      assert r.stream[d.from..EndOf(d)] == longer[d.from..EndOf(d)];
    }
  }

  lemma ReadKeeps(r: Reader, maxChars: Option<int>)
    requires Sound(r)
    ensures Sound(Act(r, ReadNext(maxChars)))
  {
    SoundHolds(r);
    hide Sound, Holds, ReadJob, Window, Handed;
    ReadIsWindow(r.job, r.stream, maxChars);
    var (j1, v) := ReadJob(r.job, None, false, maxChars);
    DeliveryKeeps(r, j1, v.droppedChars, v.output);
  }

  lemma SoundHolds(r: Reader)
    requires Sound(r)
    ensures Holds(r.job, r.stream) && 0 <= r.job.readCursor <= |r.stream| && |r.job.output| <= r.job.producedChars
  {
  }

  /** Handing out the stretch behind the cursor and what was dropped keeps the account. */
  lemma DeliveryKeeps(r: Reader, j1: Job, dropped: int, output: string)
    requires Sound(r) && Holds(j1, r.stream) && dropped >= 0
    requires var from := r.job.readCursor + dropped;
             from + |output| == j1.readCursor <= |r.stream| && output == r.stream[from..j1.readCursor]
    ensures Sound(Handed(r, j1, dropped, output))
  {
    hide Holds, Delivered, Windows;
    var d := Delivery(dropped, r.job.readCursor + dropped, output);
    DeliveredMore(r.deliveries, d);
    WindowsGrow(r.deliveries, d, r.stream, r.job.readCursor);
  }

  lemma DeliveredMore(ds: seq<Delivery>, d: Delivery)
    ensures Delivered(ds + [d]) == Delivered(ds) + d.skipped + |d.output|
  {
    assert (ds + [d])[..|ds|] == ds;
  }

  function Acts(r: Reader, actions: seq<Action>): (r1: Reader)
    requires Sound(r)
    ensures Sound(r1)
    decreases |actions|
  {
    if actions == [] then r
    else
      var before := Acts(r, actions[..|actions| - 1]);
      ActKeeps(before, actions[|actions| - 1]);
      Act(before, actions[|actions| - 1])
  }

  const NEW_JOB: Job := Job("", RUNNING, 0, None, 0, None, 0, false, 0, 0, 0, [])

  /**
   * However harvests and implicit reads interleave, the windows handed out are stretches of the one
   * stream, in order and disjoint, and their lengths plus the characters reported as dropped add up to
   * the cursor: nothing is delivered twice and nothing goes missing silently.
   */
  lemma ReadsPartitionTheStream(actions: seq<Action>)
    ensures var r := Acts(Reader(NEW_JOB, [], []), actions);
            Delivered(r.deliveries) == r.job.readCursor <= |r.stream| &&
            (forall d <- r.deliveries :: EndOf(d) <= |r.stream| && d.output == r.stream[d.from..EndOf(d)]) &&
            (forall i, k :: 0 <= i < k < |r.deliveries| ==> EndOf(r.deliveries[i]) <= r.deliveries[k].from)
  {
    hide Acts;
  }

  function ReadTimes(j: Job, n: nat, maxChars: Option<int>): Job
    requires |j.output| <= j.producedChars
    decreases n
  {
    if n == 0 then j else ReadTimes(ReadJob(j, None, false, maxChars).0, n - 1, maxChars)
  }

  /** Reading on reaches the end: at most one read per remaining character. */
  lemma {:induction false} ReadsReachTheEnd(j: Job, stream: string, n: nat, maxChars: Option<int>)
    requires Holds(j, stream) && 0 <= j.readCursor <= |stream| && |stream| - j.readCursor <= n
    ensures ReadTimes(j, n, maxChars).readCursor == |stream|
    decreases n
  {
    if n > 0 {
      ReadIsWindow(j, stream, maxChars);
      hide ReadJob, Holds;
      ReadsReachTheEnd(ReadJob(j, None, false, maxChars).0, stream, n - 1, maxChars);
    }
  }
}
