/**
 * The incremental reader of the audit trail (src/runtime/audit-store.ts): refresh() takes only what was
 * appended since the last time, a ring keeps the latest records, page() cuts slices by absolute index.
 * Reads are aligned to characters; parsing a line is a partial function of the line.
 */
module AuditStore {
  import opened Basics

  /** A parsed record; what it holds does not matter here. */
  type Record(==)

  type Parser = string -> Option<Record>

  // ----- the reference: parsing the whole file -----

  function Lines(text: string): (r: seq<string>)
    ensures |r| >= 1
  {
    Split(text, '\n')
  }

  /** Everything up to the last newline, line by line. */
  function CompleteLines(text: string): seq<string> { Lines(text)[..|Lines(text)| - 1] }

  /** The text behind the last newline. */
  function Rest(text: string): string { Lines(text)[|Lines(text)| - 1] }

  /** What a list of lines yields: blank and unparsable lines are skipped. */
  function Parsed(lines: seq<string>, parse: Parser): seq<Record> {
    if lines == [] then []
    else
      var line := lines[|lines| - 1];
      Parsed(lines[..|lines| - 1], parse) + if Trim(line) == [] || parse(line).None? then [] else [parse(line).value]
  }

  /** All records of a file. */
  function RecordsOf(file: string, parse: Parser): seq<Record> { Parsed(CompleteLines(file), parse) }

  /** Splitting a + b only re-splits the last part of a. */
  predicate Resplits(a: string, b: string) {
    var parts := Lines(a);
    Lines(a + b) == parts[..|parts| - 1] + Lines(parts[|parts| - 1] + b)
  }

  lemma {:induction false} SplitAppend(a: string, b: string)
    ensures Resplits(a, b)
  {
    if a == [] {
      assert a + b == b && Lines(a) == [[]];
    } else {
      hide Resplits;
      SplitAppend(a[1..], b);
      ConsResplits(a[0], a[1..], b);
      assert [a[0]] + a[1..] == a;
    }
  }

  lemma ConsResplits(c: char, rest: string, b: string)
    requires Resplits(rest, b)
    ensures Resplits([c] + rest, b)
  {
    hide Lines;
    var inner := Lines(rest);
    var last := inner[|inner| - 1];
    LinesCons(c, rest);
    LinesCons(c, rest + b);
    LinesCons(c, last + b);
    assert ([c] + rest) + b == [c] + (rest + b);
    assert [c] + (last + b) == ([c] + last) + b;
    MoreLines(c, inner, Lines(last + b), Lines([c] + (last + b)));
  }

  /** One character in front, on lists of lines. */
  lemma MoreLines(c: char, inner: seq<string>, last: seq<string>, joined: seq<string>)
    requires inner != [] && last != []
    requires c != '\n' ==> joined == [[c] + last[0]] + last[1..]
    ensures var outer := inner[..|inner| - 1] + last;
            var parts := if c == '\n' then [[]] + inner else [[c] + inner[0]] + inner[1..];
            var whole := if c == '\n' then [[]] + outer else [[c] + outer[0]] + outer[1..];
            whole == parts[..|parts| - 1] + (if c != '\n' && |inner| == 1 then joined else last) &&
            parts[|parts| - 1] == if c != '\n' && |inner| == 1 then [c] + inner[0] else inner[|inner| - 1]
  {
  }

  lemma LinesCons(c: char, s: string)
    ensures Lines([c] + s) == if c == '\n' then [[]] + Lines(s) else [[c] + Lines(s)[0]] + Lines(s)[1..]
  {
    assert ([c] + s)[1..] == s;
  }

  lemma LinesAppend(a: string, b: string)
    ensures CompleteLines(a + b) == CompleteLines(a) + CompleteLines(Rest(a) + b)
    ensures Rest(a + b) == Rest(Rest(a) + b)
  {
    SplitAppend(a, b);
    hide Lines;
    var front, more := CompleteLines(a), Lines(Rest(a) + b);
    assert (front + more)[..|front + more| - 1] == front + more[..|more| - 1];
  }

  lemma {:induction false} ParsedAppend(a: seq<string>, b: seq<string>, parse: Parser)
    ensures Parsed(a + b, parse) == Parsed(a, parse) + Parsed(b, parse)
    decreases |b|
  {
    if b == [] {
      assert a + b == a;
    } else {
      assert (a + b)[..|a + b| - 1] == a + b[..|b| - 1];
      ParsedAppend(a, b[..|b| - 1], parse);
    }
  }

  /** Reading a grown file from where the last read stopped yields exactly the records it gained. */
  lemma GrownFile(before: string, appended: string, parse: Parser)
    ensures RecordsOf(before + appended, parse) ==
            RecordsOf(before, parse) + RecordsOf(Rest(before) + appended, parse)
  {
    LinesAppend(before, appended);
    ParsedAppend(CompleteLines(before), CompleteLines(Rest(before) + appended), parse);
  }

  lemma TakeMore(earlier: seq<Record>, taken: string, text: string, parse: Parser)
    ensures var lines := Lines(Rest(taken) + text);
            earlier + RecordsOf(taken, parse) + Parsed(lines[..|lines| - 1], parse) == earlier +
              RecordsOf(taken + text, parse) &&
            lines[|lines| - 1] == Rest(taken + text)
  {
    LinesAppend(taken, text);
    GrownFile(taken, text, parse);
  }

  /**
   * What a reader believes the file to be that has read `taken` of it and sees only its size: it reads on at
   * its offset.
   */
  function ReadOn(taken: string, file: string): string {
    if |file| < |taken| then file else taken + file[|taken|..]
  }

  /** The records of files that were cut short, once this one is seen. */
  function CutShort(taken: string, earlier: seq<Record>, seen: seq<Record>, file: string): seq<Record> {
    if |file| < |taken| then seen else earlier
  }

  lemma NothingRead(parse: Parser)
    ensures Rest([]) == [] && RecordsOf([], parse) == []
  {
    assert Lines([]) == [[]];
  }

  lemma ReadOnIff(taken: string, file: string)
    ensures ReadOn(taken, file) == file <==> |file| < |taken| || taken <= file
  {
    if |file| >= |taken| {
      assert file == file[..|taken|] + file[|taken|..];
      assert ReadOn(taken, file)[..|taken|] == taken;
    }
  }

  /** A file re-created with another record of the same size is not read again, though its comment promises that. */
  lemma RecreatedFileIsMissed(parse: Parser)
    requires parse("a").Some? && parse("b").Some? && parse("a") != parse("b")
    ensures RecordsOf(ReadOn("a\n", "b\n"), parse) != RecordsOf("b\n", parse)
  {
    assert ReadOn("a\n", "b\n") == "a\n";
    OneLineFile("a");
    OneLineFile("b");
    hide CompleteLines;
    OneRecord("a", parse);
    OneRecord("b", parse);
  }

  lemma OneLineFile(line: string)
    requires '\n' !in line
    ensures CompleteLines(line + "\n") == [line]
  {
    SplitJoin([line, []], '\n');
    assert Join([line, []], '\n') == line + "\n";
  }

  lemma OneRecord(line: string, parse: Parser)
    requires parse(line).Some? && |line| == 1 && !IsSpace(line[0])
    ensures Parsed([line], parse) == [parse(line).value]
  {
    assert [line][..0] == [];
    TrimId(line);
  }

  // ----- the store -----

  const MIN_RING: nat := 100

  datatype Page = Page(items: seq<Record>, total: nat, nextIndex: int, windowed: bool, firstIndex: nat)

  /** The ring after all these records. */
  function Ring(all: seq<Record>, ringSize: nat): seq<Record> { LastN(all, ringSize) }

  lemma RingPush(all: seq<Record>, record: Record, ringSize: nat)
    requires ringSize >= 1
    ensures var ring := Ring(all, ringSize) + [record];
            Ring(all + [record], ringSize) == if |ring| > ringSize then ring[1..] else ring
  {
  }

  /**
   * What a page says of the whole trail: the stretch behind the cursor, from the first record the ring still has and
   * as long as its cap allows; the cursor of the next page; how much there is, and where the ring begins.
   */
  ghost predicate IsPage(p: Page, all: seq<Record>, ringSize: nat, since: int, cap: nat) {
    var first := Max(0, |all| - ringSize);
    var start := Max(since + 1, first);
    var end := Min(start + cap, |all|);
    (if start < |all| then p.items == all[start..end] && p.nextIndex == end - 1
     else p.items == [] && p.nextIndex == since) &&
    p.total == |all| && p.firstIndex == first && (p.windowed <==> first > 0)
  }

  class AuditStore {
    const ringSize: nat
    const parse: Parser
    var ring: seq<Record>
    var offset: nat
    var remainder: string
    var totalSeen: nat
    var dropped: nat
    ghost var seen: seq<Record>   // every record pushed since the last archive
    ghost var earlier: seq<Record>  // those of files that were cut short since
    ghost var taken: string       // the file as far as it was read

    ghost predicate Valid()
      reads this
    {
      ringSize >= MIN_RING && ring == Ring(seen, ringSize) && totalSeen == |seen| && dropped == |seen| - |ring| &&
      offset == |taken| && remainder == Rest(taken) && seen == earlier + RecordsOf(taken, parse)
    }

    constructor (ringSize: int, parse: Parser)
      ensures Valid() && seen == [] && taken == [] && this.ringSize == Max(MIN_RING, ringSize) && this.parse == parse
    {
      this.ringSize := Max(MIN_RING, ringSize);
      this.parse := parse;
      ring, offset, remainder, totalSeen, dropped := [], 0, [], 0, 0;
      seen, earlier, taken := [], [], [];
    }

    /** The part of Valid that push() keeps. */
    ghost predicate RingValid()
      reads this
    {
      ringSize >= MIN_RING && ring == Ring(seen, ringSize) && totalSeen == |seen| && dropped == |seen| - |ring|
    }

    method Push(record: Record)
      requires RingValid()
      modifies this`ring, this`totalSeen, this`dropped, this`seen
      ensures RingValid() && seen == old(seen) + [record]
    {
      RingPush(seen, record, ringSize);
      ring := ring + [record];
      totalSeen := totalSeen + 1;
      seen := seen + [record];
      while |ring| > ringSize
        invariant |ring| == ringSize + 1 || ring == Ring(seen, ringSize)
        invariant |ring| > ringSize ==> ring[1..] == Ring(seen, ringSize)
        invariant totalSeen == |seen| && dropped == |seen| - |ring| && seen == old(seen) + [record]
        decreases |ring|
      {
        ring := ring[1..];
        dropped := dropped + 1;
      }
    }

    /** The loop of refresh(). */
    method PushLines(lines: seq<string>)
      requires RingValid()
      modifies this`ring, this`totalSeen, this`dropped, this`seen
      ensures RingValid() && seen == old(seen) + Parsed(lines, parse)
    {
      var i := 0;
      while i < |lines|
        invariant 0 <= i <= |lines| && RingValid() && seen == old(seen) + Parsed(lines[..i], parse)
      {
        var line := lines[i];
        assert lines[..i + 1][..i] == lines[..i];
        if |Trim(line)| != 0 {
          var parsed := parse(line);
          if parsed.Some? {
            Push(parsed.value);
          }
        }
        i := i + 1;
      }
      assert lines[..|lines|] == lines;
    }

    /**
     * refresh() on a file that exists, whatever was done to it. What is seen of it is what parsing the text
     * read so far as a whole yields, whatever the sizes of the steps; a file that became shorter is read
     * from its start. That text is the file exactly when the file became shorter or only grew.
     */
    method Refresh(file: string)
      requires Valid()
      modifies this
      ensures Valid() && taken == ReadOn(old(taken), file)
      ensures earlier == CutShort(old(taken), old(earlier), old(seen), file)
      ensures seen == earlier + RecordsOf(taken, parse)
      ensures taken == file <==> |file| < old(offset) || old(taken) <= file
    {
      hide Split, Parsed, RecordsOf, Rest, Lines, Ring;
      ReadOnIff(taken, file);
      NothingRead(parse);
      if |file| < offset {
        offset, remainder, taken, earlier := 0, [], [], seen;
      }
      if |file| == offset {
        assert taken + file[|taken|..] == taken;
        return;
      }
      var text := file[offset..];
      TakeMore(earlier, taken, text, parse);
      hide Split, Parsed, RecordsOf, Rest, Lines, Ring;
      offset := |file|;
      var lines := Lines(remainder + text);
      taken := taken + text;
      remainder := lines[|lines| - 1];
      PushLines(lines[..|lines| - 1]);
    }

    /** page() behind its refresh; None stands for a cursor or limit that is not a finite number. */
    method Cut(sinceIndex: Option<int>, limit: Option<int>) returns (p: Page)
      requires Valid()
      ensures p == PageOf(seen, ringSize, sinceIndex.GetOr(-1), Max(1, limit.GetOr(ringSize)))
      ensures IsPage(p, seen, ringSize, sinceIndex.GetOr(-1), Max(1, limit.GetOr(ringSize)))
    {
      hide Rest, RecordsOf, IsPage;
      PageIsStretch(seen, ringSize, sinceIndex.GetOr(-1), Max(1, limit.GetOr(ringSize)));
      var since := sinceIndex.GetOr(-1);
      var cap := if limit.Some? then Max(1, limit.value) else ringSize;
      var startAbs := Max(since + 1, dropped);
      var lastAbs := totalSeen - 1;
      var items: seq<Record> := [];
      if startAbs <= lastAbs {
        var from := startAbs - dropped;
        items := Slice(ring, from, cap);
        RingSlice(seen, ringSize, startAbs, cap);
      }
      p := Page(items, totalSeen, if |items| > 0 then startAbs + |items| - 1 else since, dropped > 0, dropped);
    }

    /**
     * archive(); file: what is on disk, when there is a file, and renamed: whether renaming it succeeds. The store
     * brings itself up to date with the file first. What is reported is every record seen since the last rotation:
     * the records of the archived file exactly when no file with records was cut short in between.
     */
    method Archive(file: Option<string>, renamed: bool) returns (records: nat, archived: bool)
      requires Valid()
      modifies this
      ensures Valid() && (archived <==> file.Some? && renamed)
      ensures file.None? ==> records == 0 && seen == old(seen) && taken == old(taken) && earlier == old(earlier)
      ensures file.Some? && !renamed ==>
                records == 0 && taken == ReadOn(old(taken), file.value) &&
                earlier == CutShort(old(taken), old(earlier), old(seen), file.value)
      ensures archived ==>
                seen == [] && taken == [] && earlier == [] &&
                var before := CutShort(old(taken), old(earlier), old(seen), file.value);
                records == |before| + |RecordsOf(ReadOn(old(taken), file.value), parse)| &&
                (ReadOn(old(taken), file.value) == file.value ==>
                   (records == |RecordsOf(file.value, parse)| <==> before == []))
    {
      if file.None? {
        return 0, false;
      }
      Refresh(file.value);
      if !renamed {
        return 0, false;
      }
      hide RecordsOf;
      records, archived := totalSeen, true;
      StartOver();
    }

    method StartOver()
      requires RingValid()
      modifies this
      ensures Valid() && seen == [] && taken == [] && earlier == []
    {
      NothingRead(parse);
      hide Rest, RecordsOf;
      offset, remainder, ring, dropped, totalSeen := 0, [], [], 0, 0;
      seen, earlier, taken := [], [], [];
    }
  }

  // ----- what pages are, on the whole trail -----

  /** The number of records no longer in the ring. */
  function Dropped(all: seq<Record>, ringSize: nat): nat { Max(0, |all| - ringSize) }

  /** Where a page behind `since` begins: at the next record the ring still has. */
  function PageStart(all: seq<Record>, ringSize: nat, since: int): int { Max(since + 1, Dropped(all, ringSize)) }

  function PageOf(all: seq<Record>, ringSize: nat, since: int, cap: nat): Page {
    var start := PageStart(all, ringSize, since);
    var items := Slice(all, start, cap);
    Page(items, |all|, if items != [] then start + |items| - 1 else since, |all| > ringSize, Dropped(all, ringSize))
  }

  lemma RingSlice(all: seq<Record>, ringSize: nat, start: nat, cap: nat)
    requires |all| - |Ring(all, ringSize)| <= start < |all|
    ensures Slice(Ring(all, ringSize), start - (|all| - |Ring(all, ringSize)|), cap) == Slice(all, start, cap)
  {
    var ring := Ring(all, ringSize);
    var from := |all| - |ring|;
    assert ring == all[from..];
    if start + cap <= |all| {
      assert ring[start - from..start - from + cap] == all[start..start + cap];
    } else {
      assert ring[start - from..] == all[start..];
    }
  }

  /** One request of a reader that follows nextIndex; `all` is the trail at that moment. */
  datatype Request = Request(all: seq<Record>, cap: nat)

  /** The cursor after some requests, starting before the first record. */
  function CursorAfter(requests: seq<Request>, ringSize: nat): int {
    if requests == [] then -1
    else
      var last := requests[|requests| - 1];
      PageOf(last.all, ringSize, CursorAfter(requests[..|requests| - 1], ringSize), last.cap).nextIndex
  }

  /** The absolute indices of everything those requests returned, in order. */
  function Received(requests: seq<Request>, ringSize: nat): seq<int> {
    if requests == [] then []
    else
      var last := requests[|requests| - 1];
      var since := CursorAfter(requests[..|requests| - 1], ringSize);
      Received(requests[..|requests| - 1], ringSize) +
      seq(|PageOf(last.all, ringSize, since, last.cap).items|, i => PageStart(last.all, ringSize, since) + i)
  }

  /** Strictly increasing, so no index twice. */
  predicate Ordered(ids: seq<int>, upTo: int) {
    (forall a, b :: 0 <= a < b < |ids| ==> ids[a] < ids[b]) && (forall i <- ids :: 0 <= i <= upTo)
  }

  predicate Growing(requests: seq<Request>) {
    (forall k :: 0 <= k < |requests| ==> requests[k].cap >= 1) &&
    (forall i, k :: 0 <= i < k < |requests| ==> requests[i].all <= requests[k].all)
  }

  /** A page is as much of the trail behind the cursor as the ring still has and its cap allows. */
  lemma PageIsStretch(all: seq<Record>, ringSize: nat, since: int, cap: nat)
    requires cap >= 1
    ensures IsPage(PageOf(all, ringSize, since, cap), all, ringSize, since, cap)
  {
  }

  /**
   * Following nextIndex over a growing trail delivers each record at most once, in order; what it skips
   * had been evicted, and firstIndex of the page that skipped it says so.
   */
  lemma {:induction false} ChainedPages(requests: seq<Request>, ringSize: nat)
    requires Growing(requests)
    ensures var got := Received(requests, ringSize); var cursor := CursorAfter(requests, ringSize);
            -1 <= cursor && Ordered(got, cursor) &&
            (forall i :: 0 <= i <= cursor ==> i in got || Evicted(requests, ringSize, i))
    decreases |requests|
  {
    if requests != [] {
      var before := requests[..|requests| - 1];
      var last := requests[|requests| - 1];
      ChainedPages(before, ringSize);
      var since := CursorAfter(before, ringSize);
      PageIsStretch(last.all, ringSize, since, last.cap);
      hide PageOf, Slice;
      ChainStep(requests, ringSize);
    }
  }

  /** Some page announced a first index above i. */
  ghost predicate Evicted(requests: seq<Request>, ringSize: nat, i: int) {
    exists k :: 0 <= k < |requests| && i < Dropped(requests[k].all, ringSize)
  }

  lemma OrderedAppend(ids: seq<int>, upTo: int, start: nat, n: nat)
    requires Ordered(ids, upTo) && upTo < start
    ensures Ordered(ids + seq(n, i => start + i), Max(upTo, start + n - 1))
  {
    forall i <- ids ensures 0 <= i < start {}
    var more := seq(n, i => start + i);
    forall i <- ids + more ensures 0 <= i <= Max(upTo, start + n - 1) { assert i in ids || i in more; }
    forall a, b | 0 <= a < b < |ids + more| ensures (ids + more)[a] < (ids + more)[b] {
      if a < |ids| { assert ids[a] in ids; }
    }
  }

  lemma ChainStep(requests: seq<Request>, ringSize: nat)
    requires requests != []
    requires var before := requests[..|requests| - 1]; var got := Received(before, ringSize);
             var cursor := CursorAfter(before, ringSize);
             -1 <= cursor && Ordered(got, cursor) &&
             (forall i :: 0 <= i <= cursor ==> i in got || Evicted(before, ringSize, i))
    requires requests[|requests| - 1].cap >= 1
    ensures var got := Received(requests, ringSize); var cursor := CursorAfter(requests, ringSize);
            -1 <= cursor && Ordered(got, cursor) &&
            (forall i :: 0 <= i <= cursor ==> i in got || Evicted(requests, ringSize, i))
  {
    var before, last := requests[..|requests| - 1], requests[|requests| - 1];
    var since := CursorAfter(before, ringSize);
    var start := PageStart(last.all, ringSize, since);
    PageIsStretch(last.all, ringSize, since, last.cap);
    hide PageOf, Slice;
    var got := Received(before, ringSize);
    var more := seq(|PageOf(last.all, ringSize, since, last.cap).items|, i => start + i);
    assert Received(requests, ringSize) == got + more;
    OrderedAppend(got, since, start, |more|);
    hide Ordered;
    forall i | 0 <= i <= CursorAfter(requests, ringSize) ensures i in got + more || Evicted(requests, ringSize, i) {
      if i <= since {
        if Evicted(before, ringSize, i) {
          var k :| 0 <= k < |before| && i < Dropped(before[k].all, ringSize);
          assert before[k] == requests[k];
        }
      } else if i < start {
        assert i < Dropped(requests[|requests| - 1].all, ringSize);
      } else {
        assert more[i - start] == i;
      }
    }
  }
}
