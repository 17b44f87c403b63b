/**
 * The terminal event ring (src/jumpserver/terminal-observer.ts): a bounded buffer of numbered events.
 * Redaction happens before an event gets here; the data of an event is what was recorded.
 */
module TerminalObserver {
  import opened Basics
  import opened Utf8

  /** A recorded event; a note is a state, target or error event, which carries no terminal data. */
  datatype Content = Input(data: string) | Output(data: string) | Note

  datatype Entry = Entry(number: nat, content: Content)

  function EntryBytes(e: Entry): nat { if e.content.Output? then Bytes(e.content.data) else 0 }

  function OutputBytes(es: seq<Entry>): nat {
    if es == [] then 0 else EntryBytes(es[0]) + OutputBytes(es[1..])
  }

  lemma {:induction false} OutputBytesAppend(a: seq<Entry>, b: seq<Entry>)
    ensures OutputBytes(a + b) == OutputBytes(a) + OutputBytes(b)
  {
    if a == [] {
      assert a + b == b;
    } else {
      assert (a + b)[1..] == a[1..] + b;
      OutputBytesAppend(a[1..], b);
    }
  }

  // ----- what the two caps leave -----

  predicate Fits(es: seq<Entry>, maxEvents: nat, maxBytes: nat) {
    |es| <= maxEvents && OutputBytes(es) <= maxBytes
  }

  /** Drop from the front until both caps hold. */
  function Fit(es: seq<Entry>, maxEvents: nat, maxBytes: nat): seq<Entry> {
    if es == [] || Fits(es, maxEvents, maxBytes) then es else Fit(es[1..], maxEvents, maxBytes)
  }

  /** What is left is the longest suffix within both caps. */
  lemma {:induction false} FitIsLongest(es: seq<Entry>, maxEvents: nat, maxBytes: nat, k: nat)
    requires k <= |es|
    ensures var kept := Fit(es, maxEvents, maxBytes);
            |kept| <= |es| && kept == es[|es| - |kept|..] && Fits(kept, maxEvents, maxBytes) &&
            (Fits(es[k..], maxEvents, maxBytes) ==> |es| - k <= |kept|)
  {
    if es != [] && !Fits(es, maxEvents, maxBytes) {
      var rest := es[1..];
      if k > 0 {
        FitIsLongest(rest, maxEvents, maxBytes, k - 1);
        assert rest[k - 1..] == es[k..];
      } else {
        FitIsLongest(rest, maxEvents, maxBytes, 0);
        assert es[0..] == es;
      }
    }
  }

  /** Evicting as events arrive leaves the same as evicting once at the end. */
  lemma {:induction false} FitStep(es: seq<Entry>, e: seq<Entry>, maxEvents: nat, maxBytes: nat)
    ensures Fit(Fit(es, maxEvents, maxBytes) + e, maxEvents, maxBytes) == Fit(es + e, maxEvents, maxBytes)
  {
    if es != [] && !Fits(es, maxEvents, maxBytes) {
      FitStep(es[1..], e, maxEvents, maxBytes);
      assert (es + e)[1..] == es[1..] + e;
      OutputBytesAppend(es, e);
    }
  }

  /** The buffer after a run of pushes. */
  function Pushed(es: seq<Entry>, more: seq<Entry>, maxEvents: nat, maxBytes: nat): seq<Entry>
    decreases |more|
  {
    if more == [] then es
    else Fit(Pushed(es, more[..|more| - 1], maxEvents, maxBytes) + [more[|more| - 1]], maxEvents, maxBytes)
  }

  lemma {:induction false} PushedIsFit(es: seq<Entry>, more: seq<Entry>, maxEvents: nat, maxBytes: nat)
    requires Fits(es, maxEvents, maxBytes)
    ensures Pushed(es, more, maxEvents, maxBytes) == Fit(es + more, maxEvents, maxBytes)
    decreases |more|
  {
    if more == [] {
      assert es + more == es;
    } else {
      var before, last := more[..|more| - 1], [more[|more| - 1]];
      PushedIsFit(es, before, maxEvents, maxBytes);
      FitStep(es + before, last, maxEvents, maxBytes);
      assert es + before + last == es + more;
    }
  }

  /** Numbered without gaps, ending at cursor. */
  predicate Numbered(es: seq<Entry>, cursor: nat) {
    |es| <= cursor && forall i :: 0 <= i < |es| ==> es[i].number == cursor - |es| + 1 + i
  }

  /** Selecting by number, as snapshotSince does, takes a suffix. */
  lemma {:induction false} FilterIsSuffix(es: seq<Entry>, cursor: nat, since: nat)
    requires Numbered(es, cursor)
    ensures Filter(es, (e: Entry) => e.number > since) == LastN(es, Max(0, cursor - since))
  {
    if es != [] {
      var rest := es[1..];
      assert forall i :: 0 <= i < |rest| ==> rest[i] == es[i + 1];
      FilterIsSuffix(rest, cursor, since);
    }
  }

  /**
   * Reading from the last number seen returns exactly the events recorded since, without the ones the
   * caps evicted meanwhile: all of them when the buffer still holds that many.
   */
  lemma SinceIsExact(es: seq<Entry>, cursor: nat, more: seq<Entry>, maxEvents: nat, maxBytes: nat)
    requires Fits(es, maxEvents, maxBytes) && Numbered(es, cursor) && Numbered(more, cursor + |more|)
    ensures var kept := Pushed(es, more, maxEvents, maxBytes);
            var seen := Filter(kept, (e: Entry) => e.number > cursor);
            Numbered(kept, cursor + |more|) && seen == LastN(more, |kept|) && (|more| <= |kept| ==> seen == more)
  {
    var all := es + more;
    var kept := Pushed(es, more, maxEvents, maxBytes);
    assert |kept| <= |all| && kept == all[|all| - |kept|..] by {
      PushedIsFit(es, more, maxEvents, maxBytes);
      FitIsLongest(all, maxEvents, maxBytes, 0);
    }
    hide Pushed, Fits;
    SuffixSince(es, cursor, more, kept);
  }

  lemma SuffixSince(es: seq<Entry>, cursor: nat, more: seq<Entry>, kept: seq<Entry>)
    requires Numbered(es, cursor) && Numbered(more, cursor + |more|)
    requires var all := es + more; |kept| <= |all| && kept == all[|all| - |kept|..]
    ensures Numbered(kept, cursor + |more|) && Filter(kept, (e: Entry) => e.number > cursor) == LastN(more, |kept|)
  {
    hide Filter, Numbered, LastN;
    SuffixOfSum(es, more, |kept|);
    SuffixNumbered(es, cursor, more, kept);
    FilterIsSuffix(kept, cursor + |more|, cursor);
    SameBack(es, more, kept);
  }

  lemma SameBack(es: seq<Entry>, more: seq<Entry>, kept: seq<Entry>)
    requires |kept| <= |es| + |more|
    requires kept == if |kept| <= |more| then more[|more| - |kept|..] else es[|es| + |more| - |kept|..] + more
    ensures LastN(kept, |more|) == LastN(more, |kept|)
  {
    if |kept| > |more| { BackOfSum(es[|es| + |more| - |kept|..], more); }
  }

  lemma BackOfSum(a: seq<Entry>, b: seq<Entry>)
    ensures (a + b)[|a|..] == b
  {
  }

  lemma SuffixNumbered(es: seq<Entry>, cursor: nat, more: seq<Entry>, kept: seq<Entry>)
    requires Numbered(es, cursor) && Numbered(more, cursor + |more|)
    requires |kept| <= |es| + |more|
    requires kept == if |kept| <= |more| then more[|more| - |kept|..] else es[|es| + |more| - |kept|..] + more
    ensures Numbered(kept, cursor + |more|)
  {
  }

  lemma SuffixOfSum(a: seq<Entry>, b: seq<Entry>, n: nat)
    requires n <= |a| + |b|
    ensures (a + b)[|a| + |b| - n..] == if n <= |b| then b[|b| - n..] else a[|a| + |b| - n..] + b
  {
  }

  const MIN_EVENTS := 1000
  const MAX_EVENTS := 200000

  class TerminalRingBuffer {
    var events: seq<Entry>
    var cursor: nat
    var outputBytes: nat
    var maxEvents: nat
    const maxOutputBytes: nat

    ghost predicate Valid()
      reads this
    {
      outputBytes == OutputBytes(events) && Fits(events, maxEvents, maxOutputBytes) && Numbered(events, cursor)
    }

    constructor (maxEvents: nat, maxOutputBytes: nat)
      ensures Valid() && events == [] && cursor == 0
      ensures this.maxEvents == maxEvents && this.maxOutputBytes == maxOutputBytes
    {
      this.maxEvents, this.maxOutputBytes := maxEvents, maxOutputBytes;
      events, cursor, outputBytes := [], 0, 0;
    }

    /** Drop the oldest event. */
    method Shift()
      requires events != [] && outputBytes == OutputBytes(events)
      modifies this`events, this`outputBytes
      ensures events == old(events)[1..] && outputBytes == OutputBytes(events)
    {
      if events[0].content.Output? { outputBytes := outputBytes - Bytes(events[0].content.data); }
      events := events[1..];
    }

    /** Append one event, then evict from the front for the byte cap and for the event cap. */
    method Push(content: Content) returns (full: Entry)
      requires Valid()
      modifies this`events, this`cursor, this`outputBytes
      ensures Valid()
      ensures full == Entry(cursor, content) && cursor == old(cursor) + 1
      ensures events == Fit(old(events) + [full], maxEvents, maxOutputBytes)
      ensures events == Pushed(old(events), [full], maxEvents, maxOutputBytes)
    {
      cursor := cursor + 1;
      full := Entry(cursor, content);
      OutputBytesAppend(events, [full]);
      events := events + [full];
      if content.Output? { outputBytes := outputBytes + Bytes(content.data); }
      while outputBytes > maxOutputBytes && |events| > 0
        invariant outputBytes == OutputBytes(events) && cursor == full.number && Numbered(events, cursor)
        invariant Fit(events, maxEvents, maxOutputBytes) == Fit(old(events) + [full], maxEvents, maxOutputBytes)
        decreases |events|
      {
        Shift();
      }
      while |events| > maxEvents
        invariant outputBytes == OutputBytes(events) && cursor == full.number && Numbered(events, cursor)
        invariant Fit(events, maxEvents, maxOutputBytes) == Fit(old(events) + [full], maxEvents, maxOutputBytes)
        invariant outputBytes <= maxOutputBytes
        decreases |events|
      {
        Shift();
      }
      assert [full][..0] == [];
    }

    /** Re-budget to four events a row, within bounds; a smaller budget evicts at once. */
    method SetScrollbackRows(rows: int)
      requires Valid()
      modifies this`events, this`outputBytes, this`maxEvents
      ensures Valid()
      ensures maxEvents == Max(MIN_EVENTS, Min(MAX_EVENTS, rows * 4))
      ensures events == Fit(old(events), maxEvents, maxOutputBytes)
    {
      var next := Max(MIN_EVENTS, Min(MAX_EVENTS, rows * 4));
      if next == maxEvents {
        return;
      }
      maxEvents := next;
      while |events| > maxEvents
        invariant outputBytes == OutputBytes(events) && maxEvents == next && Numbered(events, cursor) &&
                  outputBytes <= maxOutputBytes
        invariant Fit(events, maxEvents, maxOutputBytes) == Fit(old(events), maxEvents, maxOutputBytes)
        decreases |events|
      {
        Shift();
      }
    }

    /** The retained events numbered above sinceSeq: the last cursor - sinceSeq of them. */
    function SnapshotSince(sinceSeq: int): (r: seq<Entry>)
      requires Valid()
      reads this
      ensures r == LastN(events, Max(0, cursor - Max(0, sinceSeq)))
    {
      var since := Max(0, sinceSeq);
      FilterIsSuffix(events, cursor, since);
      if |events| == 0 || since >= cursor then [] else Filter(events, (e: Entry) => e.number > since)
    }

    method Clear()
      requires Valid()
      modifies this`events, this`outputBytes
      ensures Valid() && events == []
    {
      events, outputBytes := [], 0;
    }
  }
}
