/**
 * Capture of terminal output (src/jumpserver/output-buffer.ts): a bounded buffer and a marker watcher.
 * Escape stripping is a function of one chunk, so the captured text is the cleaned chunks in order.
 */
module OutputBuffer {
  import opened Basics

  /** chunks.join('') */
  function Concat(chunks: seq<string>): string {
    if chunks == [] then [] else Concat(chunks[..|chunks| - 1]) + chunks[|chunks| - 1]
  }

  lemma {:induction false} ConcatHead(chunks: seq<string>)
    requires chunks != []
    ensures Concat(chunks) == chunks[0] + Concat(chunks[1..])
  {
    var front, last := chunks[..|chunks| - 1], chunks[|chunks| - 1];
    if |chunks| == 1 {
      assert front == [] && chunks[1..] == [];
    } else {
      ConcatHead(front);
      var rest := chunks[1..];
      assert rest[..|rest| - 1] == front[1..] && rest[|rest| - 1] == last;
      assert Concat(chunks) == (chunks[0] + Concat(front[1..])) + last;
      assert (chunks[0] + Concat(front[1..])) + last == chunks[0] + (Concat(front[1..]) + last);
    }
  }

  lemma ConcatMore(chunks: seq<string>, text: string)
    ensures Concat(chunks + [text]) == Concat(chunks) + text
  {
    assert (chunks + [text])[..|chunks|] == chunks;
  }

  class OutputBuffer {
    const limit: nat
    const clean: string -> string
    var chunks: seq<string>
    var total: nat
    var truncated: bool
    ghost var seen: string    // everything pushed since the last clear, cleaned

    ghost predicate Valid()
      reads this
    {
      total == |Concat(chunks)| && Concat(chunks) == LastN(seen, limit) && (truncated <==> |seen| > limit)
    }

    constructor (limit: nat, clean: string -> string)
      ensures Valid() && seen == [] && this.limit == limit && this.clean == clean
    {
      this.limit, this.clean := limit, clean;
      chunks, total, truncated, seen := [], 0, false, [];
    }

    method Push(chunk: string)
      requires Valid()
      modifies this`chunks, this`total, this`truncated, this`seen
      ensures Valid() && seen == old(seen) + clean(chunk)
    {
      var text := clean(chunk);
      if |text| == 0 {
        assert seen + text == seen;
        return;
      }
      LastNAppend(seen, text, limit);
      ConcatMore(chunks, text);
      assert old(|seen|) > limit ==> |LastN(old(seen), limit)| == limit;
      hide Concat, LastN;
      chunks := chunks + [text];
      total := total + |text|;
      seen := seen + text;
      DropOldest();
    }

    /** The loop of push(): drop whole chunks, then cut into one, until the limit holds. */
    method DropOldest()
      requires total == |Concat(chunks)|
      modifies this`chunks, this`total, this`truncated
      ensures total == |Concat(chunks)| && Concat(chunks) == LastN(old(Concat(chunks)), limit)
      ensures truncated <==> old(truncated) || old(total) > limit
    {
      ghost var kept := Concat(chunks);
      while total > limit && |chunks| > 0
        invariant total == |Concat(chunks)| && Min(limit, |kept|) <= total <= |kept| &&
                  Concat(chunks) == kept[|kept| - total..]
        invariant total < |kept| ==> truncated
        invariant old(truncated) ==> truncated
        invariant truncated ==> old(truncated) || |kept| > limit
        decreases |chunks|
      {
        truncated := true;
        var head := chunks[0];
        ghost var now := Concat(chunks);
        ConcatHead(chunks);
        assert now[|head|..] == Concat(chunks[1..]);
        if total - |head| >= limit {
          total := total - |head|;
          chunks := chunks[1..];
        } else {
          var drop := total - limit;
          ghost var rest := chunks[1..];
          chunks := chunks[0 := head[drop..]];
          total := total - drop;
          ConcatHead(chunks);
          assert chunks[1..] == rest;
          assert Concat(chunks) == now[drop..];
          break;
        }
      }
    }

    /** The last `limit` characters of everything pushed; whether that is less than all is in `truncated`. */
    function Peek(): (r: string)
      requires Valid()
      reads this
      ensures r == LastN(seen, limit)
      ensures truncated <==> r != seen
    {
      Concat(chunks)
    }

    method Clear()
      modifies this`chunks, this`total, this`truncated, this`seen
      ensures Valid() && seen == [] && !truncated
    {
      chunks, total, truncated, seen := [], 0, false, [];
    }

    /** take() clears before it reads the flag: the flag it returns is always false. */
    method Take() returns (text: string, cut: bool)
      requires Valid()
      modifies this`chunks, this`total, this`truncated, this`seen
      ensures Valid() && seen == [] && text == LastN(old(seen), limit) && !cut
      ensures cut == old(truncated) <==> |old(seen)| <= limit
    {
      text := Peek();
      Clear();
      cut := truncated;
    }
  }

  /** It happens: two characters into a buffer of one, and take() hands out half of them as if they were all. */
  method TakeLosesTheFlag() returns (before: bool, text: string, cut: bool)
    ensures before && text == "b" && !cut
  {
    var buffer := new OutputBuffer(1, (chunk: string) => chunk);
    buffer.Push("ab");
    before := buffer.truncated;
    text, cut := buffer.Take();
  }

  // ----- the watcher -----

  const WINDOW := 4096

  function Tail(s: string, marker: string): string { LastN(s, |marker| + WINDOW) }

  /** What the watcher looks for in its tail: the pattern, which may ask for a line start, or the marker itself. */
  predicate Hit(tail: string, marker: string, pattern: Option<string -> bool>) {
    if pattern.Some? then pattern.value("\n" + tail) else Contains(tail, marker)
  }

  /** Whether pushing these cleaned chunks one by one matches at some point. */
  predicate Matches(chunks: seq<string>, marker: string, pattern: Option<string -> bool>)
    decreases |chunks|
  {
    chunks != [] &&
    (Matches(chunks[..|chunks| - 1], marker, pattern) || Hit(Tail(Concat(chunks), marker), marker, pattern))
  }

  lemma MatchesMore(chunks: seq<string>, text: string, marker: string, pattern: Option<string -> bool>)
    ensures Matches(chunks + [text], marker, pattern) <==>
            Matches(chunks, marker, pattern) || Hit(Tail(Concat(chunks) + text, marker), marker, pattern)
  {
    ConcatMore(chunks, text);
    assert (chunks + [text])[..|chunks|] == chunks;
  }

  class MarkerWatcher {
    const marker: string
    const pattern: Option<string -> bool>
    const buffer: OutputBuffer
    var tail: string
    var done: bool
    ghost var pushed: seq<string>    // the cleaned chunks since the last reset

    ghost predicate Valid()
      reads this, buffer
    {
      buffer.Valid() && buffer.seen == Concat(pushed) &&
      (done <==> Matches(pushed, marker, pattern)) && (!done ==> tail == Tail(Concat(pushed), marker))
    }

    constructor (marker: string, limit: nat, clean: string -> string, pattern: Option<string -> bool>)
      ensures Valid() && pushed == [] && fresh(buffer)
      ensures this.marker == marker && this.pattern == pattern && buffer.limit == limit && buffer.clean == clean
    {
      this.marker, this.pattern := marker, pattern;
      buffer := new OutputBuffer(limit, clean);
      tail, done, pushed := [], false, [];
    }

    /** Feed one chunk; true on the push that makes the marker visible. */
    method Push(chunk: string) returns (now: bool)
      requires Valid()
      modifies this`tail, this`done, this`pushed, buffer
      ensures Valid() && pushed == old(pushed) + [buffer.clean(chunk)]
      ensures old(done) ==> done && !now
      ensures !old(done) ==> now == done
    {
      ghost var before := pushed;
      ConcatMore(before, buffer.clean(chunk));
      MatchesMore(before, buffer.clean(chunk), marker, pattern);
      hide Concat, Matches, LastN, Contains;
      var text := buffer.clean(chunk);
      buffer.Push(chunk);
      pushed := pushed + [text];
      if done {
        return false;
      }
      LastNAppend(Concat(before), text, |marker| + WINDOW);
      tail := LastN(tail + text, |marker| + WINDOW);
      if pattern.Some? {
        if pattern.value("\n" + tail) { done := true; }
      } else if Contains(tail, marker) {
        done := true;
      }
      return done;
    }

    method Reset()
      requires Valid()
      modifies this`tail, this`done, this`pushed, buffer
      ensures Valid() && pushed == [] && !done
    {
      tail, done, pushed := [], false, [];
      buffer.Clear();
    }
  }

  lemma AtShift(s: string, from: nat, i: int, marker: string)
    requires from <= |s| && 0 <= i
    ensures At(s[from..], i, marker) <==> At(s, i + from, marker)
  {
    if i + from + |marker| <= |s| {
      assert s[i + from..i + from + |marker|] == s[from..][i..i + |marker|];
    }
  }

  lemma InTail(s: string, marker: string, n: nat)
    requires n >= |marker|
    ensures Contains(LastN(s, n), marker) <==> exists i :: 0 <= i <= |s| && At(s, i, marker) && |s| <= i + n
  {
    var from := Max(0, |s| - n);
    var tail := s[from..];
    assert tail == LastN(s, n);
    if Contains(tail, marker) {
      var i :| 0 <= i <= |tail| && At(tail, i, marker);
      AtShift(s, from, i, marker);
      assert At(s, i + from, marker) && |s| <= i + from + n;
    }
    forall i | 0 <= i <= |s| && At(s, i, marker) && |s| <= i + n ensures Contains(tail, marker) {
      AtShift(s, from, i - from, marker);
      assert At(tail, i - from, marker);
    }
  }

  /** The first k chunks hold the marker at i, with at most WINDOW characters behind it. */
  predicate VisibleAfter(chunks: seq<string>, k: int, marker: string, i: int) {
    0 <= k <= |chunks| && var s := Concat(chunks[..k]); At(s, i, marker) && |s| - (i + |marker|) <= WINDOW
  }

  lemma VisibleFront(chunks: seq<string>, k: int, marker: string, i: int)
    requires chunks != [] && k < |chunks|
    ensures VisibleAfter(chunks, k, marker, i) <==> VisibleAfter(chunks[..|chunks| - 1], k, marker, i)
  {
    if 0 <= k { assert chunks[..k] == chunks[..|chunks| - 1][..k]; }
  }

  lemma VisibleNow(chunks: seq<string>, marker: string)
    ensures Contains(Tail(Concat(chunks), marker), marker) <==> exists i :: VisibleAfter(chunks, |chunks|, marker, i)
  {
    var s := Concat(chunks);
    assert chunks[..|chunks|] == chunks;
    InTail(s, marker, |marker| + WINDOW);
    forall i
      ensures VisibleAfter(chunks, |chunks|, marker, i) <==>
              0 <= i <= |s| && At(s, i, marker) && |s| <= i + (|marker| + WINDOW)
    {}
  }

  /**
   * Exactly when the watcher sees a plain marker, however the output is cut into chunks: when some push
   * leaves an occurrence followed by at most WINDOW characters.
   */
  lemma {:induction false} FoundIff(chunks: seq<string>, marker: string)
    requires marker != []
    ensures Matches(chunks, marker, None) <==> exists k, i :: VisibleAfter(chunks, k, marker, i)
    decreases |chunks|
  {
    if chunks == [] {
      forall k, i ensures !VisibleAfter(chunks, k, marker, i) { assert chunks[..0] == []; }
    } else {
      var front := chunks[..|chunks| - 1];
      FoundIff(front, marker);
      VisibleNow(chunks, marker);
      if k, i :| VisibleAfter(chunks, k, marker, i) {
        if k < |chunks| { VisibleFront(chunks, k, marker, i); }
      }
      if k, i :| VisibleAfter(front, k, marker, i) {
        VisibleFront(chunks, k, marker, i);
      }
      hide Concat, Tail;
    }
  }

  /** A match is not forgotten, and it is never invented. */
  lemma {:induction false} MatchIsSoundAndStays(chunks: seq<string>, more: seq<string>, marker: string)
    requires marker != [] && Matches(chunks, marker, None)
    ensures Matches(chunks + more, marker, None) && Contains(Concat(chunks), marker)
    decreases |more|, |chunks|
  {
    if more != [] {
      assert (chunks + more)[..|chunks + more| - 1] == chunks + more[..|more| - 1];
      MatchIsSoundAndStays(chunks, more[..|more| - 1], marker);
    } else {
      assert chunks + more == chunks;
      FoundIff(chunks, marker);
      var k, i :| VisibleAfter(chunks, k, marker, i);
      PrefixConcat(chunks, k);
      assert At(Concat(chunks), i, marker);
    }
  }

  lemma {:induction false} PrefixConcat(chunks: seq<string>, k: nat)
    requires k <= |chunks|
    ensures Concat(chunks[..k]) <= Concat(chunks)
    decreases |chunks|
  {
    if k == |chunks| {
      assert chunks[..k] == chunks;
    } else {
      var front := chunks[..|chunks| - 1];
      PrefixConcat(front, k);
      assert front[..k] == chunks[..k];
    }
  }
}
