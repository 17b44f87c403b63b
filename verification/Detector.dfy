/**
 * Screen detection (src/jumpserver/detector.ts). The row, prompt and blank-line patterns are answers
 * given per line; what is modelled is the scan over the lines and the checks on its result.
 */
module Detector {
  import opened Basics

  /** What the row pattern says about one line. */
  datatype LineView =
    | Row(index: nat, account: string)  // "1) root" or "1 | root | root"
    | UnlabelledRow                   // the pattern matched but the label is empty after trimming
    | Blank
    | Other

  datatype AccountOption = AccountOption(index: nat, account: string)

  datatype RawSelection = Selection(detected: bool, options: seq<AccountOption>)

  predicate Contiguous(options: seq<AccountOption>) {
    forall i :: 0 <= i < |options| ==> options[i].index == options[0].index + i
  }

  predicate WellFormed(s: RawSelection) {
    if s.detected then |s.options| >= 2 && Contiguous(s.options) else s.options == []
  }

  /** A result of looksLikeAccountSelection. */
  type AccountSelection = s: RawSelection | WellFormed(s) witness Selection(false, [])

  const NO_SELECTION: AccountSelection := Selection(false, [])

  predicate Offers(s: AccountSelection, index: int) {
    exists o <- s.options :: o.index == index
  }

  /** How often an index occurs in a displayed list. */
  function Occurrences(options: seq<AccountOption>, index: int): nat {
    if options == [] then 0 else (if options[0].index == index then 1 else 0) + Occurrences(options[1..], index)
  }

  lemma {:induction false} OccurrencesFrom(options: seq<AccountOption>, base: int, index: int)
    requires forall i :: 0 <= i < |options| ==> options[i].index == base + i
    ensures Occurrences(options, index) == if base <= index < base + |options| then 1 else 0
  {
    if options != [] {
      var rest := options[1..];
      assert forall i :: 0 <= i < |rest| ==> rest[i].index == options[i + 1].index;
      OccurrencesFrom(rest, base + 1, index);
    }
  }

  /** An index offered by a detected list names exactly one account. */
  lemma OfferedIsUnique(s: AccountSelection, index: int)
    ensures Offers(s, index) ==> s.detected && Occurrences(s.options, index) == 1
    ensures s.detected ==>
              (Offers(s, index) <==> s.options[0].index <= index < s.options[0].index + |s.options|)
  {
    if s.detected {
      var base := s.options[0].index;
      OccurrencesFrom(s.options, base, index);
      if base <= index < base + |s.options| {
        assert s.options[index - base].index == index;
      }
    }
  }

  function RowsOf(lines: seq<LineView>): seq<AccountOption> {
    if lines == [] then []
    else (if lines[0].Row? then [AccountOption(lines[0].index, lines[0].account)] else []) + RowsOf(lines[1..])
  }

  const MAX_OPTIONS := 32

  /**
   * options are the rows of one block lines[lo..hi]: nothing below it is a row, nothing inside it is
   * foreign text, and it was not left before foreign text, the top of the window or the 32-row cap.
   */
  ghost predicate IsBlock(lines: seq<LineView>, lo: int, hi: int, options: seq<AccountOption>) {
    0 <= lo <= hi <= |lines| &&
    (forall k :: hi <= k < |lines| ==> !lines[k].Row?) &&
    (forall k :: lo <= k < hi ==> !lines[k].Other?) &&
    options == RowsOf(lines[lo..hi]) && |options| <= MAX_OPTIONS &&
    (lo == 0 || |options| == MAX_OPTIONS || (options != [] && lines[lo - 1].Other?))
  }

  /** looksLikeAccountSelection on the lines of the last 2048 characters; promptSeen: an `ID>` line is among them. */
  method LooksLikeAccountSelection(promptSeen: bool, lines: seq<LineView>) returns (r: AccountSelection)
    ensures r.detected ==> promptSeen && exists lo, hi :: IsBlock(lines, lo, hi, r.options)
    ensures forall lo, hi, options ::
              promptSeen && IsBlock(lines, lo, hi, options) && 2 <= |options| < MAX_OPTIONS && Contiguous(options)
              ==> r == Selection(true, options)
  {
    if !promptSeen {
      return NO_SELECTION;
    }
    var options: seq<AccountOption> := [];
    var i := |lines|;
    ghost var hi := |lines|;
    var stopped := false;
    while i > 0 && !stopped
      invariant 0 <= i <= hi <= |lines|
      invariant |options| <= MAX_OPTIONS
      invariant forall k :: hi <= k < |lines| ==> !lines[k].Row?
      invariant options == [] ==> hi == i
      invariant options != [] ==> hi > 0 && lines[hi - 1].Row?
      invariant forall k :: i <= k < hi ==> !lines[k].Other?
      invariant options == RowsOf(lines[i..hi])
      invariant stopped ==> |options| == MAX_OPTIONS || (options != [] && i > 0 && lines[i - 1].Other?)
      invariant |options| == MAX_OPTIONS ==> stopped
      decreases i, !stopped
    {
      var line := lines[i - 1];
      match line {
        case Row(index, account) =>
          RowsOfCons(lines, i, hi);
          options := [AccountOption(index, account)] + options;
          i := i - 1;
          if |options| >= MAX_OPTIONS { stopped := true; }
        case Other =>
          if options != [] {
            stopped := true;
          } else {
            i := i - 1;
            hi := i;
          }
        case _ =>
          if options != [] { RowsOfCons(lines, i, hi); }
          i := i - 1;
          if options == [] { hi := i; }
      }
    }
    assert IsBlock(lines, i, hi, options);
    forall lo', hi', options' | IsBlock(lines, lo', hi', options') && 2 <= |options'| < MAX_OPTIONS
      ensures options' == options
    {
      BlockUnique(lines, i, hi, options, lo', hi', options');
    }
    // The list is rejected when it is too short or its numbers have a gap.
    if |options| < 2 {
      return NO_SELECTION;
    }
    var base := options[0].index;
    var j := 0;
    while j < |options|
      invariant 0 <= j <= |options|
      invariant forall k :: 0 <= k < j ==> options[k].index == base + k
    {
      if options[j].index != base + j {
        return NO_SELECTION;
      }
      j := j + 1;
    }
    return Selection(true, options);
  }

  lemma RowsOfCons(lines: seq<LineView>, i: int, hi: int)
    requires 0 < i <= hi <= |lines|
    ensures RowsOf(lines[i - 1..hi]) ==
            (if lines[i - 1].Row? then [AccountOption(lines[i - 1].index, lines[i - 1].account)] else []) +
              RowsOf(lines[i..hi])
  {
    assert lines[i - 1..hi][1..] == lines[i..hi];
  }

  lemma {:induction false} RowsOfEmpty(lines: seq<LineView>)
    requires forall k :: 0 <= k < |lines| ==> !lines[k].Row?
    ensures RowsOf(lines) == []
  {
    if lines != [] { RowsOfEmpty(lines[1..]); }
  }

  lemma {:induction false} RowsOfAppend(a: seq<LineView>, b: seq<LineView>)
    ensures RowsOf(a + b) == RowsOf(a) + RowsOf(b)
  {
    if a == [] {
      assert a + b == b;
    } else {
      var first := if a[0].Row? then [AccountOption(a[0].index, a[0].account)] else [];
      assert (a + b)[1..] == a[1..] + b && (a + b)[0] == a[0];
      RowsOfAppend(a[1..], b);
      assert RowsOf(a + b) == first + (RowsOf(a[1..]) + RowsOf(b));
      assert first + (RowsOf(a[1..]) + RowsOf(b)) == (first + RowsOf(a[1..])) + RowsOf(b);
    }
  }

  /** Nothing below row hi: the block's bottom may slide over lines that are not rows. */
  lemma RowsToEnd(lines: seq<LineView>, lo: int, hi: int)
    requires 0 <= lo <= hi <= |lines|
    requires forall k :: hi <= k < |lines| ==> !lines[k].Row?
    ensures RowsOf(lines[lo..hi]) == RowsOf(lines[lo..])
  {
    assert lines[lo..] == lines[lo..hi] + lines[hi..];
    RowsOfAppend(lines[lo..hi], lines[hi..]);
    RowsOfEmpty(lines[hi..]);
  }

  /** Two blocks of the same lines have the same rows, unless the cap cut one of them. */
  lemma BlockUnique(lines: seq<LineView>, lo: int, hi: int, options: seq<AccountOption>,
                    lo': int, hi': int, options': seq<AccountOption>)
    requires IsBlock(lines, lo, hi, options) && IsBlock(lines, lo', hi', options')
    requires options' != [] && |options'| < MAX_OPTIONS
    ensures options == options'
  {
    RowsToEnd(lines, lo, hi);
    RowsToEnd(lines, lo', hi');
    if lo < lo' {
      // lines[lo' - 1] is foreign text, so the other block must lie wholly above it: but then options' would be
      // rows below it.
      assert lines[lo' - 1].Other?;
      assert hi < lo';
      RowsOfEmpty(lines[lo'..]);
    } else if lo' < lo {
      assert lines[lo'..] == lines[lo'..lo] + lines[lo..];
      RowsOfAppend(lines[lo'..lo], lines[lo..]);
      if lines[lo - 1].Other? && options != [] {
        assert hi' < lo;
        RowsOfEmpty(lines[lo..]);
      }
    }
  }

  /** looksLikeMenuPrompt: only the last line that is not white space counts. */
  method LooksLikeMenuPrompt(lines: seq<string>, navPrompt: string -> bool) returns (r: bool)
    ensures r <==> exists k :: 0 <= k < |lines| && Trim(lines[k]) != [] && navPrompt(Trim(lines[k])) &&
                     forall j :: k < j < |lines| ==> Trim(lines[j]) == []
  {
    var i := |lines| - 1;
    while i >= 0
      invariant -1 <= i < |lines|
      invariant forall j :: i < j < |lines| ==> Trim(lines[j]) == []
    {
      if Trim(lines[i]) != [] {
        return navPrompt(Trim(lines[i]));
      }
      i := i - 1;
    }
    return false;
  }

  // ----- the bounded tail -----

  /** The detector's memory: the last maxTail cleaned characters, whatever the chunks were. */
  class ScreenDetector {
    const maxTail: nat
    const clean: string -> string
    var tail: string
    ghost var seen: string    // everything pushed since the last reset, cleaned chunk by chunk

    ghost predicate Valid()
      reads this
    {
      maxTail > 0 && tail == LastN(seen, maxTail)
    }

    constructor (maxTail: nat, clean: string -> string)
      requires maxTail > 0
      ensures Valid() && seen == [] && this.maxTail == maxTail && this.clean == clean
    {
      this.maxTail, this.clean := maxTail, clean;
      tail, seen := [], [];
    }

    method Push(chunk: string)
      requires Valid()
      modifies this`tail, this`seen
      ensures Valid() && seen == old(seen) + clean(chunk)
    {
      LastNAppend(seen, clean(chunk), maxTail);
      tail := LastN(tail + clean(chunk), maxTail);
      seen := seen + clean(chunk);
    }

    /** The last n characters seen, as far as the tail reaches; slice(-0) is the whole tail. */
    function TailPreview(n: nat): (r: string)
      requires Valid()
      reads this
      ensures r == LastN(seen, if n == 0 then maxTail else Min(n, maxTail))
    {
      if n == 0 then tail else LastN(tail, n)
    }

    method Reset()
      requires Valid()
      modifies this`tail, this`seen
      ensures Valid() && seen == [] && tail == []
    {
      tail, seen := [], [];
    }
  }
}
