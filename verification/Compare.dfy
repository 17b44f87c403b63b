/**
 * Comparing many hosts (src/jumpserver/compare.ts): targets are grouped by the multiset of their output
 * lines, through a serialized key. Lines are compared by their characters, as JavaScript's < does.
 */
module Compare {
  import opened Basics

  // ----- the key -----

  datatype Line = Counted(line: string, count: nat)

  /** JavaScript's < on strings. */
  predicate Less(a: string, b: string) {
    b != [] && (a == [] || a[0] < b[0] || (a[0] == b[0] && Less(a[1..], b[1..])))
  }

  lemma {:induction false} LessIrreflexive(a: string)
    ensures !Less(a, a)
  {
    if a != [] { LessIrreflexive(a[1..]); }
  }

  lemma {:induction false} LessTotal(a: string, b: string)
    ensures Less(a, b) || a == b || Less(b, a)
  {
    if a != [] && b != [] {
      LessTotal(a[1..], b[1..]);
      assert a == [a[0]] + a[1..] && b == [b[0]] + b[1..];
    }
  }

  lemma {:induction false} LessTransitive(a: string, b: string, c: string)
    requires Less(a, b) && Less(b, c)
    ensures Less(a, c)
  {
    if a != [] && a[0] == b[0] && b[0] == c[0] { LessTransitive(a[1..], b[1..], c[1..]); }
  }

  /** Put one entry into its place in a sorted list. */
  function InsertSorted(e: Line, es: seq<Line>): seq<Line> {
    if es == [] || Less(e.line, es[0].line) then [e] + es else [es[0]] + InsertSorted(e, es[1..])
  }

  /** entries.sort(by line) */
  function SortByLine(es: seq<Line>): seq<Line> {
    if es == [] then [] else InsertSorted(es[|es| - 1], SortByLine(es[..|es| - 1]))
  }

  predicate Sorted(es: seq<Line>) { forall i, k :: 0 <= i < k < |es| ==> Less(es[i].line, es[k].line) }

  predicate DistinctLines(es: seq<Line>) { forall i, k :: 0 <= i < k < |es| ==> es[i].line != es[k].line }

  lemma {:induction false} InsertKeepsSorted(e: Line, es: seq<Line>)
    requires Sorted(es) && forall x <- es :: x.line != e.line
    ensures Sorted(InsertSorted(e, es)) && multiset(InsertSorted(e, es)) == multiset(es) + multiset{e}
  {
    hide Less;
    if es != [] {
      var first, tail := es[0], es[1..];
      assert es == [first] + tail && first in es;
      if Less(e.line, first.line) {
        forall k | 0 <= k < |es| ensures Less(e.line, es[k].line) {
          if k > 0 { LessTransitive(e.line, first.line, es[k].line); }
        }
        ConsSorted(e, es);
      } else {
        LessTotal(e.line, first.line);
        InsertKeepsSorted(e, tail);
        var r := InsertSorted(e, tail);
        forall k | 0 <= k < |r| ensures Less(first.line, r[k].line) {
          assert r[k] in multiset(r);
          if r[k] != e { assert r[k] in tail; }
        }
        ConsSorted(first, r);
      }
    }
  }

  lemma ConsSorted(e: Line, es: seq<Line>)
    requires Sorted(es) && forall k :: 0 <= k < |es| ==> Less(e.line, es[k].line)
    ensures Sorted([e] + es) && multiset([e] + es) == multiset(es) + multiset{e}
  {
    hide Less;
  }

  lemma {:induction false} SortByLineSorts(es: seq<Line>)
    requires DistinctLines(es)
    ensures Sorted(SortByLine(es)) && multiset(SortByLine(es)) == multiset(es)
    decreases |es|
  {
    if es != [] {
      var front := es[..|es| - 1];
      assert es == front + [es[|es| - 1]];
      SortByLineSorts(front);
      forall x <- SortByLine(front) ensures x.line != es[|es| - 1].line {
        assert x in multiset(front);
        assert x in front;
      }
      InsertKeepsSorted(es[|es| - 1], SortByLine(front));
    }
  }

  lemma HasFirst<T>(s: seq<T>)
    ensures s == [] || s[0] in s
  {
  }

  /** A strictly sorted list is determined by its elements. */
  lemma {:induction false} SortedUnique(a: seq<Line>, b: seq<Line>)
    requires Sorted(a) && Sorted(b) && (forall x :: x in a <==> x in b)
    ensures a == b
  {
    HasFirst(b);
    if a != [] {
      assert a[0] in a && a[0] in b;
      assert b[0] in b && b[0] in a;
      var i :| 0 <= i < |b| && b[i] == a[0];
      var k :| 0 <= k < |a| && a[k] == b[0];
      if i > 0 && k > 0 {
        LessTransitive(a[0].line, b[0].line, a[0].line);
        LessIrreflexive(a[0].line);
      }
      assert a[0] == b[0];
      assert a == [a[0]] + a[1..] && b == [b[0]] + b[1..];
      forall x ensures x in a[1..] <==> x in b[1..] {
        LessIrreflexive(a[0].line);
        assert x in a[1..] ==> x in a && x != a[0];
        assert x in b[1..] ==> x in b && x != b[0];
      }
      SortedUnique(a[1..], b[1..]);
    }
  }

  /** The entries a counting map holds after these lines, in order of first occurrence. */
  function Tally(lines: seq<string>): seq<Line> {
    Counts(lines, Dedupe(lines))
  }

  function Counts(lines: seq<string>, keys: seq<string>): (r: seq<Line>)
    ensures |r| == |keys| && forall i :: 0 <= i < |r| ==> r[i] == Counted(keys[i], multiset(lines)[keys[i]])
  {
    seq(|keys|, i requires 0 <= i < |keys| => Counted(keys[i], multiset(lines)[keys[i]]))
  }

  const SEPARATOR := '\U{0000}'
  const BETWEEN := '\U{0001}'

  function Part(e: Line): string { Decimal(e.count) + [BETWEEN] + e.line }

  function Parts(es: seq<Line>): (r: seq<string>)
    ensures |r| == |es| && forall i :: 0 <= i < |r| ==> r[i] == Part(es[i])
  {
    seq(|es|, i requires 0 <= i < |es| => Part(es[i]))
  }

  /** keyOf. */
  function Key(lines: seq<string>): string { Join(Parts(SortByLine(Tally(lines))), SEPARATOR) }

  /** The entries of the counting map say exactly how often each line occurs. */
  lemma TallyIsExact(lines: seq<string>)
    ensures DistinctLines(Tally(lines))
    ensures forall e :: e in Tally(lines) <==> e.line in lines && e.count == multiset(lines)[e.line]
  {
    DedupeIsExact(lines);
    var es := Tally(lines);
    forall e: Line | e.line in lines && e.count == multiset(lines)[e.line] ensures e in es {
      var i :| 0 <= i < |Dedupe(lines)| && Dedupe(lines)[i] == e.line;
      assert es[i] == e;
    }
  }

  lemma SameMembers<T>(a: seq<T>, b: seq<T>)
    requires multiset(a) == multiset(b)
    ensures forall x :: x in a <==> x in b
  {
    forall x ensures x in a <==> x in b { assert (x in a <==> x in multiset(a)) && (x in b <==> x in multiset(b)); }
  }

  /** The sorted entries: the counting map, in order of lines. */
  function Entries(lines: seq<string>): seq<Line> { SortByLine(Tally(lines)) }

  ghost predicate Tallies(es: seq<Line>, lines: seq<string>) {
    Sorted(es) && forall e :: e in es <==> e.line in lines && e.count == multiset(lines)[e.line]
  }

  lemma EntriesTally(lines: seq<string>)
    ensures Tallies(Entries(lines), lines)
  {
    TallyIsExact(lines);
    SortByLineSorts(Tally(lines));
    SameMembers(Entries(lines), Tally(lines));
  }

  /** Nothing else is a sorted tally of these lines. */
  lemma KeyOfTally(lines: seq<string>, es: seq<Line>)
    requires Tallies(es, lines)
    ensures Entries(lines) == es && Key(lines) == Join(Parts(es), SEPARATOR)
  {
    EntriesTally(lines);
    SortedUnique(Entries(lines), es);
  }

  lemma SameMultisetSameKey(a: seq<string>, b: seq<string>)
    requires multiset(a) == multiset(b)
    ensures Key(a) == Key(b)
  {
    EntriesTally(a);
    SameMembers(a, b);
    KeyOfTally(b, Entries(a));
  }

  /** What the key writes in front of every line but the first, when that line occurs n times. */
  function Mark(n: nat): string { [SEPARATOR] + Decimal(n) + [BETWEEN] }

  /** A line that contains such a mark. */
  ghost predicate Marked(line: string) { exists i: int, n: nat :: n >= 1 && At(line, i, Mark(n)) }

  ghost predicate MarkFree(lines: seq<string>) { forall line <- lines :: !Marked(line) }

  lemma MarksHoldNul(line: string)
    requires Marked(line)
    ensures SEPARATOR in line
  {
    var i: int, n: nat :| n >= 1 && At(line, i, Mark(n));
    assert line[i] == line[i..i + |Mark(n)|][0] == SEPARATOR;
  }

  /** So every NUL-free output is mark-free. */
  lemma NulFreeIsMarkFree(lines: seq<string>)
    requires forall line <- lines :: SEPARATOR !in line
    ensures MarkFree(lines)
  {
    forall line <- lines ensures !Marked(line) {
      if Marked(line) { MarksHoldNul(line); }
    }
  }

  lemma OneNulPerMark(n: nat, k: nat, behind: string)
    requires 0 < k < |Mark(n)|
    ensures (Mark(n) + behind)[k] != SEPARATOR
  {
    var digits := Decimal(n);
    assert (Mark(n) + behind)[k] == Mark(n)[k] == if k <= |digits| then digits[k - 1] else BETWEEN;
    assert k <= |digits| ==> digits[k - 1] in digits;
  }

  lemma {:induction false} DigitsThenBetween(m: string, n: string, x: string, y: string)
    requires (forall c <- m :: IsDigit(c)) && (forall c <- n :: IsDigit(c)) && m + [BETWEEN] + x == n + [BETWEEN] + y
    ensures m == n && x == y
  {
    var s, t := m + [BETWEEN] + x, n + [BETWEEN] + y;
    HasFirst(m);
    HasFirst(n);
    assert s[0] == (if m == [] then BETWEEN else m[0]) && t[0] == (if n == [] then BETWEEN else n[0]);
    assert s[1..] == (if m == [] then x else m[1..] + [BETWEEN] + x);
    assert t[1..] == (if n == [] then y else n[1..] + [BETWEEN] + y);
    if m != [] && n != [] {
      DigitsThenBetween(m[1..], n[1..], x, y);
      assert m == [m[0]] + m[1..] && n == [n[0]] + n[1..];
    }
  }

  /** The rest of a key, behind its first part. */
  function Rest(es: seq<Line>): string {
    if es == [] then [] else Mark(es[0].count) + es[0].line + Rest(es[1..])
  }

  lemma {:induction false} JoinedParts(es: seq<Line>)
    requires es != []
    ensures Join(Parts(es), SEPARATOR) == Decimal(es[0].count) + [BETWEEN] + (es[0].line + Rest(es[1..]))
  {
    var tail := es[1..];
    assert Parts(es)[1..] == Parts(tail);
    if tail == [] {
      assert Rest(tail) == [];
    } else {
      JoinedParts(tail);
      assert Rest(tail) == [SEPARATOR] + (Decimal(tail[0].count) + [BETWEEN] + (tail[0].line + Rest(tail[1..])));
      assert Parts(es)[0] + [SEPARATOR] + Join(Parts(tail), SEPARATOR) == Parts(es)[0] + Rest(tail);
    }
  }

  ghost predicate Genuine(es: seq<Line>) { forall e <- es :: e.count >= 1 && !Marked(e.line) }

  lemma RestBeginsWithNul(w: string, b: seq<Line>)
    ensures Rest(b) == [] || (w + Rest(b))[|w|] == SEPARATOR
  {
    if b != [] { assert Rest(b)[0] == SEPARATOR; }
  }

  /** A text that begins inside a mark and ends before a mark or at the end holds the whole of the first. */
  lemma WholeMark(n: nat, behind: string, w: string, b: seq<Line>)
    requires w != [] && Mark(n) + behind == w + Rest(b)
    ensures At(w, 0, Mark(n))
  {
    var mark := Mark(n);
    if |w| < |mark| {
      RestBeginsWithNul(w, b);
      OneNulPerMark(n, |w|, behind);
      assert false;
    } else {
      assert (mark + behind)[..|mark|] == mark && (w + Rest(b))[..|mark|] == w[..|mark|];
    }
  }

  /** A line that goes on where another one ends, and a mark follows there, is marked. */
  lemma LongerIsMarked(x: string, a: seq<Line>, y: string, b: seq<Line>)
    requires Genuine(a) && |x| < |y| && x + Rest(a) == y + Rest(b)
    ensures Marked(y)
  {
    var w := y[|x|..];
    Overhang(x, Rest(a), y, Rest(b));
    assert a[0] in a;
    var n := a[0].count;
    assert Mark(n) + (a[0].line + Rest(a[1..])) == w + Rest(b);
    hide Rest;
    WholeMark(n, a[0].line + Rest(a[1..]), w, b);
    hide Mark;
    assert y[|x|..|x| + |Mark(n)|] == w[0..0 + |Mark(n)|];
    assert At(y, |x|, Mark(n));
  }

  lemma Overhang(x: string, more: string, y: string, rest: string)
    requires |x| <= |y| && x + more == y + rest
    ensures y == x + y[|x|..] && more == y[|x|..] + rest
  {
    var w := y[|x|..];
    assert y[..|x|] == (y + rest)[..|x|] == (x + more)[..|x|] == x;
    assert y + rest == x + (w + rest);
    CancelLeft(x, more, w + rest);
  }

  lemma CancelLeft(x: string, a: string, b: string)
    requires x + a == x + b
    ensures a == b
  {
    assert a == (x + a)[|x|..] && b == (x + b)[|x|..];
  }

  /** The serialization can be read back: while no line is marked, equal keys come from equal entries. */
  lemma {:induction false} ReadBack(x: string, a: seq<Line>, y: string, b: seq<Line>)
    requires Genuine(a) && Genuine(b) && !Marked(x) && !Marked(y) && x + Rest(a) == y + Rest(b)
    ensures x == y && a == b
    decreases |a|
  {
    if |x| < |y| { LongerIsMarked(x, a, y, b); }
    if |y| < |x| { LongerIsMarked(y, b, x, a); }
    assert |x| == |y|;
    assert (x + Rest(a))[..|x|] == x && (y + Rest(b))[..|x|] == y;
    CancelLeft(x, Rest(a), Rest(b));
    if a != [] && b != [] {
      var e, f := a[0], b[0];
      SameEntry(e, f, Rest(a[1..]), Rest(b[1..]));
      ReadBack(e.line, a[1..], f.line, b[1..]);
      assert a == [e] + a[1..] && b == [f] + b[1..];
    }
  }

  lemma SameEntry(e: Line, f: Line, more: string, rest: string)
    requires Mark(e.count) + e.line + more == Mark(f.count) + f.line + rest
    ensures e.count == f.count && e.line + more == f.line + rest
  {
    var s, t := Decimal(e.count) + [BETWEEN] + (e.line + more), Decimal(f.count) + [BETWEEN] + (f.line + rest);
    assert [SEPARATOR] + s == Mark(e.count) + e.line + more && [SEPARATOR] + t == Mark(f.count) + f.line + rest;
    CancelLeft([SEPARATOR], s, t);
    SameHead(e.count, f.count, e.line + more, f.line + rest);
  }

  lemma SameHead(m: nat, n: nat, x: string, y: string)
    requires Decimal(m) + [BETWEEN] + x == Decimal(n) + [BETWEEN] + y
    ensures m == n && x == y
  {
    DigitsThenBetween(Decimal(m), Decimal(n), x, y);
    DecimalRoundTrip(m);
    DecimalRoundTrip(n);
  }

  lemma SameKeySameEntries(a: seq<Line>, b: seq<Line>)
    requires Genuine(a) && Genuine(b) && Join(Parts(a), SEPARATOR) == Join(Parts(b), SEPARATOR)
    ensures a == b
  {
    if a != [] { JoinedParts(a); }
    if b != [] { JoinedParts(b); }
    if a != [] && b != [] {
      assert a[0] in a && b[0] in b;
      SameHead(a[0].count, b[0].count, a[0].line + Rest(a[1..]), b[0].line + Rest(b[1..]));
      ReadBack(a[0].line, a[1..], b[0].line, b[1..]);
      assert a == [a[0]] + a[1..] && b == [b[0]] + b[1..];
    }
  }

  lemma SameTallySameMultiset(a: seq<string>, b: seq<string>, es: seq<Line>)
    requires Tallies(es, a) && Tallies(es, b)
    ensures multiset(a) == multiset(b)
  {
    forall x: string ensures multiset(a)[x] == multiset(b)[x] {
      assert x in a <==> Counted(x, multiset(a)[x]) in es;
      assert x in b <==> Counted(x, multiset(b)[x]) in es;
      assert (x in a <==> x in multiset(a)) && (x in b <==> x in multiset(b));
    }
  }

  lemma TalliesAreGenuine(es: seq<Line>, lines: seq<string>)
    requires Tallies(es, lines) && MarkFree(lines)
    ensures Genuine(es)
  {
    forall e <- es ensures e.count >= 1 && !Marked(e.line) {
      assert e.line in multiset(lines);
    }
  }

  /**
   * The comparison is exact on unmarked lines, NUL-free ones among them: two outputs get the same key
   * iff they are equal as multisets of lines. EveryMarkCollides shows that no mark can be allowed.
   */
  lemma KeyIffMultiset(a: seq<string>, b: seq<string>)
    requires MarkFree(a) && MarkFree(b)
    ensures Key(a) == Key(b) <==> multiset(a) == multiset(b)
  {
    if multiset(a) == multiset(b) { SameMultisetSameKey(a, b); }
    if Key(a) == Key(b) {
      EntriesTally(a);
      EntriesTally(b);
      TalliesAreGenuine(Entries(a), a);
      TalliesAreGenuine(Entries(b), b);
      SameKeySameEntries(Entries(a), Entries(b));
      SameTallySameMultiset(a, b, Entries(a));
    }
  }

  // ----- lists without duplicates -----

  /** dedupeStable: the first occurrences, in order. */
  function Dedupe(lines: seq<string>): seq<string> {
    if lines == [] then []
    else
      var front, last := lines[..|lines| - 1], lines[|lines| - 1];
      Dedupe(front) + if last in front then [] else [last]
  }

  predicate NoDuplicates<T(==)>(s: seq<T>) { forall i, k :: 0 <= i < k < |s| ==> s[i] != s[k] }

  lemma {:induction false} DedupeIsExact(lines: seq<string>)
    ensures NoDuplicates(Dedupe(lines)) && forall x :: x in Dedupe(lines) <==> x in lines
    decreases |lines|
  {
    if lines != [] {
      var front := lines[..|lines| - 1];
      DedupeIsExact(front);
      assert lines == front + [lines[|lines| - 1]];
    }
  }

  /** Where x occurs first. */
  function First(lines: seq<string>, x: string): nat {
    if lines == [] || lines[0] == x then 0 else 1 + First(lines[1..], x)
  }

  /** Every line once, in the order in which they first appear. */
  ghost predicate FirstOccurrences(shown: seq<string>, lines: seq<string>) {
    (forall x :: x in shown <==> x in lines) &&
    forall i, k :: 0 <= i < k < |shown| ==> First(lines, shown[i]) < First(lines, shown[k])
  }

  lemma {:induction false} FirstAppend(front: seq<string>, last: string, x: string)
    ensures First(front + [last], x) == (if x in front then First(front, x) else if x == last then |front|
                                         else |front| + 1)
    ensures x in front ==> First(front, x) < |front|
  {
    if front != [] {
      FirstAppend(front[1..], last, x);
      assert front == [front[0]] + front[1..] && (front + [last])[1..] == front[1..] + [last];
    }
  }

  lemma {:induction false} DedupeKeepsOrder(lines: seq<string>)
    ensures FirstOccurrences(Dedupe(lines), lines)
    decreases |lines|
  {
    DedupeIsExact(lines);
    if lines != [] {
      var front, last := lines[..|lines| - 1], lines[|lines| - 1];
      DedupeKeepsOrder(front);
      DedupeIsExact(front);
      assert lines == front + [last];
      var shown, before := Dedupe(lines), Dedupe(front);
      hide First, Dedupe;
      forall x | x in front || x == last ensures First(lines, x) == if x in front then First(front, x) else |front| {
        FirstAppend(front, last, x);
      }
      forall i, k | 0 <= i < k < |shown| ensures First(lines, shown[i]) < First(lines, shown[k]) {
        assert shown[i] in before && shown[i] in front;
        FirstAppend(front, last, shown[i]);
        assert shown[k] in lines;
      }
    }
  }

  method DedupeStable(lines: seq<string>) returns (out: seq<string>)
    ensures out == Dedupe(lines)
    ensures NoDuplicates(out) && FirstOccurrences(out, lines)
  {
    hide First, FirstOccurrences;
    var seen: set<string> := {};
    out := [];
    var i := 0;
    while i < |lines|
      invariant 0 <= i <= |lines| && out == Dedupe(lines[..i]) && forall x :: x in seen <==> x in lines[..i]
    {
      var line := lines[i];
      assert lines[..i + 1][..i] == lines[..i];
      i := i + 1;
      if line in seen {
        continue;
      }
      seen := seen + {line};
      out := out + [line];
    }
    assert lines[..|lines|] == lines;
    DedupeIsExact(lines);
    DedupeKeepsOrder(lines);
  }

  // ----- multiset difference -----

  /** The lines of `from` beyond what `against` accounts for, in order. */
  function Diff(from: seq<string>, against: seq<string>): seq<string> {
    if from == [] then []
    else
      var front, last := from[..|from| - 1], from[|from| - 1];
      Diff(front, against) + if multiset(front)[last] < multiset(against)[last] then [] else [last]
  }

  lemma {:induction false} DiffIsDifference(from: seq<string>, against: seq<string>)
    ensures multiset(Diff(from, against)) == multiset(from) - multiset(against)
    decreases |from|
  {
    if from != [] {
      var front := from[..|from| - 1];
      DiffIsDifference(front, against);
      assert from == front + [from[|from| - 1]];
    }
  }

  /** counts.get(line) ?? 0 */
  function Left(counts: map<string, nat>, line: string): nat { if line in counts then counts[line] else 0 }

  /** What is left of the counts of `against` after some lines were taken off. */
  ghost predicate Remaining(counts: map<string, nat>, against: seq<string>, taken: seq<string>) {
    forall x :: Left(counts, x) == Max(0, multiset(against)[x] as int - multiset(taken)[x] as int)
  }

  method CountLines(lines: seq<string>) returns (counts: map<string, nat>)
    ensures Remaining(counts, lines, [])
  {
    counts := map[];
    var i := 0;
    while i < |lines|
      invariant 0 <= i <= |lines| && forall x :: Left(counts, x) == multiset(lines[..i])[x]
    {
      assert lines[..i + 1] == lines[..i] + [lines[i]];
      counts := counts[lines[i] := Left(counts, lines[i]) + 1];
      i := i + 1;
    }
    assert lines[..|lines|] == lines;
  }

  function TakeOff(counts: map<string, nat>, line: string): map<string, nat> {
    if Left(counts, line) > 0 then counts[line := Left(counts, line) - 1] else counts
  }

  lemma TakeOne(counts: map<string, nat>, against: seq<string>, taken: seq<string>, line: string)
    requires Remaining(counts, against, taken)
    ensures Remaining(TakeOff(counts, line), against, taken + [line])
    ensures Left(counts, line) > 0 <==> multiset(taken)[line] < multiset(against)[line]
  {
  }

  lemma DiffStep(from: seq<string>, against: seq<string>, i: nat)
    requires i < |from|
    ensures from[..i + 1] == from[..i] + [from[i]]
    ensures Diff(from[..i + 1], against) ==
            Diff(from[..i], against) + if multiset(from[..i])[from[i]] < multiset(against)[from[i]] then []
              else [from[i]]
  {
    assert from[..i + 1][..i] == from[..i];
  }

  method MultisetDifference(from: seq<string>, against: seq<string>) returns (out: seq<string>)
    ensures out == Diff(from, against)
    ensures multiset(out) == multiset(from) - multiset(against)
  {
    DiffIsDifference(from, against);
    var counts := CountLines(against);
    out := [];
    var i := 0;
    hide Remaining, Diff;
    assert from[..0] == [] && from[..|from|] == from && Diff([], against) == [] by { NothingLeft(against); }
    while i < |from|
      invariant 0 <= i <= |from| && out == Diff(from[..i], against) && Remaining(counts, against, from[..i])
    {
      var line := from[i];
      DiffStep(from, against, i);
      TakeOne(counts, against, from[..i], line);
      var left := Left(counts, line);
      i := i + 1;
      if left > 0 {
        counts := counts[line := left - 1];
        continue;
      }
      out := out + [line];
    }
  }

  lemma NothingLeft(against: seq<string>)
    ensures Diff([], against) == []
  {
  }

  /** Taking the missing lines from the reference and adding the extra ones gives the target's lines. */
  lemma MissingAndExtraExplain(reference: seq<string>, target: seq<string>)
    ensures multiset(reference) - multiset(Diff(reference, target)) + multiset(Diff(target, reference)) ==
            multiset(target)
    ensures multiset(reference) == multiset(target) <==> Diff(reference, target) == [] && Diff(target, reference) == []
  {
    DiffIsDifference(reference, target);
    DiffIsDifference(target, reference);
    EmptyOfSize(Diff(reference, target));
    EmptyOfSize(Diff(target, reference));
    hide Diff;
    Differences(multiset(reference), multiset(target));
  }

  lemma EmptyOfSize(lines: seq<string>)
    ensures lines == [] <==> multiset(lines) == multiset{}
  {
    if lines != [] { assert lines[0] in multiset(lines); }
  }

  lemma Differences(r: multiset<string>, t: multiset<string>)
    ensures r - (r - t) + (t - r) == t
    ensures r == t <==> r - t == multiset{} && t - r == multiset{}
  {
    if r - t == multiset{} && t - r == multiset{} {
      forall x: string ensures r[x] == t[x] { assert (r - t)[x] == 0 && (t - r)[x] == 0; }
    }
  }
}
