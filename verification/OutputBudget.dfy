/**
 * The output budget (src/jumpserver/output-budget.ts): over-long lines are folded in the middle, then the
 * text is cut to a byte budget at whole lines, and what was left out is announced.
 */
module OutputBudget {
  import opened Basics
  import opened Utf8

  // ----- cutting to bytes -----

  function TakeHead(text: string, maxBytes: int): string {
    if text == [] || CharBytes(text[0]) > maxBytes then []
    else [text[0]] + TakeHead(text[1..], maxBytes - CharBytes(text[0]))
  }

  function TakeTail(text: string, maxBytes: int): string {
    if text == [] || CharBytes(text[|text| - 1]) > maxBytes then []
    else TakeTail(text[..|text| - 1], maxBytes - CharBytes(text[|text| - 1])) + [text[|text| - 1]]
  }

  /** takeHeadBytes: the longest prefix that fits. */
  method TakeHeadBytes(text: string, maxBytes: int) returns (r: string)
    ensures r == TakeHead(text, maxBytes)
    ensures r <= text && Bytes(r) <= Max(0, maxBytes)
    ensures forall k :: 0 <= k <= |text| && Bytes(text[..k]) <= maxBytes ==> k <= |r|
  {
    var bytes := 0;
    r := [];
    var i := 0;
    WholeSeq(text);
    hide Bytes, TakeHead;
    while i < |text|
      invariant 0 <= i <= |text| && r == text[..i]
      invariant TakeHead(text, maxBytes) == r + TakeHead(text[i..], maxBytes - bytes)
    {
      var ch := text[i];
      var size := CharBytes(ch);
      if bytes + size > maxBytes { break; }
      HeadStep(text, maxBytes - bytes, i, r);
      bytes := bytes + size;
      r := r + [ch];
      i := i + 1;
    }
    HeadEnd(text[i..], maxBytes - bytes);
    HeadIsLongest(text, maxBytes);
  }

  /** takeTailBytes: the longest suffix that fits. */
  method TakeTailBytes(text: string, maxBytes: int) returns (r: string)
    ensures r == TakeTail(text, maxBytes)
    ensures |r| <= |text| && r == text[|text| - |r|..] && Bytes(r) <= Max(0, maxBytes)
    ensures forall k :: 0 <= k <= |text| && Bytes(text[k..]) <= maxBytes ==> |text| - k <= |r|
  {
    var bytes := 0;
    r := [];
    var i := |text| - 1;
    assert text[..|text|] == text;
    hide Bytes;
    while i >= 0
      invariant -1 <= i < |text| && r == text[i + 1..]
      invariant TakeTail(text, maxBytes) == TakeTail(text[..i + 1], maxBytes - bytes) + r
    {
      var ch := text[i];
      var size := CharBytes(ch);
      if bytes + size > maxBytes { break; }
      TailStep(text, maxBytes - bytes, i, r);
      bytes := bytes + size;
      r := [ch] + r;
      i := i - 1;
    }
    hide TakeTail;
    TailIsLongest(text, maxBytes);
  }

  lemma HeadStep(text: string, room: int, i: nat, r: string)
    requires i < |text| && CharBytes(text[i]) <= room
    ensures r + TakeHead(text[i..], room) == (r + [text[i]]) + TakeHead(text[i + 1..], room - CharBytes(text[i]))
  {
    assert text[i..][1..] == text[i + 1..];
  }

  lemma HeadEnd(text: string, room: int)
    requires text == [] || CharBytes(text[0]) > room
    ensures TakeHead(text, room) == []
  {
  }

  lemma TailStep(text: string, room: int, i: nat, r: string)
    requires i < |text| && CharBytes(text[i]) <= room
    ensures TakeTail(text[..i + 1], room) + r == TakeTail(text[..i], room - CharBytes(text[i])) + ([text[i]] + r)
  {
    assert text[..i + 1][..i] == text[..i];
  }

  lemma {:induction false} HeadIsLongest(text: string, maxBytes: int)
    ensures var r := TakeHead(text, maxBytes);
            r <= text && Bytes(r) <= Max(0, maxBytes) &&
            forall k :: 0 <= k <= |text| && Bytes(text[..k]) <= maxBytes ==> k <= |r|
  {
    if text != [] {
      var c := CharBytes(text[0]);
      forall k | 0 < k <= |text| ensures Bytes(text[..k]) == c + Bytes(text[1..][..k - 1]) {
        assert text[..k][1..] == text[1..][..k - 1];
      }
      if c <= maxBytes { HeadIsLongest(text[1..], maxBytes - c); }
    }
  }

  lemma SuffixSnoc(text: string, k: nat)
    requires k < |text|
    ensures text[k..] == text[..|text| - 1][k..] + [text[|text| - 1]]
  {
  }

  lemma {:induction false} TailShape(text: string, maxBytes: int)
    ensures |TakeTail(text, maxBytes)| <= |text| &&
            TakeTail(text, maxBytes) == text[|text| - |TakeTail(text, maxBytes)|..]
    decreases |text|
  {
    hide Bytes;
    if text != [] && CharBytes(text[|text| - 1]) <= maxBytes {
      var n := |text| - 1;
      TailShape(text[..n], maxBytes - CharBytes(text[n]));
      var t := TakeTail(text[..n], maxBytes - CharBytes(text[n]));
      SuffixSnoc(text, n - |t|);
    }
  }

  lemma {:induction false} TailBytes(text: string, maxBytes: int)
    ensures Bytes(TakeTail(text, maxBytes)) <= Max(0, maxBytes)
    decreases |text|
  {
    if text != [] && CharBytes(text[|text| - 1]) <= maxBytes {
      var n := |text| - 1;
      TailBytes(text[..n], maxBytes - CharBytes(text[n]));
      BytesAppend(TakeTail(text[..n], maxBytes - CharBytes(text[n])), [text[n]]);
      OneChar(text[n]);
      hide Bytes;
    }
  }

  lemma OneChar(c: char)
    ensures Bytes([c]) == CharBytes(c)
  {
  }

  lemma TailIsSuffix(text: string, maxBytes: int)
    ensures var r := TakeTail(text, maxBytes);
            |r| <= |text| && r == text[|text| - |r|..] && Bytes(r) <= Max(0, maxBytes)
  {
    TailShape(text, maxBytes);
    TailBytes(text, maxBytes);
    hide TakeTail, Bytes;
  }

  lemma {:induction false} TailIsMaximal(text: string, maxBytes: int, k: nat)
    requires k <= |text| && Bytes(text[k..]) <= maxBytes
    ensures |text| - k <= |TakeTail(text, maxBytes)|
    decreases |text|
  {
    if k < |text| {
      var n := |text| - 1;
      var front := text[..n];
      assert text[k..] == front[k..] + [text[n]];
      BytesAppend(front[k..], [text[n]]);
      TailIsMaximal(front, maxBytes - CharBytes(text[n]), k);
    }
  }

  lemma TailIsLongest(text: string, maxBytes: int)
    ensures var r := TakeTail(text, maxBytes);
            |r| <= |text| && r == text[|text| - |r|..] && Bytes(r) <= Max(0, maxBytes) &&
            forall k :: 0 <= k <= |text| && Bytes(text[k..]) <= maxBytes ==> |text| - k <= |r|
  {
    TailIsSuffix(text, maxBytes);
    forall k | 0 <= k <= |text| && Bytes(text[k..]) <= maxBytes ensures |text| - k <= |TakeTail(text, maxBytes)| {
      TailIsMaximal(text, maxBytes, k);
    }
  }

  // ----- folding one line -----

  const OMITTED_MARKER := "[…省略 "
  const BYTES_MARKER := " 字节…]"

  function Keep(maxLineBytes: int): int { Max(64, maxLineBytes / 2) }

  /** The number a folded line announces. */
  function Announced(line: string, maxLineBytes: int): nat {
    var keep := Keep(maxLineBytes);
    Max(0, Bytes(line) - Bytes(TakeHead(line, keep)) - Bytes(TakeTail(line, keep)))
  }

  /** foldOversizedLine; maxLineBytes is at least 1 where it is used. */
  function FoldOversizedLine(line: string, maxLineBytes: int): string {
    if Bytes(line) <= maxLineBytes then line
    else
      var keep := Keep(maxLineBytes);
      TakeHead(line, keep) + OMITTED_MARKER + Decimal(Announced(line, maxLineBytes)) + BYTES_MARKER +
        TakeTail(line, keep)
  }

  /** A folded line shows and announces exactly the bytes it had. */
  predicate Accounts(line: string, maxLineBytes: int) {
    var keep := Keep(maxLineBytes);
    Bytes(TakeHead(line, keep)) + Announced(line, maxLineBytes) + Bytes(TakeTail(line, keep)) == Bytes(line)
  }

  /** Character k fits both ends: everything up to it takes at most keep bytes, and so does everything from it on. */
  predicate FitsBothEnds(line: string, keep: int, k: nat)
    requires k < |line|
  {
    Bytes(line[..k + 1]) <= keep && Bytes(line[k..]) <= keep
  }

  /** A folded line accounts for every byte if and only if no character of it fits both ends. */
  lemma FoldAccountsIff(line: string, maxLineBytes: int)
    ensures Accounts(line, maxLineBytes) <==> forall k :: 0 <= k < |line| ==> !FitsBothEnds(line, Keep(maxLineBytes), k)
  {
    var keep := Keep(maxLineBytes);
    HeadIsLongest(line, keep);
    TailIsLongest(line, keep);
    var head, tail := TakeHead(line, keep), TakeTail(line, keep);
    hide TakeHead, TakeTail, Bytes;
    assert head == line[..|head|];
    if |head| + |tail| > |line| {
      EndsOverlap(line, |head|, |tail|);
      EndsShrink(line, |head|, |tail|, |head| - 1);
      assert FitsBothEnds(line, keep, |head| - 1);
    } else {
      EndsOverlap(line, |head|, |tail|);
      forall k | 0 <= k < |line| ensures !FitsBothEnds(line, keep, k) {
        assert FitsBothEnds(line, keep, k) ==> k + 1 <= |head| && |line| - k <= |tail|;
      }
    }
  }

  /** The bytes of two ends against the whole: what they share is counted twice. */
  lemma EndsOverlap(line: string, h: nat, t: nat)
    requires h <= |line| && t <= |line|
    ensures h + t <= |line| <==> Bytes(line[..h]) + Bytes(line[|line| - t..]) <= Bytes(line)
  {
    hide Bytes;
    BytesSplit(line, h);
    var tail := line[|line| - t..];
    if h + t <= |line| {
      var rest := line[h..];
      BytesSplit(rest, |rest| - t);
      assert rest[|rest| - t..] == tail;
    } else {
      var shared := t - (|line| - h);
      BytesSplit(tail, shared);
      assert line[h..] == tail[shared..] && |tail[..shared]| > 0;
    }
  }

  /** A shorter prefix and a shorter suffix take no more bytes. */
  lemma EndsShrink(line: string, h: nat, t: nat, k: nat)
    requires h <= |line| && t <= |line| && k < |line| && k + 1 <= h && |line| - k <= t
    ensures Bytes(line[..k + 1]) <= Bytes(line[..h]) && Bytes(line[k..]) <= Bytes(line[|line| - t..])
  {
    var head, tail := line[..h], line[|line| - t..];
    BytesSplit(head, k + 1);
    BytesSplit(tail, k - (|line| - t));
    assert head[..k + 1] == line[..k + 1] && tail[k - (|line| - t)..] == line[k..];
    hide Bytes;
  }

  /** For a line of single-byte characters: exactly when it is at least as long as both ends together. */
  lemma {:induction false} AsciiFoldAccountsIff(line: string, maxLineBytes: int)
    requires Ascii(line) && 0 <= maxLineBytes < Bytes(line)
    ensures Accounts(line, maxLineBytes) <==> |line| >= 2 * Keep(maxLineBytes)
  {
    var keep := Keep(maxLineBytes);
    FoldAccountsIff(line, maxLineBytes);
    hide Accounts;
    forall k | 0 <= k < |line| ensures FitsBothEnds(line, keep, k) <==> k + 1 <= keep && |line| - k <= keep {
      AsciiBytes(line[..k + 1]);
      AsciiBytes(line[k..]);
      hide Bytes;
    }
    AsciiBytes(line);
    hide Bytes;
    var k := Min(keep, |line|) - 1;
    if |line| < 2 * keep { assert FitsBothEnds(line, keep, k); }
  }

  /** h characters are as long a prefix as fits half of the threshold, and t characters as long a suffix. */
  ghost predicate LongestEnds(line: string, half: nat, h: nat, t: nat) {
    h + t <= |line| && Bytes(line[..h]) <= half && Bytes(line[|line| - t..]) <= half &&
    (forall k :: h < k <= |line| ==> Bytes(line[..k]) > half) &&
    (forall k :: 0 <= k < |line| - t ==> Bytes(line[k..]) > half)
  }

  /**
   * From a threshold of 128 on, an over-long line shows as much of its beginning and of its end as half of the
   * threshold allows each, and in between announces exactly the bytes it leaves out.
   */
  lemma LongThresholdAccounts(line: string, maxLineBytes: int) returns (h: nat, t: nat)
    requires 128 <= maxLineBytes < Bytes(line)
    ensures LongestEnds(line, maxLineBytes / 2, h, t)
    ensures FoldOversizedLine(line, maxLineBytes) ==
            line[..h] + OMITTED_MARKER + Decimal(Bytes(line[h..|line| - t])) + BYTES_MARKER + line[|line| - t..]
  {
    hide Bytes, TakeHead, TakeTail, FoldOversizedLine, Decimal;
    var half := Keep(maxLineBytes);
    h, t := |TakeHead(line, half)|, |TakeTail(line, half)|;
    EndsAreLongest(line, half);
    TooLongToMeet(line, half, h, t);
    MiddleBytes(line, h, t);
    FoldedForm(line, maxLineBytes, h, t);
  }

  lemma EndsAreLongest(line: string, half: nat)
    ensures var h, t := |TakeHead(line, half)|, |TakeTail(line, half)|;
            h <= |line| && t <= |line| && line[..h] == TakeHead(line, half) &&
            line[|line| - t..] == TakeTail(line, half) &&
            Bytes(line[..h]) <= half && Bytes(line[|line| - t..]) <= half &&
            (forall k :: h < k <= |line| ==> Bytes(line[..k]) > half) &&
            (forall k :: 0 <= k < |line| - t ==> Bytes(line[k..]) > half)
  {
    hide Bytes, TakeHead, TakeTail;
    HeadIsLongest(line, half);
    TailIsLongest(line, half);
  }

  lemma FoldedForm(line: string, maxLineBytes: int, h: nat, t: nat)
    requires maxLineBytes < Bytes(line) && h + t <= |line|
    requires var half := Keep(maxLineBytes);
             line[..h] == TakeHead(line, half) && line[|line| - t..] == TakeTail(line, half)
    requires Bytes(line) == Bytes(line[..h]) + Bytes(line[h..|line| - t]) + Bytes(line[|line| - t..])
    ensures FoldOversizedLine(line, maxLineBytes) ==
            line[..h] + OMITTED_MARKER + Decimal(Bytes(line[h..|line| - t])) + BYTES_MARKER + line[|line| - t..]
  {
    hide Bytes, TakeHead, TakeTail, Decimal, OMITTED_MARKER, BYTES_MARKER, FoldOversizedLine, Announced;
    FoldParts(line, maxLineBytes);
    AnnouncedIs(line, maxLineBytes, Bytes(line[h..|line| - t]));
  }

  lemma FoldParts(line: string, maxLineBytes: int)
    requires maxLineBytes < Bytes(line)
    ensures FoldOversizedLine(line, maxLineBytes) ==
            TakeHead(line, Keep(maxLineBytes)) + OMITTED_MARKER + Decimal(Announced(line, maxLineBytes)) +
            BYTES_MARKER + TakeTail(line, Keep(maxLineBytes))
  {
    hide Bytes, TakeHead, TakeTail, Decimal, OMITTED_MARKER, BYTES_MARKER, Announced, Keep;
  }

  lemma AnnouncedIs(line: string, maxLineBytes: int, omitted: nat)
    requires var keep := Keep(maxLineBytes);
             Bytes(line) == Bytes(TakeHead(line, keep)) + omitted + Bytes(TakeTail(line, keep))
    ensures Announced(line, maxLineBytes) == omitted
  {
    hide Bytes, TakeHead, TakeTail, Keep;
  }

  /** Two ends that take less than the line together do not overlap. */
  lemma TooLongToMeet(line: string, half: nat, h: nat, t: nat)
    requires h <= |line| && t <= |line| && Bytes(line) > 2 * half
    requires Bytes(line[..h]) <= half && Bytes(line[|line| - t..]) <= half
    ensures h + t <= |line|
  {
    EndsOverlap(line, h, t);
    hide Bytes;
  }

  lemma MiddleBytes(line: string, h: nat, t: nat)
    requires h + t <= |line|
    ensures Bytes(line) == Bytes(line[..h]) + Bytes(line[h..|line| - t]) + Bytes(line[|line| - t..])
  {
    hide Bytes;
    BytesSplit(line, h);
    var rest := line[h..];
    BytesSplit(rest, |rest| - t);
    assert rest[..|rest| - t] == line[h..|line| - t] && rest[|rest| - t..] == line[|line| - t..];
  }

  /** A line within the threshold is left alone. */
  lemma ShortLineStays(line: string, maxLineBytes: int)
    ensures Bytes(line) <= maxLineBytes ==> FoldOversizedLine(line, maxLineBytes) == line
  {
  }

  /** Below 128 the two kept ends can overlap: a hundred characters folded at ten are told as nothing omitted. */
  lemma ShortThresholdOverlaps()
    ensures var line := seq(100, i => 'a');
            Bytes(line) > 10 && Announced(line, 10) == 0 && !Accounts(line, 10) &&
            Bytes(TakeHead(line, Keep(10))) + Bytes(TakeTail(line, Keep(10))) == 128
  {
    AllOneByte(seq(100, i => 'a'), 64);
  }

  lemma AllOneByte(line: string, keep: nat)
    requires Ascii(line) && |line| >= keep
    ensures Bytes(line) == |line| && Bytes(TakeHead(line, keep)) == keep && Bytes(TakeTail(line, keep)) == keep
  {
    HeadIsLongest(line, keep);
    TailIsLongest(line, keep);
    var head, tail := TakeHead(line, keep), TakeTail(line, keep);
    hide TakeHead, TakeTail;
    AsciiBytes(line);
    AsciiBytes(line[..keep]);
    AsciiBytes(line[|line| - keep..]);
    AsciiBytes(head);
    AsciiBytes(tail);
    hide Bytes;
  }

  function FoldAll(lines: seq<string>, maxLineBytes: int): (r: seq<string>)
    ensures |r| == |lines| && forall i :: 0 <= i < |r| ==> r[i] == FoldOversizedLine(lines[i], maxLineBytes)
  {
    seq(|lines|, i requires 0 <= i < |lines| => FoldOversizedLine(lines[i], maxLineBytes))
  }

  /** foldOversizedLines. */
  function FoldOversizedLines(text: string, maxLineBytes: int): string {
    if maxLineBytes <= 0 then text else Join(FoldAll(Split(text, '\n'), maxLineBytes), '\n')
  }

  lemma FoldedLineIsOneLine(line: string, maxLineBytes: int)
    requires '\n' !in line
    ensures '\n' !in FoldOversizedLine(line, maxLineBytes)
  {
    var keep := Keep(maxLineBytes);
    HeadIsLongest(line, keep);
    TailIsLongest(line, keep);
    var head, tail, number := TakeHead(line, keep), TakeTail(line, keep), Decimal(Announced(line, maxLineBytes));
    assert '\n' !in head && '\n' !in tail && '\n' !in number;
    hide TakeHead, TakeTail, Bytes, Announced, Decimal;
    MarkersAreOneLine();
  }

  lemma MarkersAreOneLine()
    ensures '\n' !in OMITTED_MARKER && '\n' !in BYTES_MARKER
  {
  }

  /** Folding changes no line count. */
  lemma FoldKeepsLines(text: string, maxLineBytes: int)
    ensures Split(FoldOversizedLines(text, maxLineBytes), '\n') ==
            if maxLineBytes <= 0 then Split(text, '\n') else FoldAll(Split(text, '\n'), maxLineBytes)
  {
    if maxLineBytes > 0 {
      var lines := Split(text, '\n');
      forall l <- FoldAll(lines, maxLineBytes) ensures '\n' !in l {
        var i :| 0 <= i < |lines| && l == FoldOversizedLine(lines[i], maxLineBytes);
        FoldedLineIsOneLine(lines[i], maxLineBytes);
      }
      SplitJoin(FoldAll(lines, maxLineBytes), '\n');
    }
  }

  // ----- whole lines within a byte budget -----

  function TakeLines(lines: seq<string>, maxBytes: int): seq<string> {
    if lines == [] || Bytes(lines[0]) + 1 > maxBytes then []
    else [lines[0]] + TakeLines(lines[1..], maxBytes - Bytes(lines[0]) - 1)
  }

  /** The bytes of lines that each end in a line break. */
  function Size(lines: seq<string>): nat {
    if lines == [] then 0 else Bytes(lines[0]) + 1 + Size(lines[1..])
  }

  lemma {:induction false} SizeAppend(a: seq<string>, b: seq<string>)
    ensures Size(a + b) == Size(a) + Size(b)
  {
    if a == [] {
      assert a + b == b;
    } else {
      assert (a + b)[1..] == a[1..] + b;
      SizeAppend(a[1..], b);
    }
  }

  /** Joining needs one line break less than there are lines. */
  lemma {:induction false} JoinSize(lines: seq<string>)
    ensures Bytes(Join(lines, '\n')) == if lines == [] then 0 else Size(lines) - 1
  {
    if |lines| == 1 {
      assert lines[1..] == [];
    } else if lines != [] {
      JoinSize(lines[1..]);
      BytesAppend(lines[0] + ['\n'], Join(lines[1..], '\n'));
      BytesAppend(lines[0], ['\n']);
      assert Bytes(['\n']) == 1;
    }
  }

  lemma {:induction false} TakeLinesIsLongest(lines: seq<string>, maxBytes: int)
    ensures var r := TakeLines(lines, maxBytes);
            r <= lines && Size(r) <= Max(0, maxBytes) &&
            forall k :: 0 <= k <= |lines| && Size(lines[..k]) <= maxBytes ==> k <= |r|
  {
    if lines != [] {
      var c := Bytes(lines[0]) + 1;
      forall k | 0 < k <= |lines| ensures Size(lines[..k]) == c + Size(lines[1..][..k - 1]) {
        assert lines[..k][1..] == lines[1..][..k - 1];
      }
      if c <= maxBytes { TakeLinesIsLongest(lines[1..], maxBytes - c); }
    }
  }

  /** takeHeadBytesFromLines: the longest run of leading lines that fits. */
  method TakeHeadBytesFromLines(lines: seq<string>, maxBytes: int) returns (out: seq<string>)
    ensures out == TakeLines(lines, maxBytes)
    ensures out <= lines && Size(out) <= Max(0, maxBytes)
    ensures forall k :: 0 <= k <= |lines| && Size(lines[..k]) <= maxBytes ==> k <= |out|
  {
    TakeLinesIsLongest(lines, maxBytes);
    out := [];
    var bytes := 0;
    var i := 0;
    WholeSeq(lines);
    hide Bytes, Size, TakeLines;
    while i < |lines|
      invariant 0 <= i <= |lines| && out == lines[..i]
      invariant TakeLines(lines, maxBytes) == out + TakeLines(lines[i..], maxBytes - bytes)
    {
      var size := Bytes(lines[i]) + 1;
      if bytes + size > maxBytes { break; }
      LinesStep(lines, maxBytes - bytes, i, out);
      bytes := bytes + size;
      out := out + [lines[i]];
      i := i + 1;
    }
    LinesEnd(lines[i..], maxBytes - bytes);
  }

  lemma LinesStep(lines: seq<string>, room: int, i: nat, out: seq<string>)
    requires i < |lines| && Bytes(lines[i]) + 1 <= room
    ensures out + TakeLines(lines[i..], room) ==
            (out + [lines[i]]) + TakeLines(lines[i + 1..], room - (Bytes(lines[i]) + 1))
  {
    assert lines[i..][1..] == lines[i + 1..];
  }

  lemma LinesEnd(lines: seq<string>, room: int)
    requires lines == [] || Bytes(lines[0]) + 1 > room
    ensures TakeLines(lines, room) == []
  {
  }

  // ----- the budget -----

  const DEFAULT_MAX_OUTPUT_BYTES := 64 * 1024
  const DEFAULT_MAX_LINE_BYTES := 8 * 1024
  const DEFAULT_HEAD_LINES := 200
  const NOTICE_MARGIN := 64

  datatype Options = Options(maxBytes: nat, maxLineBytes: int, headLines: nat)

  const DEFAULTS := Options(DEFAULT_MAX_OUTPUT_BYTES, DEFAULT_MAX_LINE_BYTES, DEFAULT_HEAD_LINES)

  datatype Budgeted = Budgeted(
    text: string,
    truncated: bool,
    totalBytes: nat,
    totalLines: nat,
    shownLines: nat,
    omittedLines: nat,
    spillPath: Option<string>,
    spillBytes: Option<nat>,
    advised: bool)

  function Notice(totalLines: nat, totalBytes: nat, maxBytes: nat): string {
    "[输出已裁剪：共 " + Decimal(totalLines) + " 行 / " + Decimal(totalBytes) +
    " 字节，超过 " + Decimal(maxBytes) + " 字节上限]"
  }

  function SpillNotice(path: string, totalBytes: nat): string {
    "[完整输出已落盘：" + path + "（" + Decimal(totalBytes) + " 字节）]"
  }

  function LinesMarker(omitted: nat): string { "[…省略 " + Decimal(omitted) + " 行…]" }

  function TotalLines(text: string): nat { if text == [] then 0 else |Split(text, '\n')| }

  /** The room for kept lines. */
  function Room(notice: string, maxBytes: nat): nat { Max(0, maxBytes - (Bytes(notice) + NOTICE_MARGIN)) }

  /** The leading and trailing lines that are candidates. */
  function HeadWindow(lines: seq<string>, headLines: nat): seq<string> { lines[..Min(headLines, |lines|)] }

  function TailWindow(lines: seq<string>, headLines: nat): seq<string> {
    if |lines| > headLines * 2 then lines[|lines| - headLines..] else []
  }

  function TailCut(tail: seq<string>, room: nat): seq<string> {
    if 2 * Bytes(Join(tail, '\n')) > room then TakeLines(tail, room / 2) else tail
  }

  function HeadCut(head: seq<string>, tailBytes: nat, room: nat): seq<string> {
    if Bytes(Join(head, '\n')) > room - tailBytes then TakeLines(head, Max(0, room - tailBytes)) else head
  }

  /** Which lines stay, at the front and at the back. */
  function Cut(lines: seq<string>, headLines: nat, room: nat): (seq<string>, seq<string>) {
    var tail := TailCut(TailWindow(lines, headLines), room);
    (HeadCut(HeadWindow(lines, headLines), Bytes(Join(tail, '\n')), room), tail)
  }

  function Body(head: seq<string>, omitted: nat, tail: seq<string>): seq<string> {
    head + (if omitted > 0 then [LinesMarker(omitted)] else []) + tail
  }

  /** applyOutputBudget; spilled is the path the full text was written to, if it was. */
  method ApplyOutputBudget(text: string, o: Options, spilled: Option<string>) returns (r: Budgeted)
    ensures r == Apply(text, o, spilled)
  {
    var totalLines := TotalLines(text);
    var totalBytes := Bytes(text);
    var folded := FoldOversizedLines(text, o.maxLineBytes);
    if Bytes(folded) <= o.maxBytes {
      return Budgeted(folded, folded != text, totalBytes, totalLines, totalLines, 0, None, None, folded != text);
    }
    hide Split, Join, Bytes, TakeLines, Notice, Cut, LinesMarker, SpillNotice, FoldOversizedLines;
    var lines := Split(folded, '\n');
    var notice := [Notice(totalLines, totalBytes, o.maxBytes)];
    var headCut, tailCut := CutLines(lines, o.headLines, Room(notice[0], o.maxBytes));
    var omitted := Max(0, |lines| - |headCut| - |tailCut|);
    if spilled.Some? {
      notice := notice + [SpillNotice(spilled.value, totalBytes)];
    }
    var middle := if omitted > 0 then [LinesMarker(omitted)] else [];
    var body := headCut + middle + tailCut;
    r := Budgeted(Join(notice + body, '\n'), true, totalBytes, totalLines, |body|, omitted,
                  spilled, if spilled.Some? then Some(totalBytes) else None, true);
  }

  /** The re-cutting of head and tail to the room; the tail is reserved first. */
  method CutLines(lines: seq<string>, headLines: nat, room: int) returns (headCut: seq<string>, tailCut: seq<string>)
    requires room >= 0
    ensures (headCut, tailCut) == Cut(lines, headLines, room)
  {
    hide Join, Bytes, TakeLines;
    headCut := HeadWindow(lines, headLines);
    tailCut := TailWindow(lines, headLines);
    var tailBytes := Bytes(Join(tailCut, '\n'));
    if 2 * tailBytes > room {
      tailCut := TakeHeadBytesFromLines(tailCut, room / 2);
      tailBytes := Bytes(Join(tailCut, '\n'));
    }
    var headBytes := Bytes(Join(headCut, '\n'));
    if headBytes > room - tailBytes {
      headCut := TakeHeadBytesFromLines(headCut, Max(0, room - tailBytes));
    }
  }

  function Apply(text: string, o: Options, spilled: Option<string>): Budgeted {
    var folded := FoldOversizedLines(text, o.maxLineBytes);
    if Bytes(folded) <= o.maxBytes then
      Budgeted(folded, folded != text, Bytes(text), TotalLines(text), TotalLines(text), 0, None, None, folded != text)
    else
      var lines := Split(folded, '\n');
      var notice := Notice(TotalLines(text), Bytes(text), o.maxBytes);
      var (head, tail) := Cut(lines, o.headLines, Room(notice, o.maxBytes));
      var omitted := Max(0, |lines| - |head| - |tail|);
      var notices := [notice] + if spilled.Some? then [SpillNotice(spilled.value, Bytes(text))] else [];
      var body := Body(head, omitted, tail);
      Budgeted(Join(notices + body, '\n'), true, Bytes(text), TotalLines(text), |body|, omitted,
               spilled, if spilled.Some? then Some(Bytes(text)) else None, true)
  }

  // ----- what the budget guarantees -----

  predicate OverBudget(text: string, o: Options) { Bytes(FoldOversizedLines(text, o.maxLineBytes)) > o.maxBytes }

  function FoldedLines(text: string, o: Options): seq<string> { Split(FoldOversizedLines(text, o.maxLineBytes), '\n') }

  function KeptOf(text: string, o: Options): (seq<string>, seq<string>) {
    Cut(FoldedLines(text, o), o.headLines, Room(Notice(TotalLines(text), Bytes(text), o.maxBytes), o.maxBytes))
  }

  /** The kept tail takes at most half of the room, the kept head what is left of it. */
  lemma CutsFit(lines: seq<string>, headLines: nat, room: nat)
    ensures var (head, tail) := Cut(lines, headLines, room);
            Size(head) + Size(tail) <= room + 2 &&
            head <= HeadWindow(lines, headLines) && tail <= TailWindow(lines, headLines)
  {
    var tailWindow, headWindow := TailWindow(lines, headLines), HeadWindow(lines, headLines);
    var tail := TailCut(tailWindow, room);
    var tailBytes := Bytes(Join(tail, '\n'));
    var head := HeadCut(headWindow, tailBytes, room);
    JoinSize(tail);
    JoinSize(tailWindow);
    JoinSize(headWindow);
    TakeLinesIsLongest(tailWindow, room / 2);
    TakeLinesIsLongest(headWindow, Max(0, room - tailBytes));
    hide TakeLines, Join, Bytes, TailWindow, HeadWindow;
  }

  /** The longest run of leading lines that takes at most maxBytes, each with its line break. */
  ghost predicate LongestRun(run: seq<string>, lines: seq<string>, maxBytes: nat) {
    run <= lines && Size(run) <= maxBytes &&
    forall k :: 0 <= k <= |lines| && Size(lines[..k]) <= maxBytes ==> k <= |run|
  }

  /**
   * Exactly what is kept over budget. Candidates are the first headLines lines, and the last headLines ones when there
   * are more than twice as many. The tail gets half of the room, the head what the tail leaves; either is kept as a
   * whole when it fits, and otherwise as the longest run of its leading lines that does.
   */
  lemma KeptExactly(text: string, o: Options)
    requires OverBudget(text, o)
    ensures var lines := FoldedLines(text, o); var (head, tail) := KeptOf(text, o);
            var first := lines[..Min(o.headLines, |lines|)];
            var last := if |lines| > 2 * o.headLines then lines[|lines| - o.headLines..] else [];
            var room := Max(0, o.maxBytes - Bytes(Notice(TotalLines(text), Bytes(text), o.maxBytes)) - 64);
            var rest := room - Bytes(Join(tail, '\n'));
            (if 2 * Bytes(Join(last, '\n')) <= room then tail == last else LongestRun(tail, last, room / 2)) &&
            if Bytes(Join(first, '\n')) <= rest then head == first else LongestRun(head, first, Max(0, rest))
  {
    hide Split, Join, Bytes, Notice, FoldOversizedLines, TakeLines, Size, TotalLines;
    var lines := FoldedLines(text, o);
    var first := lines[..Min(o.headLines, |lines|)];
    var last := if |lines| > 2 * o.headLines then lines[|lines| - o.headLines..] else [];
    var room := Max(0, o.maxBytes - Bytes(Notice(TotalLines(text), Bytes(text), o.maxBytes)) - 64);
    var (head, tail) := KeptOf(text, o);
    TakeLinesIsLongest(last, room / 2);
    TakeLinesIsLongest(first, Max(0, room - Bytes(Join(tail, '\n'))));
  }

  /** Within the budget nothing is left out, and the text is cut only in so far as a line of it was folded. */
  lemma WithinBudgetIsWhole(text: string, o: Options, spilled: Option<string>)
    requires !OverBudget(text, o)
    ensures var r := Apply(text, o, spilled);
            r.text == FoldOversizedLines(text, o.maxLineBytes) && (r.truncated <==> r.text != text) &&
            (r.advised <==> r.truncated) && r.omittedLines == 0 && r.shownLines == r.totalLines == TotalLines(text) &&
            r.totalBytes == Bytes(text) && r.spillPath.None? && r.spillBytes.None?
  {
    hide FoldOversizedLines, Split, Join, Bytes;
  }

  /** If everything were kept the text would have fitted. */
  lemma SomethingIsOmitted(lines: seq<string>, headLines: nat, room: nat)
    requires lines != [] && Bytes(Join(lines, '\n')) > room
    ensures var (head, tail) := Cut(lines, headLines, room); |head| + |tail| < |lines|
  {
    if |lines| <= headLines {
      AllInHead(lines, headLines, room);
    } else {
      CutsFit(lines, headLines, room);
      hide Cut, Size, Join, Bytes;
    }
  }

  /** With so few lines there is no tail, and the head loses at least its last line. */
  lemma AllInHead(lines: seq<string>, headLines: nat, room: nat)
    requires lines != [] && Bytes(Join(lines, '\n')) > room && |lines| <= headLines
    ensures var (head, tail) := Cut(lines, headLines, room); |head| + |tail| < |lines|
  {
    hide TakeLines, Join, Bytes;
    assert TailWindow(lines, headLines) == [] && HeadWindow(lines, headLines) == lines by { hide HeadCut, TailCut; }
    hide TailWindow, HeadWindow;
    NoTailCut(room);
    NothingJoined();
    NotAllLines(lines, room);
  }

  lemma NothingJoined()
    ensures Bytes(Join([], '\n')) == 0
  {
  }

  lemma NotAllLines(lines: seq<string>, room: nat)
    requires lines != [] && Bytes(Join(lines, '\n')) > room
    ensures |TakeLines(lines, room)| < |lines|
  {
    JoinSize(lines);
    var head := TakeLines(lines, room);
    TakeLinesIsLongest(lines, room);
    hide TakeLines, Join, Bytes, Size;
    assert head == lines[..|head|] && lines[..|lines|] == lines;
  }

  /**
   * Over budget, at least one line is left out and counted: what is kept are leading lines and a stretch
   * of the last headLines lines, and together with the announced number they make up the line count.
   */
  lemma OmissionIsAccountedFor(text: string, o: Options, spilled: Option<string>)
    requires OverBudget(text, o)
    ensures var r := Apply(text, o, spilled); var (head, tail) := KeptOf(text, o); var lines := FoldedLines(text, o);
            r.truncated && r.omittedLines >= 1 && |head| + |tail| + r.omittedLines == r.totalLines == |lines| &&
            head <= lines && tail <= TailWindow(lines, o.headLines) && r.shownLines == |head| + 1 + |tail| &&
            r.text == Join([Notice(r.totalLines, r.totalBytes, o.maxBytes)] +
                           (if spilled.Some? then [SpillNotice(spilled.value, r.totalBytes)] else []) +
                           (head + [LinesMarker(r.omittedLines)] + tail), '\n')
  {
    hide Split, Join, Bytes, Cut, Notice, FoldOversizedLines, TailWindow;
    var lines := FoldedLines(text, o);
    var notice := Notice(TotalLines(text), Bytes(text), o.maxBytes);
    FoldKeepsLines(text, o.maxLineBytes);
    JoinSplit(FoldOversizedLines(text, o.maxLineBytes), '\n');
    assert text != [] by { EmptyFits(o.maxLineBytes); }
    SomethingIsOmitted(lines, o.headLines, Room(notice, o.maxBytes));
    CutsFit(lines, o.headLines, Room(notice, o.maxBytes));
  }

  lemma EmptyFits(maxLineBytes: int)
    ensures Bytes(FoldOversizedLines([], maxLineBytes)) == 0
  {
    if maxLineBytes > 0 {
      assert Split([], '\n') == [[]];
      assert FoldAll([[]], maxLineBytes) == [[]];
    }
  }

  function Pow10(k: nat): nat { if k == 0 then 1 else 10 * Pow10(k - 1) }

  lemma {:induction false} DecimalDigits(n: nat, k: nat)
    requires n < Pow10(k) && k >= 1
    ensures |Decimal(n)| <= k
    decreases k
  {
    if n >= 10 { DecimalDigits(n / 10, k - 1); }
  }

  const MAX_STRING: nat := 0x20_0000_0000_0000

  lemma FewDigits(n: nat)
    requires n <= MAX_STRING
    ensures |Decimal(n)| <= 16
  {
    PowersOfTen();
    DecimalDigits(n, 16);
  }

  lemma PowersOfTen()
    ensures Pow10(16) == 10_000_000_000_000_000 && Pow10(18) == 1_000_000_000_000_000_000
  {
    assert Pow10(2) == 100 && Pow10(4) == 10_000 && Pow10(6) == 1_000_000 && Pow10(8) == 100_000_000;
    assert Pow10(10) == 100 * Pow10(8) && Pow10(12) == 100 * Pow10(10) && Pow10(14) == 100 * Pow10(12) &&
           Pow10(16) == 100 * Pow10(14);
    assert Pow10(18) == 100 * Pow10(16);
  }

  lemma MarkerBytes(omitted: nat)
    ensures Bytes(LinesMarker(omitted)) == 19 + |Decimal(omitted)|
  {
    var front, back, number := "[…省略 ", " 行…]", Decimal(omitted);
    forall i | 0 <= i < |number| ensures number[i] as int < 0x80 { assert IsDigit(number[i]); }
    AsciiBytes(number);
    BytesAppend(front + number, back);
    BytesAppend(front, number);
    assert Bytes(front) == 11 by { LiteralBytes(); }
    assert Bytes(back) == 8 by { LiteralBytes(); }
    hide Bytes, Decimal;
  }

  lemma LiteralBytes()
    ensures Bytes("[…省略 ") == 11 && Bytes(" 行…]") == 8
  {
  }

  lemma {:induction false} SplitLength(text: string)
    ensures |Split(text, '\n')| <= |text| + 1
  {
    if text != [] { SplitLength(text[1..]); }
  }

  /**
   * The size bound: within the budget the text fits it; over budget it is at most the larger of the
   * budget and of the notice with its margin, plus the line that names the spilled file if there is one.
   */
  lemma TextFitsTheBudget(text: string, o: Options, spilled: Option<string>)
    requires |text| < MAX_STRING
    ensures var r := Apply(text, o, spilled); var notice := Notice(TotalLines(text), Bytes(text), o.maxBytes);
            if OverBudget(text, o) then
              Bytes(r.text) <= Max(o.maxBytes, Bytes(notice) + NOTICE_MARGIN) +
                               (if spilled.Some? then Bytes(SpillNotice(spilled.value, Bytes(text))) + 1 else 0)
            else Bytes(r.text) <= o.maxBytes
  {
    if OverBudget(text, o) {
      OverBudgetFits(text, o, spilled);
      hide Apply;
    }
  }

  lemma FewLines(text: string)
    ensures TotalLines(text) <= |text| + 1
  {
    SplitLength(text);
    hide Split;
  }

  lemma {:induction false} OverBudgetFits(text: string, o: Options, spilled: Option<string>)
    requires |text| < MAX_STRING && OverBudget(text, o)
    ensures Bytes(Apply(text, o, spilled).text) <=
            Max(o.maxBytes, Bytes(Notice(TotalLines(text), Bytes(text), o.maxBytes)) + NOTICE_MARGIN) +
            (if spilled.Some? then Bytes(SpillNotice(spilled.value, Bytes(text))) + 1 else 0)
  {
    hide Split, Join, Bytes, Cut, Notice, FoldOversizedLines, TailWindow, Decimal, LinesMarker, SpillNotice;
    OmissionIsAccountedFor(text, o, spilled);
    FewLines(text);
    TotalsOfApply(text, o, spilled);
    hide Apply;
    var notice := Notice(TotalLines(text), Bytes(text), o.maxBytes);
    var (head, tail) := KeptOf(text, o);
    CutsFit(FoldedLines(text, o), o.headLines, Room(notice, o.maxBytes));
    AssembledSize(notice, if spilled.Some? then [SpillNotice(spilled.value, Bytes(text))] else [], head,
                  Apply(text, o, spilled).omittedLines, tail, o.maxBytes);
  }

  lemma TotalsOfApply(text: string, o: Options, spilled: Option<string>)
    ensures Apply(text, o, spilled).totalLines == TotalLines(text) && Apply(text, o, spilled).totalBytes == Bytes(text)
  {
    hide Split, Join, Bytes, Cut, Notice, FoldOversizedLines, Decimal, LinesMarker, SpillNotice;
  }

  lemma {:induction false} AssembledSize(notice: string, more: seq<string>, head: seq<string>, omitted: nat,
      tail: seq<string>, maxBytes: nat)
    requires Size(head) + Size(tail) <= Room(notice, maxBytes) + 2 && omitted <= MAX_STRING && |more| <= 1
    ensures Bytes(Join([notice] + more + (head + [LinesMarker(omitted)] + tail), '\n')) <=
            Max(maxBytes, Bytes(notice) + NOTICE_MARGIN) + if more != [] then Bytes(more[0]) + 1 else 0
  {
    FewDigits(omitted);
    MarkerBytes(omitted);
    PartsSize(notice, more, head, LinesMarker(omitted), tail);
    SizeOfAtMostOne(more);
    hide Bytes, Join, LinesMarker, Decimal, Size;
  }

  lemma SizeOfAtMostOne(more: seq<string>)
    requires |more| <= 1
    ensures Size(more) == if more != [] then Bytes(more[0]) + 1 else 0
  {
    if more != [] {
      assert more == [more[0]];
      OneSize(more[0]);
    }
  }

  lemma PartsSize(notice: string, more: seq<string>, head: seq<string>, marker: string, tail: seq<string>)
    ensures Bytes(Join([notice] + more + (head + [marker] + tail), '\n')) ==
            Bytes(notice) + Size(more) + Size(head) + Bytes(marker) + 1 + Size(tail)
  {
    JoinSize([notice] + more + (head + [marker] + tail));
    SizeAppend([notice] + more, head + [marker] + tail);
    SizeAppend([notice], more);
    SizeAppend(head + [marker], tail);
    SizeAppend(head, [marker]);
    OneSize(notice);
    OneSize(marker);
    hide Size, Join, Bytes;
  }

  lemma OneSize(line: string)
    ensures Size([line]) == Bytes(line) + 1
  {
    assert [line][1..] == [];
  }

  lemma NoticeIsShort(totalLines: nat, totalBytes: nat, maxBytes: nat)
    requires totalLines <= MAX_STRING && totalBytes <= 4 * MAX_STRING && maxBytes <= MAX_STRING
    ensures Bytes(Notice(totalLines, totalBytes, maxBytes)) <= 400
  {
    FewDigits(totalLines);
    FewDigits(maxBytes);
    PowersOfTen();
    DecimalDigits(totalBytes, 18);
    assert |Notice(totalLines, totalBytes, maxBytes)| <= 100 by { hide Decimal; }
    hide Notice;
  }

  /** With the default options and no spill, what the model sees never exceeds 64 KiB. */
  lemma DefaultCapHolds(text: string)
    requires |text| < MAX_STRING
    ensures Bytes(Apply(text, DEFAULTS, None).text) <= DEFAULT_MAX_OUTPUT_BYTES
  {
    hide Apply, Notice, TotalLines, OverBudget, Decimal;
    assert Bytes(text) <= 4 * |text|;
    hide Bytes;
    TextFitsTheBudget(text, DEFAULTS, None);
    FewLines(text);
    NoticeIsShort(TotalLines(text), Bytes(text), DEFAULT_MAX_OUTPUT_BYTES);
  }

  /**
   * Whether the end of an over-budget output is shown, which the code means to reserve room for: it is
   * exactly when there are more than twice headLines lines and the whole tail fits half of the room,
   * because a tail that does not fit is cut from its end.
   */
  lemma EndIsShownIff(text: string, o: Options)
    requires OverBudget(text, o)
    ensures var lines := FoldedLines(text, o); var (head, tail) := KeptOf(text, o);
            var room := Room(Notice(TotalLines(text), Bytes(text), o.maxBytes), o.maxBytes);
            (o.headLines > 0 && tail == lines[|lines| - Min(o.headLines, |lines|)..]) <==>
            (o.headLines > 0 && |lines| > o.headLines * 2 &&
             2 * Bytes(Join(TailWindow(lines, o.headLines), '\n')) <= room)
  {
    hide TakeLines, Join, Bytes, Notice, FoldOversizedLines, Split, TailCut, HeadCut;
    var lines := FoldedLines(text, o);
    var room := Room(Notice(TotalLines(text), Bytes(text), o.maxBytes), o.maxBytes);
    var window := TailWindow(lines, o.headLines);
    WholeTailIff(window, room);
    NoTailCut(room);
    assert KeptOf(text, o).1 == TailCut(window, room);
    assert |lines| > 0;
  }

  lemma NoTailCut(room: nat)
    ensures TailCut([], room) == []
  {
    NothingJoined();
  }

  lemma WholeTailIff(window: seq<string>, room: nat)
    ensures TailCut(window, room) == window <==> 2 * Bytes(Join(window, '\n')) <= room
  {
    TakeLinesIsLongest(window, room / 2);
    JoinSize(window);
    hide TakeLines, Join, Bytes;
  }

  /**
   * An output whose end is lost although the room is there: its first line is shown, its last one is cut
   * away because it does not fit half of the room alone.
   */
  lemma EndIsLost()
    ensures var b, z := seq(600, i => 'b'), seq(600, i => 'z'); var o := Options(1000, 0, 1);
            var text := Join(["a", b, z], '\n');
            OverBudget(text, o) && FoldedLines(text, o) == ["a", b, z] && KeptOf(text, o) == (["a"], [])
  {
    var b, z := seq(600, i => 'b'), seq(600, i => 'z');
    var lines := ["a", b, z];
    var text, o := Join(lines, '\n'), Options(1000, 0, 1);
    hide Split, Join, Notice, TakeLines, Decimal;
    SplitJoin(lines, '\n');
    LongLines(b, z);
    assert text != [];
    var notice := Notice(3, Bytes(text), 1000);
    NoticeIsShort(3, Bytes(text), 1000);
    assert TotalLines(text) == 3;
    hide Bytes;
    LastLineGoes(b, z, Room(notice, 1000));
  }

  lemma {:induction false} LongLines(b: string, z: string)
    requires |b| == |z| == 600 && Ascii(b) && Ascii(z)
    ensures Bytes("a") == 1 && Bytes(z) == 600 && Bytes(Join(["a", b, z], '\n')) == 1203
  {
    AsciiBytes("a");
    AsciiBytes(b);
    AsciiBytes(z);
    JoinSize(["a", b, z]);
    OneSize("a");
    OneSize(b);
    OneSize(z);
    SizeAppend(["a"], [b]);
    SizeAppend(["a", b], [z]);
    assert ["a"] + [b] == ["a", b] && ["a", b] + [z] == ["a", b, z];
    hide Bytes, Join, Size;
  }

  lemma LastLineGoes(b: string, z: string, room: nat)
    requires Bytes("a") == 1 && Bytes(z) == 600 && 1 <= room < 1200
    ensures Cut(["a", b, z], 1, room) == (["a"], [])
  {
    var lines := ["a", b, z];
    assert TailWindow(lines, 1) == [z] && HeadWindow(lines, 1) == ["a"];
    OneJoined(z);
    OneJoined("a");
    NothingJoined();
    hide Join, Bytes;
    assert TailCut([z], room) == [];
  }

  lemma OneJoined(line: string)
    ensures Join([line], '\n') == line
  {
  }
}
