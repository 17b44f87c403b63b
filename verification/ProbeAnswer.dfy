/**
 * The identity probe (src/jumpserver/probe.ts and the script of src/jumpserver/command-runner.ts): labelled lines
 * between two random tokens, found by their labels. The terminal echoes the script that prints them, and this
 * module says what an echo alone is taken for. Captures are taken after escape stripping.
 */
module ProbeAnswer {
  import opened Basics
  import opened CommandRunner

  const PROBE_PREFIX := "__DSH_JS_PROBE_"
  const PROBE_END_PREFIX := "__DSH_JS_PROBE_END_"

  function StartToken(marker: string): string { PROBE_PREFIX + marker }

  function EndToken(marker: string): string { PROBE_END_PREFIX + marker }

  /** randomHex yields upper-case hexadecimal digits. */
  predicate IsHexMarker(marker: string) {
    forall i :: 0 <= i < |marker| ==> ('0' <= marker[i] <= '9' || 'A' <= marker[i] <= 'F')
  }

  // ----- the script -----

  const OPENING := "printf '"
  const CLOSING := "\\n'"
  const FORMAT := "=%s\\n' \"$("
  const HOST_COMMAND := "hostname 2>/dev/null || echo ?)\""
  const USER_COMMAND := "whoami 2>/dev/null || echo ?)\""
  const DIRECTORY_COMMAND := "pwd 2>/dev/null || echo ?)\""
  const ADDRESS_COMMAND := "hostname -I 2>/dev/null"
  const ADDRESS_PIPE := " | tr ' ' ',' | sed 's/,$//')\""

  /** The labelled part of a line. */
  function Labelled(tag: char, command: string): string { [tag] + FORMAT + command }

  const HOST := Labelled('H', HOST_COMMAND)
  const USER := Labelled('U', USER_COMMAND)
  const DIRECTORY := Labelled('P', DIRECTORY_COMMAND)
  const ADDRESSES := Labelled('A', ADDRESS_COMMAND + ADDRESS_PIPE)

  /** The lines of the script up to the opening of the last one. */
  function FrontLines(marker: string): seq<string> {
    [OPENING + StartToken(marker) + CLOSING, OPENING + HOST, OPENING + USER, OPENING + DIRECTORY, OPENING + ADDRESSES,
     OPENING]
  }

  /** buildProbeScript. */
  function ProbeScript(marker: string): string { Join(FrontLines(marker), '\n') + (EndToken(marker) + CLOSING) }

  // ----- the parser -----

  /** text.indexOf(pat, from) */
  function IndexFrom(text: string, pat: string, from: nat): (r: Option<nat>)
    ensures r.Some? ==> r.value >= from && At(text, r.value, pat)
    ensures r.Some? ==> forall k :: from <= k < r.value ==> !At(text, k, pat)
    ensures r.None? ==> forall k :: from <= k ==> !At(text, k, pat)
    decreases |text| - from
  {
    if from + |pat| > |text| then None
    else if At(text, from, pat) then Some(from)
    else IndexFrom(text, pat, from + 1)
  }

  lemma IndexIs(text: string, pat: string, from: nat, i: nat)
    requires from <= i && At(text, i, pat) && forall k :: from <= k < i ==> !At(text, k, pat)
    ensures IndexFrom(text, pat, from) == Some(i)
  {
  }

  /** What lies between the tokens, or behind the first one when the second has not come. */
  function Body(text: string, marker: string): Option<string> {
    match IndexFrom(text, StartToken(marker), 0)
    case None => None
    case Some(start) =>
      match IndexFrom(text, EndToken(marker), start)
      case None => Some(text[start..])
      case Some(end) => Some(text[start..end])
  }

  /** s up to its first carriage return. */
  function Visible(s: string): (r: string)
    ensures r <= s && (s != [] && s[0] != '\r' ==> r != [] && r[0] == s[0])
  {
    if s == [] || s[0] == '\r' then [] else [s[0]] + Visible(s[1..])
  }

  /** The match of a label at the start of a line. */
  function Value(line: string, tag: char): Option<string> {
    if |line| > 2 && line[0] == tag && line[1] == '=' && line[2] != '\r' then Some(Visible(line[2..])) else None
  }

  function FirstValue(lines: seq<string>, tag: char): Option<string> {
    if lines == [] then None
    else if Value(lines[0], tag).Some? then Value(lines[0], tag)
    else FirstValue(lines[1..], tag)
  }

  /** grab() */
  function Grab(lines: seq<string>, tag: char): Option<string> {
    match FirstValue(lines, tag)
    case None => None
    case Some(value) => if Trim(value) != [] && Trim(value) != "?" then Some(Trim(value)) else None
  }

  datatype Answer = Answer(hostname: string, user: string, directory: string, addresses: seq<string>)

  /** parseProbeOutput. */
  function ParseProbe(text: string, marker: string): Option<Answer> {
    match Body(text, marker)
    case None => None
    case Some(body) =>
      var lines := Split(body, '\n');
      var h, u, p, a := Grab(lines, 'H'), Grab(lines, 'U'), Grab(lines, 'P'), Grab(lines, 'A');
      if h.None? || u.None? || p.None? then None
      else Some(Answer(h.value, u.value, p.value, if a.None? then [] else Addresses(Split(a.value, ','))))
  }

  /** map(trim), without the empty ones. */
  function Addresses(parts: seq<string>): seq<string> {
    if parts == [] then [] else (if Trim(parts[0]) == [] then [] else [Trim(parts[0])]) + Addresses(parts[1..])
  }

  // ----- what an echo is taken for -----

  /** A line that begins like the labelled part of the script. */
  ghost predicate HasLabel(lines: seq<string>, tag: char) {
    exists i :: 0 <= i < |lines| && [tag] + "=%" <= lines[i]
  }

  /** Behind every equals sign of the script comes its format. */
  predicate Formatted(s: string) { forall k :: 0 <= k < |s| && s[k] == '=' ==> k + 1 < |s| && s[k + 1] == '%' }

  lemma FormattedTwice(a: string, b: string)
    requires Formatted(a) && Formatted(b)
    ensures Formatted(a + b)
  {
    forall k | 0 <= k < |a + b| && (a + b)[k] == '=' ensures k + 1 < |a + b| && (a + b)[k + 1] == '%' {
      if k < |a| { assert a[k] == '='; } else { assert b[k - |a|] == '='; }
    }
  }

  lemma {:induction false} FormattedJoin(lines: seq<string>)
    requires forall line <- lines :: Formatted(line)
    ensures Formatted(Join(lines, '\n'))
  {
    if |lines| > 1 {
      FormattedJoin(lines[1..]);
      assert Formatted(['\n']);
      FormattedTwice(lines[0], ['\n']);
      FormattedTwice(lines[0] + ['\n'], Join(lines[1..], '\n'));
    }
  }

  /** No equals sign, no N and no line break. */
  predicate Neutral(s: string) { '=' !in s && 'N' !in s && '\n' !in s }

  lemma NeutralTwice(a: string, b: string)
    requires Neutral(a) && Neutral(b)
    ensures Neutral(a + b)
  {
  }

  lemma CommandsAreNeutral()
    ensures Neutral(HOST_COMMAND) && Neutral(USER_COMMAND) && Neutral(DIRECTORY_COMMAND)
    ensures Neutral(ADDRESS_COMMAND + ADDRESS_PIPE)
  {
    HostIsNeutral();
    UserIsNeutral();
    DirectoryIsNeutral();
    AddressIsNeutral();
    PipeIsNeutral();
    NeutralTwice(ADDRESS_COMMAND, ADDRESS_PIPE);
  }

  lemma HostIsNeutral()
    ensures Neutral(HOST_COMMAND)
  {
  }

  lemma UserIsNeutral()
    ensures Neutral(USER_COMMAND)
  {
  }

  lemma DirectoryIsNeutral()
    ensures Neutral(DIRECTORY_COMMAND)
  {
  }

  lemma AddressIsNeutral()
    ensures Neutral(ADDRESS_COMMAND)
  {
  }

  lemma PipeIsNeutral()
    ensures Neutral(ADDRESS_PIPE)
  {
  }

  lemma FramesAreNeutral()
    ensures Neutral(OPENING) && Neutral(CLOSING) && Neutral(PROBE_PREFIX)
    ensures '=' !in PROBE_END_PREFIX
  {
  }

  lemma FormatIsFormatted()
    ensures Formatted(FORMAT) && 'N' !in FORMAT && '\n' !in FORMAT && FORMAT[..2] == "=%"
  {
    assert FORMAT[0] == '=' && FORMAT[1] == '%';
  }

  lemma LabelledIsFormatted(tag: char, command: string)
    requires Neutral(command) && tag != '=' && tag != 'N' && tag != '\n'
    ensures Formatted(Labelled(tag, command)) && 'N' !in Labelled(tag, command) && '\n' !in Labelled(tag, command)
    ensures [tag] + "=%" <= Labelled(tag, command)
  {
    FormatIsFormatted();
    assert Formatted([tag]) && Formatted(command);
    FormattedTwice([tag], FORMAT);
    FormattedTwice([tag] + FORMAT, command);
    assert Labelled(tag, command)[..3] == [tag] + FORMAT[..2];
  }

  lemma LiteralsAreFormatted()
    ensures Formatted(OPENING) && Formatted(CLOSING) && Formatted(PROBE_PREFIX) && Formatted(PROBE_END_PREFIX)
    ensures Formatted(HOST) && Formatted(USER) && Formatted(DIRECTORY) && Formatted(ADDRESSES)
  {
    FramesAreNeutral();
    CommandsAreNeutral();
    hide Labelled;
    LabelledIsFormatted('H', HOST_COMMAND);
    LabelledIsFormatted('U', USER_COMMAND);
    LabelledIsFormatted('P', DIRECTORY_COMMAND);
    LabelledIsFormatted('A', ADDRESS_COMMAND + ADDRESS_PIPE);
  }

  lemma ScriptIsFormatted(marker: string)
    requires IsHexMarker(marker)
    ensures Formatted(ProbeScript(marker))
  {
    LiteralsAreFormatted();
    assert Formatted(marker);
    hide Formatted, IsHexMarker;
    FormattedTwice(PROBE_PREFIX, marker);
    FormattedTwice(PROBE_END_PREFIX, marker);
    FormattedTwice(EndToken(marker), CLOSING);
    FormattedTwice(OPENING, StartToken(marker));
    FormattedTwice(OPENING + StartToken(marker), CLOSING);
    FormattedTwice(OPENING, HOST);
    FormattedTwice(OPENING, USER);
    FormattedTwice(OPENING, DIRECTORY);
    FormattedTwice(OPENING, ADDRESSES);
    FormattedJoin(FrontLines(marker));
    FormattedTwice(Join(FrontLines(marker), '\n'), EndToken(marker) + CLOSING);
    hide Join;
  }

  /** Wherever a line of an echo has an equals sign in second place, the format follows it. */
  lemma EchoedLine(marker: string, echo: string, x: string, body: string, y: string, i: nat)
    requires IsHexMarker(marker) && Broken(ProbeScript(marker), echo) && echo == x + body + y
    requires i < |Split(body, '\n')| && |Split(body, '\n')[i]| > 2 && Split(body, '\n')[i][1] == '='
    ensures Split(body, '\n')[i][2] == '%'
  {
    var lines := Split(body, '\n');
    var line := lines[i];
    assert '\n' !in line;
    JoinSplit(body, '\n');
    hide Split, Join, Broken;
    var u, v := JoinPiece(lines, i);
    var piece, at := line[..3], |x + u|;
    PieceAt(x, u, line, v, y);
    var j := EchoedPiece(ProbeScript(marker), echo, at, piece);
    ScriptIsFormatted(marker);
    hide ProbeScript;
    var script := ProbeScript(marker);
    assert script[j..j + 3] == piece;
    assert script[j + 1] == script[j..j + 3][1] && script[j + 2] == script[j..j + 3][2];
  }

  lemma PieceAt(x: string, u: string, line: string, v: string, y: string)
    requires |line| > 2
    ensures At(x + (u + line + v) + y, |x + u|, line[..3])
  {
    assert x + (u + line + v) + y == (x + u) + line + (v + y);
  }

  lemma {:induction false} GrabIff(lines: seq<string>, tag: char)
    requires forall i :: 0 <= i < |lines| && |lines[i]| > 2 && lines[i][1] == '=' ==> lines[i][2] == '%'
    ensures Grab(lines, tag).Some? <==> HasLabel(lines, tag)
  {
    FirstValueIff(lines, tag);
    var first := FirstValue(lines, tag);
    if first.Some? {
      var value := first.value;
      assert TrimStart(value) == value;
      VisibleStays(value, 0);
      assert Trim(value)[0] == '%';
    }
    hide HasLabel, FirstValue;
  }

  lemma {:induction false} FirstValueIff(lines: seq<string>, tag: char)
    requires forall i :: 0 <= i < |lines| && |lines[i]| > 2 && lines[i][1] == '=' ==> lines[i][2] == '%'
    ensures FirstValue(lines, tag).Some? <==> HasLabel(lines, tag)
    ensures var first := FirstValue(lines, tag); first.Some? ==> first.value != [] && first.value[0] == '%'
  {
    if lines != [] {
      LabelFirst(lines, tag);
      LabelValue(lines[0], tag);
      hide HasLabel, Value;
      var rest := lines[1..];
      assert forall i :: 0 <= i < |rest| ==> rest[i] == lines[i + 1];
      FirstValueIff(rest, tag);
    }
  }

  lemma LabelFirst(lines: seq<string>, tag: char)
    requires lines != []
    ensures HasLabel(lines, tag) <==> [tag] + "=%" <= lines[0] || HasLabel(lines[1..], tag)
  {
    if HasLabel(lines, tag) {
      var i :| 0 <= i < |lines| && [tag] + "=%" <= lines[i];
      if i > 0 { assert lines[1..][i - 1] == lines[i]; }
    }
    if HasLabel(lines[1..], tag) {
      var i :| 0 <= i < |lines[1..]| && [tag] + "=%" <= lines[1..][i];
      assert lines[i + 1] == lines[1..][i];
    }
  }

  lemma LabelValue(line: string, tag: char)
    requires |line| > 2 && line[1] == '=' ==> line[2] == '%'
    ensures Value(line, tag).Some? <==> [tag] + "=%" <= line
    ensures Value(line, tag).Some? ==> Value(line, tag).value != [] && Value(line, tag).value[0] == '%'
  {
    var head := [tag] + "=%";
    assert head == [tag, '=', '%'];
    if head <= line { assert line[0] == head[0] && line[1] == head[1] && line[2] == head[2]; }
  }

  /**
   * Exactly when the echo of the probe script alone is taken for an answer, however the terminal broke it: its
   * start token is on one line, and between the tokens a line break stands directly before each of the three
   * labels H, U and P. The parser promises to be robust against the echo, and this is where it is not.
   */
  lemma EchoAnswersIff(marker: string, echo: string)
    requires IsHexMarker(marker) && Broken(ProbeScript(marker), echo)
    ensures ParseProbe(echo, marker).Some? <==>
            var body := Body(echo, marker);
            body.Some? && var lines := Split(body.value, '\n');
            HasLabel(lines, 'H') && HasLabel(lines, 'U') && HasLabel(lines, 'P')
  {
    var found := Body(echo, marker);
    if found.Some? {
      var x, y := BodyIsPiece(echo, marker);
      var lines := Split(found.value, '\n');
      forall i | 0 <= i < |lines| && |lines[i]| > 2 && lines[i][1] == '=' ensures lines[i][2] == '%' {
        EchoedLine(marker, echo, x, found.value, y, i);
      }
      hide Body, Split, Broken, ProbeScript, HasLabel, Grab, IsHexMarker;
      GrabIff(lines, 'H');
      GrabIff(lines, 'U');
      GrabIff(lines, 'P');
    }
  }

  lemma BodyIsPiece(text: string, marker: string) returns (x: string, y: string)
    requires Body(text, marker).Some?
    ensures text == x + Body(text, marker).value + y
  {
    var start := IndexFrom(text, StartToken(marker), 0).value;
    var end := IndexFrom(text, EndToken(marker), start);
    x := text[..start];
    y := if end.Some? then text[end.value..] else [];
    if end.Some? { assert text == text[..start] + text[start..end.value] + text[end.value..]; }
  }

  // ----- where the tokens are -----

  predicate IsTokenChar(c: char) { 'A' <= c <= 'Z' || '0' <= c <= '9' || c == '_' }

  lemma OpeningIsNoToken()
    ensures forall k :: 0 <= k < |OPENING| ==> !IsTokenChar(OPENING[k])
  {
  }

  lemma PrefixIsToken()
    ensures forall k :: 0 <= k < |PROBE_PREFIX| ==> IsTokenChar(PROBE_PREFIX[k])
  {
  }

  lemma EndHasOneN()
    ensures |PROBE_END_PREFIX| > 16 && PROBE_END_PREFIX[16] == 'N'
    ensures forall k :: 0 <= k < 16 ==> PROBE_END_PREFIX[k] != 'N'
  {
  }

  /** The start token is where the opening of the first line puts it, and nowhere earlier. */
  lemma StartIsFirst(before: string, marker: string, rest: string)
    requires IsHexMarker(marker) && !Contains(before, StartToken(marker))
    ensures var text := before + OPENING + StartToken(marker) + rest;
            IndexFrom(text, StartToken(marker), 0) == Some(|before| + |OPENING|)
  {
    var token := StartToken(marker);
    var text := before + OPENING + token + rest;
    var at := |before| + |OPENING|;
    OpeningIsNoToken();
    PrefixIsToken();
    assert forall k :: 0 <= k < |token| ==> IsTokenChar(token[k]);
    assert text[at..at + |token|] == token;
    hide IsTokenChar, IsHexMarker, StartToken;
    forall k | 0 <= k < at ensures !At(text, k, token) {
      if k + |token| <= |before| {
        assert text[k..k + |token|] == before[k..k + |token|];
        assert !At(before, k, token);
      } else {
        var m := Max(k, |before|);
        assert text[m] == OPENING[m - |before|];
        if k + |token| <= |text| { assert text[k..k + |token|][m - k] == text[m]; }
      }
    }
    hide Contains;
    IndexIs(text, token, 0, at);
  }

  /** The end token is where the last line puts it: its N is the first one of the text behind the start token. */
  lemma EndIsFirst(front: string, from: nat, marker: string, rest: string)
    requires from <= |front| && 'N' !in front[from..]
    ensures IndexFrom(front + EndToken(marker) + rest, EndToken(marker), from) == Some(|front|)
  {
    var token := EndToken(marker);
    var text := front + token + rest;
    EndHasOneN();
    assert token[16] == 'N' && forall k :: 0 <= k < 16 ==> token[k] != 'N';
    assert text[|front|..|front| + |token|] == token;
    hide EndToken;
    forall k | from <= k < |front| ensures !At(text, k, token) {
      if k + |token| <= |text| {
        assert text[k..k + |token|][16] == text[k + 16];
        if k + 16 < |front| {
          assert text[k + 16] == front[from..][k + 16 - from];
        } else {
          assert text[k + 16] == token[k + 16 - |front|];
        }
      }
    }
    IndexIs(text, token, from, |front|);
  }

  /** The lines behind the opening of the first one, up to the end token. */
  lemma BodyOfEcho(before: string, marker: string, more: seq<string>, after: string)
    requires IsHexMarker(marker) && !Contains(before, StartToken(marker)) && more != []
    requires forall line <- more :: 'N' !in line && '\n' !in line
    ensures var lines := [OPENING + StartToken(marker) + CLOSING] + more;
            var text := before + (Join(lines, '\n') + (EndToken(marker) + CLOSING)) + after;
            var found := Body(text, marker);
            found.Some? && Split(found.value, '\n') == [StartToken(marker) + CLOSING] + more
  {
    var start, end := StartToken(marker), EndToken(marker);
    var first, joined := start + CLOSING, Join(more, '\n');
    JoinedLines(OPENING + start + CLOSING, more);
    JoinedLines(first, more);
    ClearLines(marker, more);
    SplitJoin([first] + more, '\n');
    var body := first + ['\n'] + joined;
    var text := before + (OPENING + start + CLOSING + ['\n'] + joined + (end + CLOSING)) + after;
    hide IsHexMarker, StartToken, EndToken, Join, Split, Contains;
    hide IndexFrom;
    Regrouped(before, OPENING, start, CLOSING, joined, end, after);
    var behind := CLOSING + ['\n'] + joined + (end + CLOSING) + after;
    var front, rest := before + OPENING + body, CLOSING + after;
    StartIsFirst(before, marker, behind);
    BetweenTokens(before + OPENING, body, end + rest);
    assert text == before + OPENING + start + behind;
    assert text == front + end + rest;
    EndIsFirst(front, |before + OPENING|, marker, rest);
    assert front + end + rest == before + OPENING + body + (end + rest);
  }

  lemma BetweenTokens(x: string, body: string, y: string)
    ensures (x + body + y)[|x|..|x + body|] == body && (x + body)[|x|..] == body
  {
  }

  lemma Regrouped(before: string, opening: string, start: string, closing: string, joined: string, end: string,
      after: string)
    ensures var text := before + (opening + start + closing + ['\n'] + joined + (end + closing)) + after;
            text == before + opening + start + (closing + ['\n'] + joined + (end + closing) + after) &&
            text == (before + opening + (start + closing + ['\n'] + joined)) + end + (closing + after)
  {
  }

  lemma JoinedLines(first: string, more: seq<string>)
    requires more != []
    ensures Join([first] + more, '\n') == first + ['\n'] + Join(more, '\n')
  {
    assert ([first] + more)[1..] == more;
  }

  /** No N and no line break in the first line; no N in any of them, joined. */
  lemma ClearLines(marker: string, more: seq<string>)
    requires IsHexMarker(marker) && more != [] && forall line <- more :: 'N' !in line
    ensures var first := StartToken(marker) + CLOSING;
            '\n' !in first && 'N' !in first + ['\n'] + Join(more, '\n')
  {
    FramesAreNeutral();
    NoNJoined(more);
    hide Join;
  }

  lemma {:induction false} NoNJoined(lines: seq<string>)
    requires forall line <- lines :: 'N' !in line
    ensures 'N' !in Join(lines, '\n')
  {
    if |lines| > 1 { NoNJoined(lines[1..]); }
  }

  lemma LinesAreClear()
    ensures 'N' !in OPENING && 'N' !in HOST && 'N' !in USER && 'N' !in DIRECTORY && 'N' !in ADDRESSES
    ensures '\n' !in OPENING && '\n' !in HOST && '\n' !in USER && '\n' !in DIRECTORY && '\n' !in ADDRESSES
  {
    FramesAreNeutral();
    CommandsAreNeutral();
    hide Labelled;
    LabelledIsFormatted('H', HOST_COMMAND);
    LabelledIsFormatted('U', USER_COMMAND);
    LabelledIsFormatted('P', DIRECTORY_COMMAND);
    LabelledIsFormatted('A', ADDRESS_COMMAND + ADDRESS_PIPE);
  }

  // ----- the two ends of the condition -----

  lemma {:induction false} NoValue(lines: seq<string>, tag: char)
    requires forall line <- lines :: line == [] || line[0] != tag
    ensures FirstValue(lines, tag).None?
  {
    if lines != [] { NoValue(lines[1..], tag); }
  }

  /**
   * An unbroken echo is never an answer, whatever is on the screen before it and whatever comes after it: not even
   * the real answer, when the terminal shows the whole script before the shell runs any of it.
   */
  lemma UnbrokenEchoIsNoAnswer(before: string, marker: string, after: string)
    requires IsHexMarker(marker) && !Contains(before, StartToken(marker))
    ensures ParseProbe(before + ProbeScript(marker) + after, marker) == None
  {
    var more := [OPENING + HOST, OPENING + USER, OPENING + DIRECTORY, OPENING + ADDRESSES, OPENING];
    LinesAreClear();
    assert FrontLines(marker) == [OPENING + StartToken(marker) + CLOSING] + more;
    assert OPENING[0] == 'p' && PROBE_PREFIX[0] == '_';
    var lines := [StartToken(marker) + CLOSING] + more;
    forall line <- lines ensures line == [] || line[0] != 'H' {}
    hide Join, Split, Body, Contains, IsHexMarker;
    BodyOfEcho(before, marker, more, after);
    NoValue(lines, 'H');
    hide FirstValue;
  }

  /**
   * And one broken before each of the three labels is one: a host name nobody printed, and no addresses to
   * contradict it.
   */
  lemma BrokenEchoAnswers(marker: string) returns (echo: string)
    requires IsHexMarker(marker)
    ensures Broken(ProbeScript(marker), echo) && ParseProbe(echo, marker).Some?
    ensures ParseProbe(echo, marker).value.addresses == []
  {
    var more := [OPENING, HOST, OPENING, USER, OPENING, DIRECTORY, OPENING + ADDRESSES, OPENING];
    echo := Join([OPENING + StartToken(marker) + CLOSING] + more, '\n') + (EndToken(marker) + CLOSING);
    LinesAreClear();
    EchoIsBroken(marker, echo);
    assert [] + echo + [] == echo;
    NoToken(marker);
    assert OPENING[0] == 'p' && PROBE_PREFIX[0] == '_' && HOST[0] == 'H' && USER[0] == 'U' && DIRECTORY[0] == 'P';
    var lines := [StartToken(marker) + CLOSING] + more;
    forall line <- lines ensures line == [] || line[0] != 'A' {}
    Labels();
    assert lines[2] == HOST && lines[4] == USER && lines[6] == DIRECTORY;
    hide Join, Split, Contains, Broken, IsHexMarker, ProbeScript;
    BodyOfEcho([], marker, more, []);
    hide Body;
    EchoAnswersIff(marker, echo);
    NoValue(lines, 'A');
    hide FirstValue;
  }

  lemma NoToken(marker: string)
    ensures !Contains([], StartToken(marker))
  {
    assert |StartToken(marker)| >= |PROBE_PREFIX| > 0;
  }

  lemma Labels()
    ensures ['H'] + "=%" <= HOST && ['U'] + "=%" <= USER && ['P'] + "=%" <= DIRECTORY
  {
    CommandsAreNeutral();
    hide Labelled;
    LabelledIsFormatted('H', HOST_COMMAND);
    LabelledIsFormatted('U', USER_COMMAND);
    LabelledIsFormatted('P', DIRECTORY_COMMAND);
  }

  lemma {:induction false} BrokenTwice(a: string, x: string, b: string, y: string)
    requires Broken(a, x) && Broken(b, y)
    ensures Broken(a + b, x + y)
    decreases |x|
  {
    if x == [] {
      assert a + b == b && x + y == y;
    } else {
      assert (x + y)[1..] == x[1..] + y;
      if x[0] == '\n' && Broken(a, x[1..]) {
        BrokenTwice(a, x[1..], b, y);
      } else {
        assert (a + b)[1..] == a[1..] + b;
        BrokenTwice(a[1..], x[1..], b, y);
      }
    }
  }

  lemma {:induction false} BrokenSelf(s: string)
    ensures Broken(s, s)
  {
    if s != [] { BrokenSelf(s[1..]); }
  }

  /** A line break in front of the labelled part of a line. */
  lemma BrokenLine(a: string, b: string)
    ensures Broken(a + b, a + ['\n'] + b)
  {
    BrokenSelf(a);
    BrokenSelf(b);
    assert (['\n'] + b)[1..] == b;
    assert Broken(b, ['\n'] + b);
    BrokenTwice(a, a, b, ['\n'] + b);
    assert a + (['\n'] + b) == a + ['\n'] + b;
    hide Broken;
  }

  /** Lines broken one by one make a broken text. */
  lemma BrokenJoin(line: string, text: string, more: seq<string>, rest: string)
    requires more != [] && Broken(line, text) && Broken(Join(more, '\n'), rest)
    ensures Broken(Join([line] + more, '\n'), text + ['\n'] + rest)
  {
    JoinedLines(line, more);
    BrokenSelf(['\n']);
    BrokenTwice(line, text, ['\n'], ['\n']);
    BrokenTwice(line + ['\n'], text + ['\n'], Join(more, '\n'), rest);
    hide Broken, Join;
  }

  lemma EchoIsBroken(marker: string, echo: string)
    requires echo == Join([OPENING + StartToken(marker) + CLOSING] +
                          [OPENING, HOST, OPENING, USER, OPENING, DIRECTORY, OPENING + ADDRESSES, OPENING], '\n') +
                     (EndToken(marker) + CLOSING)
    ensures Broken(ProbeScript(marker), echo)
  {
    var first, last := OPENING + StartToken(marker) + CLOSING, EndToken(marker) + CLOSING;
    hide StartToken, EndToken, Broken, Join;
    var l5, l4 := [OPENING], [OPENING + ADDRESSES, OPENING];
    BrokenSelf(Join(l4, '\n'));
    BrokenLine(OPENING, DIRECTORY);
    BrokenLine(OPENING, USER);
    BrokenLine(OPENING, HOST);
    BrokenSelf(first);
    BrokenSelf(last);
    var e3 := OPENING + ['\n'] + DIRECTORY + ['\n'] + Join(l4, '\n');
    var l3 := [OPENING + DIRECTORY] + l4;
    BrokenJoin(OPENING + DIRECTORY, OPENING + ['\n'] + DIRECTORY, l4, Join(l4, '\n'));
    var e2 := OPENING + ['\n'] + USER + ['\n'] + e3;
    var l2 := [OPENING + USER] + l3;
    BrokenJoin(OPENING + USER, OPENING + ['\n'] + USER, l3, e3);
    var e1 := OPENING + ['\n'] + HOST + ['\n'] + e2;
    var l1 := [OPENING + HOST] + l2;
    BrokenJoin(OPENING + HOST, OPENING + ['\n'] + HOST, l2, e2);
    BrokenJoin(first, first, l1, e1);
    BrokenTwice(Join([first] + l1, '\n'), first + ['\n'] + e1, last, last);
    assert [first] + l1 == FrontLines(marker);
    EchoJoins(first, l4);
  }

  /** The broken echo, line by line. */
  lemma EchoJoins(first: string, l4: seq<string>)
    requires l4 == [OPENING + ADDRESSES, OPENING]
    ensures var e3 := OPENING + ['\n'] + DIRECTORY + ['\n'] + Join(l4, '\n');
            var e2 := OPENING + ['\n'] + USER + ['\n'] + e3; var e1 := OPENING + ['\n'] + HOST + ['\n'] + e2;
            Join([first] + [OPENING, HOST, OPENING, USER, OPENING, DIRECTORY, OPENING + ADDRESSES, OPENING], '\n') ==
              first + ['\n'] + e1
  {
    var m3 := [OPENING, DIRECTORY] + l4;
    var m2 := [OPENING, USER] + m3;
    var m1 := [OPENING, HOST] + m2;
    hide Join;
    TwoLines(OPENING, DIRECTORY, l4);
    TwoLines(OPENING, USER, m3);
    TwoLines(OPENING, HOST, m2);
    JoinedLines(first, m1);
    assert m1 == [OPENING, HOST, OPENING, USER, OPENING, DIRECTORY, OPENING + ADDRESSES, OPENING];
  }

  lemma TwoLines(a: string, b: string, more: seq<string>)
    requires more != []
    ensures Join([a, b] + more, '\n') == a + ['\n'] + b + ['\n'] + Join(more, '\n')
  {
    JoinedLines(b, more);
    assert [a, b] + more == [a] + ([b] + more);
    JoinedLines(a, [b] + more);
    hide Join;
    assert a + ['\n'] + (b + ['\n'] + Join(more, '\n')) == a + ['\n'] + b + ['\n'] + Join(more, '\n');
  }

  // ----- a genuine answer -----

  /** What a field of the answer may hold: one line without white space at its edges. */
  predicate IsField(s: string) { '\n' !in s && '\r' !in s && Trim(s) == s }

  /** Nothing, or the question mark of a command that failed, tells nothing. */
  predicate Tells(s: string) { s != [] && s != "?" }

  predicate IsAddress(s: string) { s != [] && s != "?" && IsField(s) && ',' !in s }

  /** The lines of an answer; every line break may have a carriage return in front. */
  function AnswerLines(marker: string, answer: Answer, cr: string): seq<string> {
    [StartToken(marker) + cr, "H=" + answer.hostname + cr, "U=" + answer.user + cr, "P=" + answer.directory + cr,
     "A=" + Join(answer.addresses, ',') + cr, []]
  }

  lemma {:induction false} VisibleIs(s: string, cr: string)
    requires '\r' !in s && (cr == [] || cr == "\r")
    ensures Visible(s + cr) == s
  {
    if s != [] {
      assert (s + cr)[1..] == s[1..] + cr && s[0] in s;
      VisibleIs(s[1..], cr);
    } else {
      assert s + cr == cr;
    }
  }

  /** The line of a label gives its field, if there is anything on it; no other line does. */
  lemma FieldIs(tag: char, field: string, cr: string)
    requires '\r' !in field && (cr == [] || cr == "\r")
    ensures Value([tag, '='] + field + cr, tag) == if field == [] then None else Some(field)
  {
    var line := [tag, '='] + field + cr;
    assert line[2..] == field + cr;
    VisibleIs(field, cr);
    if field != [] { assert line[2] == field[0] && field[0] in field; }
  }

  lemma OtherTag(tag: char, line: string)
    requires line == [] || line[0] != tag
    ensures Value(line, tag).None?
  {
  }

  lemma {:induction false} FirstAt(lines: seq<string>, tag: char, i: nat)
    requires i < |lines| && forall k :: 0 <= k < |lines| && k != i ==> Value(lines[k], tag).None?
    ensures FirstValue(lines, tag) == Value(lines[i], tag)
    decreases |lines|
  {
    if i > 0 {
      FirstAt(lines[1..], tag, i - 1);
    } else if Value(lines[0], tag).None? {
      NoneAt(lines[1..], tag);
    }
  }

  lemma {:induction false} NoneAt(lines: seq<string>, tag: char)
    requires forall k :: 0 <= k < |lines| ==> Value(lines[k], tag).None?
    ensures FirstValue(lines, tag).None?
  {
    if lines != [] { NoneAt(lines[1..], tag); }
  }

  /** The line with label tag, and its field. */
  lemma GrabIs(lines: seq<string>, tag: char, i: nat, field: string, cr: string)
    requires i < |lines| && lines[i] == [tag, '='] + field + cr && (cr == [] || cr == "\r") && IsField(field)
    requires forall k :: 0 <= k < |lines| && k != i ==> lines[k] == [] || lines[k][0] != tag
    ensures Grab(lines, tag) == if Tells(field) then Some(field) else None
  {
    forall k | 0 <= k < |lines| && k != i ensures Value(lines[k], tag).None? { OtherTag(tag, lines[k]); }
    FieldIs(tag, field, cr);
    hide Value;
    FirstAt(lines, tag, i);
  }

  lemma {:induction false} AddressesAre(parts: seq<string>)
    requires forall p <- parts :: IsAddress(p)
    ensures Addresses(parts) == parts
  {
    if parts != [] {
      assert forall p <- parts[1..] :: p in parts;
      assert parts[0] in parts;
      AddressesAre(parts[1..]);
    }
  }

  /** The fields of an answer, and a list of addresses. */
  predicate IsAnswer(answer: Answer) {
    IsField(answer.hostname) && IsField(answer.user) && IsField(answer.directory) &&
    (forall a <- answer.addresses :: IsAddress(a)) && IsField(Join(answer.addresses, ',')) &&
    Join(answer.addresses, ',') != "?"
  }

  lemma AddressesRead(addresses: seq<string>)
    requires (forall a <- addresses :: IsAddress(a)) && Join(addresses, ',') != "?"
    ensures var all := Join(addresses, ',');
            (if Tells(all) then Addresses(Split(all, ',')) else []) == addresses
  {
    if addresses != [] {
      assert addresses[0] in addresses;
      assert Join(addresses, ',') != [];
      SplitJoin(addresses, ',');
      AddressesAre(addresses);
    }
  }

  /** What is read from the lines of an answer. */
  lemma LinesRead(marker: string, answer: Answer, cr: string)
    requires IsAnswer(answer) && (cr == [] || cr == "\r")
    ensures var lines := AnswerLines(marker, answer, cr);
            Grab(lines, 'H') == (if Tells(answer.hostname) then Some(answer.hostname) else None) &&
            Grab(lines, 'U') == (if Tells(answer.user) then Some(answer.user) else None) &&
            Grab(lines, 'P') == (if Tells(answer.directory) then Some(answer.directory) else None) &&
            Grab(lines, 'A') == if Tells(Join(answer.addresses, ',')) then Some(Join(answer.addresses, ',')) else None
  {
    var lines := AnswerLines(marker, answer, cr);
    assert lines[0][0] == '_' && lines[1][0] == 'H' && lines[2][0] == 'U' && lines[3][0] == 'P' && lines[4][0] == 'A';
    hide Grab, IsField, StartToken, Join;
    GrabIs(lines, 'H', 1, answer.hostname, cr);
    GrabIs(lines, 'U', 2, answer.user, cr);
    GrabIs(lines, 'P', 3, answer.directory, cr);
    GrabIs(lines, 'A', 4, Join(answer.addresses, ','), cr);
  }

  /**
   * A genuine answer is read back as it was given, whatever stands in front of its first token and behind its last
   * one, if host, user and directory tell something, and is no answer otherwise.
   */
  lemma AnswerRoundTrip(before: string, marker: string, answer: Answer, cr: string, after: string)
    requires IsAnswer(answer) && (cr == [] || cr == "\r") && IsHexMarker(marker)
    requires var body := Join(AnswerLines(marker, answer, cr), '\n');
             var text := before + body + EndToken(marker) + after;
             (forall k :: 0 <= k < |before| ==> !At(text, k, StartToken(marker))) &&
             forall k :: |before| <= k < |before + body| ==> !At(text, k, EndToken(marker))
    ensures var text := before + Join(AnswerLines(marker, answer, cr), '\n') + EndToken(marker) + after;
            ParseProbe(text, marker) ==
            if Tells(answer.hostname) && Tells(answer.user) && Tells(answer.directory) then Some(answer) else None
  {
    var lines := AnswerLines(marker, answer, cr);
    var body := Join(lines, '\n');
    var text := before + body + EndToken(marker) + after;
    LinesAreLines(marker, answer, cr);
    SplitJoin(lines, '\n');
    BodyBegins(marker, answer, cr);
    LinesRead(marker, answer, cr);
    AddressesRead(answer.addresses);
    hide StartToken, EndToken, Split, Join, Grab, AnswerLines, Addresses, IsAnswer;
    TokensFound(before, body, StartToken(marker), EndToken(marker), after);
    assert Body(text, marker) == Some(body);
  }

  /** The body between the first start token and the first end token behind it. */
  lemma TokensFound(before: string, body: string, start: string, end: string, after: string)
    requires start <= body
    requires var text := before + body + end + after;
             (forall k :: 0 <= k < |before| ==> !At(text, k, start)) &&
             forall k :: |before| <= k < |before + body| ==> !At(text, k, end)
    ensures var text := before + body + end + after;
            IndexFrom(text, start, 0) == Some(|before|) && IndexFrom(text, end, |before|) == Some(|before + body|) &&
            |before + body| <= |text| && text[|before|..|before + body|] == body
  {
    var text := before + body + end + after;
    assert text[|before|..|before| + |start|] == start;
    assert text[|before + body|..|before + body| + |end|] == end;
    IndexIs(text, start, 0, |before|);
    IndexIs(text, end, |before|, |before + body|);
  }

  lemma LinesAreLines(marker: string, answer: Answer, cr: string)
    requires IsAnswer(answer) && (cr == [] || cr == "\r") && IsHexMarker(marker)
    ensures forall line <- AnswerLines(marker, answer, cr) :: '\n' !in line
  {
    hide Join, Trim;
    assert '\n' !in marker && '\n' !in PROBE_PREFIX;
  }

  lemma BodyBegins(marker: string, answer: Answer, cr: string)
    ensures StartToken(marker) <= Join(AnswerLines(marker, answer, cr), '\n')
  {
    var lines := AnswerLines(marker, answer, cr);
    assert Join(lines, '\n') == lines[0] + ['\n'] + Join(lines[1..], '\n');
  }
}
