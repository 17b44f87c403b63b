/**
 * Running one command over a terminal (src/jumpserver/command-runner.ts): the script that prints a done
 * marker, the parser that waits for it, and the cleaning of the captured output. Captures are taken
 * after escape stripping, and exit codes are the exact numbers their digits spell.
 */
module CommandRunner {
  import opened Basics

  const DONE_PREFIX := "__DSH_JS_DONE_"

  function Token(marker: string): string { DONE_PREFIX + marker }

  predicate IsWord(c: char) { 'a' <= c <= 'z' || 'A' <= c <= 'Z' || '0' <= c <= '9' || c == '_' }

  /** randomHex yields word characters. */
  predicate IsMarker(marker: string) { forall i :: 0 <= i < |marker| ==> IsWord(marker[i]) }

  // ----- can a wrapper be appended to the command? -----

  /** A character the shell reads as syntax, or one that quoting hides. */
  datatype Lexeme = Plain(c: char) | Hidden

  predicate IsQuote(c: char) { c == '\'' || c == '"' }

  /** The command as the quote scan sees it, character by character. */
  function Lex(command: string, quote: Option<char>): (r: seq<Lexeme>)
    ensures |r| == |command|
    decreases |command|
  {
    if command == [] then []
    else if quote.Some? then [Hidden] + Lex(command[1..], if command[0] == quote.value then None else quote)
    else if command[0] == '\\' then
      if |command| == 1 then [Hidden] else [Hidden, Hidden] + Lex(command[2..], None)
    else if IsQuote(command[0]) then [Hidden] + Lex(command[1..], Some(command[0]))
    else [Plain(command[0])] + Lex(command[1..], None)
  }

  /** No comment sign, and ampersands only in pairs. */
  function Accepts(ls: seq<Lexeme>): bool {
    ls == [] ||
    (ls[0] != Plain('#') &&
     if ls[0] == Plain('&') then |ls| >= 2 && ls[1] == Plain('&') && Accepts(ls[2..]) else Accepts(ls[1..]))
  }

  /** How many ampersands follow each other at the front. */
  function RunLength(ls: seq<Lexeme>): (n: nat)
    ensures n <= |ls|
  {
    if ls == [] || ls[0] != Plain('&') then 0 else 1 + RunLength(ls[1..])
  }

  predicate StartsRun(ls: seq<Lexeme>, i: nat) { i < |ls| && (i == 0 || ls[i - 1] != Plain('&')) }

  /** No bare comment sign, and every run of bare ampersands has even length. */
  ghost predicate WellPaired(ls: seq<Lexeme>) {
    Plain('#') !in ls && forall i: nat | StartsRun(ls, i) :: RunLength(ls[i..]) % 2 == 0
  }

  lemma DropOther(ls: seq<Lexeme>)
    requires ls != [] && ls[0] != Plain('&')
    ensures WellPaired(ls) <==> ls[0] != Plain('#') && WellPaired(ls[1..])
  {
    var rest := ls[1..];
    assert ls == [ls[0]] + rest && ls[0..] == ls;
    assert RunLength(ls) == 0;
    forall i: nat | i >= 1 && StartsRun(ls, i) ensures StartsRun(rest, i - 1) && ls[i..] == rest[i - 1..] {}
    forall i: nat | StartsRun(rest, i) ensures StartsRun(ls, i + 1) && ls[i + 1..] == rest[i..] {}
  }

  lemma DropPair(ls: seq<Lexeme>)
    requires |ls| >= 2 && ls[0] == Plain('&') && ls[1] == Plain('&')
    ensures WellPaired(ls) <==> WellPaired(ls[2..])
  {
    var rest := ls[2..];
    assert ls == [ls[0], ls[1]] + rest && ls[0..] == ls && rest[0..] == rest && ls[1..][1..] == rest;
    assert RunLength(ls) == 2 + RunLength(rest);
    assert StartsRun(ls, 0);
    forall i: nat | i >= 2 && StartsRun(ls, i) ensures StartsRun(rest, i - 2) && ls[i..] == rest[i - 2..] {}
    forall i: nat | i > 0 && StartsRun(rest, i) ensures StartsRun(ls, i + 2) && ls[i + 2..] == rest[i..] {}
  }

  lemma LoneIsOdd(ls: seq<Lexeme>)
    requires ls != [] && ls[0] == Plain('&') && (|ls| == 1 || ls[1] != Plain('&'))
    ensures !WellPaired(ls)
  {
    assert StartsRun(ls, 0) && ls[0..] == ls && RunLength(ls[1..]) == 0;
  }

  /** The scan accepts exactly the commands without a bare comment sign whose runs of bare ampersands are even. */
  lemma {:induction false} AcceptsIff(ls: seq<Lexeme>)
    ensures Accepts(ls) <==> WellPaired(ls)
    decreases |ls|
  {
    if ls != [] {
      if ls[0] != Plain('&') {
        AcceptsIff(ls[1..]);
        DropOther(ls);
      } else if |ls| >= 2 && ls[1] == Plain('&') {
        AcceptsIff(ls[2..]);
        DropPair(ls);
      } else {
        LoneIsOdd(ls);
      }
      hide WellPaired;
    }
  }

  /** replace(/;$/, '') */
  function DropSemicolon(s: string): string { if s != [] && s[|s| - 1] == ';' then s[..|s| - 1] else s }

  function Appendable(command: string): string { DropSemicolon(TrimEnd(command)) }

  /** The command does not end in an operator that still waits for its right-hand side. */
  predicate EndsCleanly(command: string) {
    var trimmed := Trim(Appendable(command));
    trimmed != [] && trimmed[|trimmed| - 1] !in "|><&"
  }

  predicate Inline(command: string) { Accepts(Lex(command, None)) && EndsCleanly(command) }

  /** canAppendInline. */
  method CanAppendInline(command: string) returns (r: bool)
    ensures r <==> Inline(command)
  {
    var quote: Option<char> := None;
    var i := 0;
    assert command[0..] == command;
    while i < |command|
      invariant 0 <= i <= |command| + 1
      invariant i == |command| + 1 ==> quote.None?
      invariant Accepts(Lex(command, None)) == Accepts(Lex(if i <= |command| then command[i..] else [], quote))
      decreases |command| - i
    {
      var ch := command[i];
      ghost var here := command[i..];
      assert here[1..] == command[i + 1..];
      if quote.Some? {
        if ch == quote.value { quote := None; }
        i := i + 1;
        continue;
      }
      if ch == '\\' {
        if |here| > 1 { assert here[2..] == command[i + 2..]; HiddenPair(here); }
        i := i + 2;
        continue;
      }
      if ch == '\'' || ch == '"' {
        quote := Some(ch);
        i := i + 1;
        continue;
      }
      if ch == '#' {
        return false;
      }
      if ch == '&' {
        if i + 1 < |command| && command[i + 1] == '&' {
          AmpersandPair(here);
          assert here[2..] == command[i + 2..];
          i := i + 2;
          continue;
        }
        LoneAmpersand(here);
        return false;
      }
      i := i + 1;
    }
    var trimmed := Trim(Appendable(command));
    if |trimmed| == 0 {
      return false;
    }
    var last := trimmed[|trimmed| - 1];
    return last != '|' && last != '>' && last != '<' && last != '&';
  }

  lemma HiddenPair(s: string)
    requires |s| >= 2 && s[0] == '\\'
    ensures Accepts(Lex(s, None)) == Accepts(Lex(s[2..], None))
  {
    var ls := Lex(s, None);
    assert ls[1..] == [Hidden] + Lex(s[2..], None);
    assert ls[1..][1..] == Lex(s[2..], None);
  }

  lemma AmpersandPair(s: string)
    requires |s| >= 2 && s[0] == '&' && s[1] == '&'
    ensures Accepts(Lex(s, None)) == Accepts(Lex(s[2..], None))
  {
    assert s[1..][1..] == s[2..];
    var ls := Lex(s, None);
    assert ls[1..] == Lex(s[1..], None) && ls[1..][1..] == Lex(s[2..], None);
    assert ls[2..] == Lex(s[2..], None);
  }

  lemma LoneAmpersand(s: string)
    requires s != [] && s[0] == '&' && (|s| == 1 || s[1] != '&')
    ensures !Accepts(Lex(s, None))
  {
    if |s| > 1 { assert Lex(s, None)[1] == Lex(s[1..], None)[0]; }
  }

  // ----- what the scan sees, and what may stand last -----

  /** Nothing between two quotes of a kind counts, whatever stands there, and a quote left open hides the rest. */
  lemma {:induction false} QuotesHide(q: char, inner: string, rest: string)
    requires (q == '\'' || q == '"') && q !in inner
    ensures Lex([q] + inner + [q] + rest, None) == seq(|inner| + 2, i => Hidden) + Lex(rest, None)
    ensures Lex([q] + inner, None) == seq(|inner| + 1, i => Hidden)
  {
    InsideQuotes(q, inner, rest);
    var closed, open := [q] + inner + [q] + rest, [q] + inner;
    assert closed[1..] == inner + [q] + rest && open[1..] == inner;
  }

  lemma QuotedCharacter(c: char, rest: string, q: char)
    ensures Lex([c] + rest, Some(q)) == [Hidden] + Lex(rest, if c == q then None else Some(q))
  {
    assert ([c] + rest)[1..] == rest;
  }

  lemma {:induction false} InsideQuotes(q: char, inner: string, rest: string)
    requires q !in inner
    ensures Lex(inner + [q] + rest, Some(q)) == seq(|inner| + 1, i => Hidden) + Lex(rest, None)
    ensures Lex(inner, Some(q)) == seq(|inner|, i => Hidden)
  {
    if inner == [] {
      assert [] + [q] + rest == [q] + rest;
      QuotedCharacter(q, rest, q);
    } else {
      hide Lex;
      assert inner + [q] + rest == [inner[0]] + (inner[1..] + [q] + rest) && inner == [inner[0]] + inner[1..];
      InsideQuotes(q, inner[1..], rest);
      QuotedCharacter(inner[0], inner[1..] + [q] + rest, q);
      QuotedCharacter(inner[0], inner[1..], q);
    }
  }

  lemma BareCharacter(c: char, rest: string)
    requires c != '\\' && c != '\'' && c != '"'
    ensures Lex([c] + rest, None) == [Plain(c)] + Lex(rest, None)
  {
    assert ([c] + rest)[1..] == rest;
  }

  function Plains(bare: string): (r: seq<Lexeme>)
    ensures |r| == |bare| && forall i :: 0 <= i < |r| ==> r[i] == Plain(bare[i])
  {
    seq(|bare|, i requires 0 <= i < |bare| => Plain(bare[i]))
  }

  /** Outside of quotes every character counts as itself, but a backslash and the character behind it. */
  lemma {:induction false} BareCounts(bare: string, rest: string)
    requires '\\' !in bare && '\'' !in bare && '"' !in bare
    ensures Lex(bare + rest, None) == Plains(bare) + Lex(rest, None)
  {
    if bare == [] {
      assert bare + rest == rest;
    } else {
      hide Lex;
      BareCounts(bare[1..], rest);
      assert bare + rest == [bare[0]] + (bare[1..] + rest) && bare[0] in bare;
      BareCharacter(bare[0], bare[1..] + rest);
      assert Plains(bare) == [Plain(bare[0])] + Plains(bare[1..]);
    }
  }

  lemma EscapedHides(c: char, rest: string)
    ensures Lex(['\\', c] + rest, None) == [Hidden, Hidden] + Lex(rest, None)
  {
    assert (['\\', c] + rest)[2..] == rest;
  }

  /** Spaces at the end go, and what stands before them stays. */
  lemma {:induction false} SpacesGo(s: string, spaces: string)
    requires s != [] && !IsSpace(s[|s| - 1]) && forall c <- spaces :: IsSpace(c)
    ensures TrimEnd(s + spaces) == s
    decreases |spaces|
  {
    if spaces == [] {
      assert s + spaces == s;
    } else {
      var n := |spaces| - 1;
      assert (s + spaces)[..|s| + n] == s + spaces[..n];
      SpacesGo(s, spaces[..n]);
    }
  }

  lemma {:induction false} LastStays(front: string, c: char, spaces: string)
    requires !IsSpace(c) && forall d <- spaces :: IsSpace(d)
    ensures var r := Trim(front + [c] + spaces); r != [] && r[|r| - 1] == c
    decreases |front|
  {
    var s := front + [c] + spaces;
    if front != [] && IsSpace(front[0]) {
      LastStays(front[1..], c, spaces);
      assert s[1..] == front[1..] + [c] + spaces;
    } else {
      SpacesGo(front + [c], spaces);
      assert s[0] == (front + [c])[0];
    }
  }

  /**
   * Behind its last character that is neither white space nor a semicolon, a command may have white space and one
   * semicolon; it ends cleanly exactly when that character is no operator that waits for more.
   */
  lemma EndsCleanlyIff(front: string, c: char, before: string, semicolon: bool, behind: string)
    requires !IsSpace(c) && c != ';' && (forall d <- before :: IsSpace(d)) && forall d <- behind :: IsSpace(d)
    ensures EndsCleanly(front + [c] + before + (if semicolon then ";" else []) + behind) <==>
            c != '|' && c != '>' && c != '<' && c != '&'
  {
    var kept := front + [c];
    if semicolon {
      var s := kept + before + ";";
      SpacesGo(s, behind);
      assert Appendable(s + behind) == kept + before;
      LastStays(front, c, before);
    } else {
      var spaces := before + behind;
      SpacesGo(kept, spaces);
      assert kept + before + [] + behind == kept + spaces;
      assert Appendable(kept + spaces) == kept;
      LastStays(front, c, []);
      assert kept + [] == kept;
    }
  }

  // ----- the script -----

  const PRINTF := "printf '\\n"
  const AFTER_TOKEN := ":%s\\n' \"$?\""

  function Wrapper(marker: string): string { PRINTF + Token(marker) + AFTER_TOKEN }

  /** buildDoneScript. */
  function BuildDoneScript(command: string, marker: string): string {
    if Inline(command) then Appendable(command) + " ; " + Wrapper(marker)
    else "{\n" + command + "\n} ; " + Wrapper(marker)
  }

  // ----- the parser -----

  predicate IsColon(c: char) { c == ':' || c == '：' }

  /** The token, a colon and a digit. */
  predicate MarkerAt(text: string, i: int, token: string) {
    At(text, i, token) && i + |token| + 1 < |text| && IsColon(text[i + |token|]) && IsDigit(text[i + |token| + 1])
  }

  predicate LineStart(text: string, i: int) { i == 0 || (0 < i <= |text| && text[i - 1] == '\n') }

  predicate DoneAt(text: string, i: int, token: string) { LineStart(text, i) && MarkerAt(text, i, token) }

  /** The first place at or after i where the done pattern matches. */
  function FindFrom(text: string, i: nat, token: string): (r: Option<nat>)
    ensures r.Some? ==> i <= r.value < |text| && DoneAt(text, r.value, token) &&
                        forall k :: i <= k < r.value ==> !DoneAt(text, k, token)
    ensures r.None? ==> forall k :: i <= k < |text| ==> !DoneAt(text, k, token)
    decreases |text| - i
  {
    if i >= |text| then None else if DoneAt(text, i, token) then Some(i) else FindFrom(text, i + 1, token)
  }

  function FindDone(text: string, token: string): Option<nat> { FindFrom(text, 0, token) }

  function LeadingDigits(s: string): (r: string)
    ensures r <= s && forall c <- r :: IsDigit(c)
  {
    if s == [] || !IsDigit(s[0]) then [] else [s[0]] + LeadingDigits(s[1..])
  }

  /** parseDoneLine. */
  function ParseDoneLine(text: string, marker: string): Option<nat> {
    var token := Token(marker);
    match FindDone(text, token)
    case None => None
    case Some(i) => Some(ParseDecimal(LeadingDigits(text[i + |token| + 1..])))
  }

  // ----- the echo of the script never parses -----

  /** text is the script with line breaks inserted. */
  predicate Broken(script: string, text: string)
    decreases |text|
  {
    if text == [] then script == []
    else (text[0] == '\n' && Broken(script, text[1..])) ||
         (script != [] && text[0] == script[0] && Broken(script[1..], text[1..]))
  }

  /** Text without line breaks that shows up in the echo is in the script, and the echo goes on as the script does. */
  lemma {:induction false} EchoedPiece(script: string, text: string, i: nat, piece: string) returns (j: nat)
    requires Broken(script, text) && At(text, i, piece) && '\n' !in piece
    ensures At(script, j, piece) && Broken(script[j + |piece|..], text[i + |piece|..])
    decreases |text|, |piece|
  {
    if i == 0 {
      j := 0;
      FrontPiece(script, text, piece);
    } else {
      InTailOf(text, i, piece);
      if text[0] == '\n' && Broken(script, text[1..]) {
        j := EchoedPiece(script, text[1..], i - 1, piece);
      } else {
        var k := EchoedPiece(script[1..], text[1..], i - 1, piece);
        j := k + 1;
        hide Broken;
        FromTailOf(script, k, piece);
      }
    }
  }

  lemma InTailOf(s: string, i: nat, piece: string)
    requires i > 0 && At(s, i, piece)
    ensures At(s[1..], i - 1, piece) && s[1..][i - 1 + |piece|..] == s[i + |piece|..]
  {
    SliceOfDrop(s, 1, i - 1, i - 1 + |piece|);
    DropOfDrop(s, 1, i - 1 + |piece|);
  }

  lemma FromTailOf(s: string, k: nat, piece: string)
    requires s != [] && At(s[1..], k, piece)
    ensures At(s, k + 1, piece) && s[1..][k + |piece|..] == s[k + 1 + |piece|..]
  {
    SliceOfDrop(s, 1, k, k + |piece|);
    DropOfDrop(s, 1, k + |piece|);
  }

  /** The same at the very front: the piece begins the script. */
  lemma {:induction false} FrontPiece(script: string, text: string, piece: string)
    requires Broken(script, text) && At(text, 0, piece) && '\n' !in piece
    ensures At(script, 0, piece) && Broken(script[|piece|..], text[|piece|..])
    decreases |text|
  {
    if piece == [] {
      assert script[0..] == script && text[0..] == text;
    } else {
      assert text[0] == piece[0] != '\n';
      assert text[1..][0..|piece| - 1] == piece[1..] by { assert text[0..|piece|][1..] == piece[1..]; }
      FrontPiece(script[1..], text[1..], piece[1..]);
      assert script[0..|piece|] == [script[0]] + script[1..][0..|piece| - 1];
      assert script[1..][|piece| - 1..] == script[|piece|..] && text[1..][|piece| - 1..] == text[|piece|..];
    }
  }

  /**
   * In a text made of an opening, a command without the token, a joint, the token and the rest of the
   * wrapper, the token occurs only where the wrapper put it.
   */
  lemma TokenOnlyInWrapper(opening: string, command: string, joint: string, token: string, rest: string, j: nat)
    requires !Contains(command, token)
    requires token != [] && token[0] == '_' && NoUnderscore(opening) && NoUnderscore(joint) && NoUnderscore(rest)
    requires (forall c <- token :: IsWord(c)) && joint != [] && !IsWord(joint[0]) && rest != [] && !IsWord(rest[0])
    requires At(opening + command + joint + token + rest, j, token)
    ensures j == |opening| + |command| + |joint|
  {
    var s := opening + command + joint + token + rest;
    var c := |opening| + |command|;
    var t := c + |joint|;
    var n := |token|;
    assert forall k :: 0 <= k < |opening| ==> s[k] == opening[k];
    assert forall k :: c <= k < t ==> s[k] == joint[k - c];
    assert forall k :: t + n <= k < |s| ==> s[k] == rest[k - t - n];
    forall k | j <= k < j + n ensures s[k] == token[k - j] && IsWord(s[k]) {
      assert s[k] == s[j..j + n][k - j];
    }
    assert s[c] == joint[0] && s[t + n] == rest[0] && s[j] == '_';
    assert At(s, j, token);
    forall m | |opening| <= m && m + n <= c ensures !At(s, m, token) {
      assert s[m..m + n] == command[m - |opening|..m - |opening| + n];
      assert !At(command, m - |opening|, token);
    }
  }

  /** The echo of a text begins like the text, or with an inserted line break. */
  lemma EchoBegins(script: string, text: string)
    requires Broken(script, text) && |script| >= 2
    ensures |text| >= 2 && (text[0] == '\n' || (text[0] == script[0] && (text[1] == '\n' || text[1] == script[1])))
  {
    BrokenLength(script, text);
  }

  /** Behind the token the echo of the wrapper shows no colon with a digit, whatever line breaks it got. */
  lemma AfterTokenIsNoCode(text: string)
    requires Broken(AFTER_TOKEN, text)
    ensures |text| >= 2 && !(IsColon(text[0]) && IsDigit(text[1]))
  {
    hide Broken;
    assert AFTER_TOKEN[1] == '%';
    EchoBegins(AFTER_TOKEN, text);
  }

  lemma {:induction false} BrokenLength(script: string, text: string)
    requires Broken(script, text)
    ensures |text| >= |script|
    decreases |text|
  {
    if text != [] {
      if text[0] == '\n' && Broken(script, text[1..]) { BrokenLength(script, text[1..]); }
      else { BrokenLength(script[1..], text[1..]); }
    }
  }

  lemma TokenIsWord(marker: string)
    requires IsMarker(marker)
    ensures forall c <- Token(marker) :: IsWord(c)
    ensures Token(marker)[0] == '_'
  {
    assert forall i :: 0 <= i < |DONE_PREFIX| ==> IsWord(DONE_PREFIX[i]);
    var token := Token(marker);
    forall i | 0 <= i < |token| ensures IsWord(token[i]) {
      if i >= |DONE_PREFIX| { assert token[i] == marker[i - |DONE_PREFIX|]; }
    }
  }

  predicate NoUnderscore(s: string) { forall i :: 0 <= i < |s| ==> s[i] != '_' }

  lemma WrapperHasNoUnderscore()
    ensures NoUnderscore(PRINTF) && NoUnderscore(AFTER_TOKEN)
  {
  }

  lemma JointsHaveNoUnderscore()
    ensures NoUnderscore(" ; ") && NoUnderscore("\n} ; ") && NoUnderscore("{\n") && !IsWord(" ; "[0]) &&
            !IsWord("\n} ; "[0])
  {
  }

  lemma Regroup(opening: string, body: string, joint: string, printf: string, token: string, rest: string)
    ensures opening + body + joint + (printf + token + rest) == opening + body + (joint + printf) + token + rest
    ensures NoUnderscore(joint) && NoUnderscore(printf) ==> NoUnderscore(joint + printf)
  {
  }

  /** The two forms of the script have the shape TokenOnlyInWrapper speaks of. */
  lemma ScriptShape(command: string, marker: string) returns (opening: string, body: string, joint: string)
    ensures BuildDoneScript(command, marker) == opening + body + joint + Token(marker) + AFTER_TOKEN
    ensures body <= command && NoUnderscore(opening) && NoUnderscore(joint) && joint != [] && !IsWord(joint[0])
  {
    WrapperHasNoUnderscore();
    JointsHaveNoUnderscore();
    var token, printf, rest := Token(marker), PRINTF, AFTER_TOKEN;
    var separator: string;
    if Inline(command) {
      opening, body, separator := "", Appendable(command), " ; ";
      assert opening + body == body;
    } else {
      opening, body, separator := "{\n", command, "\n} ; ";
    }
    joint := separator + printf;
    Regroup(opening, body, separator, printf, token, rest);
    hide Inline, Token, NoUnderscore;
    assert BuildDoneScript(command, marker) == opening + body + separator + (printf + token + rest);
  }

  lemma ContainsPrefix(a: string, b: string, pat: string)
    requires a <= b && !Contains(b, pat)
    ensures !Contains(a, pat)
  {
    forall i | 0 <= i <= |a| && At(a, i, pat) ensures false {
      assert b[i..i + |pat|] == a[i..i + |pat|];
      assert At(b, i, pat);
    }
  }

  /** Wherever the token shows up in an echo, no exit code follows it inside the echo. */
  lemma EchoHasNoCode(command: string, marker: string, echo: string, i: nat)
    requires IsMarker(marker) && !Contains(command, Token(marker)) && Broken(BuildDoneScript(command, marker), echo)
    requires At(echo, i, Token(marker))
    ensures var k := i + |Token(marker)|; k + 1 < |echo| && !(IsColon(echo[k]) && IsDigit(echo[k + 1]))
  {
    var token := Token(marker);
    var script := BuildDoneScript(command, marker);
    var opening, body, joint := ScriptShape(command, marker);
    TokenIsWord(marker);
    WrapperHasNoUnderscore();
    hide BuildDoneScript, Token, Broken;
    ContainsPrefix(body, command, token);
    var j := EchoedPiece(script, echo, i, token);
    TokenOnlyInWrapper(opening, body, joint, token, AFTER_TOKEN, j);
    assert script[j + |token|..] == AFTER_TOKEN;
    AfterTokenIsNoCode(echo[i + |token|..]);
  }

  /**
   * The echo cannot spoof completion: for a command that does not contain the token, no text made from
   * the script by inserting line breaks parses as done.
   */
  lemma EchoNeverParses(command: string, marker: string, echo: string)
    requires IsMarker(marker) && !Contains(command, Token(marker))
    requires Broken(BuildDoneScript(command, marker), echo)
    ensures ParseDoneLine(echo, marker) == None
  {
    var token := Token(marker);
    hide BuildDoneScript, Broken, Token;
    match FindDone(echo, token) {
      case None =>
      case Some(i) => EchoHasNoCode(command, marker, echo, i);
    }
  }

  // ----- the round trip -----

  lemma {:induction false} BrokenLast(script: string, text: string)
    requires Broken(script, text) && script != []
    ensures text != [] && (text[|text| - 1] == '\n' || text[|text| - 1] == script[|script| - 1])
    decreases |text|
  {
    if text != [] {
      if text[0] == '\n' && Broken(script, text[1..]) { BrokenLast(script, text[1..]); }
      else if |script| == 1 {
        if text[1..] != [] { BrokenEmpty(text[1..]); }
      } else {
        BrokenLast(script[1..], text[1..]);
      }
    }
  }

  lemma {:induction false} BrokenEmpty(text: string)
    requires Broken([], text)
    ensures forall i :: 0 <= i < |text| ==> text[i] == '\n'
  {
    if text != [] { BrokenEmpty(text[1..]); }
  }

  lemma {:induction false} LeadingDigitsAre(d: string, after: string)
    requires (forall c <- d :: IsDigit(c)) && (after == [] || !IsDigit(after[0]))
    ensures LeadingDigits(d + after) == d
  {
    if d == [] {
      assert d + after == after;
    } else {
      assert (d + after)[1..] == d[1..] + after && [d[0]] + d[1..] == d;
      LeadingDigitsAre(d[1..], after);
    }
  }

  /** The capture of a command that ran: its echo, its output, the marker line, and whatever came next. */
  function Capture(echo: string, output: string, marker: string, code: nat, next: string): string {
    echo + output + "\n" + (Token(marker) + ":" + Decimal(code) + "\n" + next)
  }

  /** Where the token shows up in this text, no colon with a digit follows. */
  ghost predicate Codeless(text: string, token: string) {
    forall i: nat :: At(text, i, token) ==>
      i + |token| + 1 < |text| && !(IsColon(text[i + |token|]) && IsDigit(text[i + |token| + 1]))
  }

  /** Between a codeless echo and a line break no marker shows up in output without the token. */
  lemma NoMarkerBefore(echo: string, output: string, tail: string, token: string, i: nat)
    requires Codeless(echo, token) && echo != [] && !IsWord(echo[|echo| - 1]) && !Contains(output, token)
    requires token != [] && (forall c <- token :: IsWord(c)) && i <= |echo| + |output|
    ensures !MarkerAt(echo + output + "\n" + tail, i, token)
  {
    var text := echo + output + "\n" + tail;
    var n, m := |token|, |echo| + |output|;
    assert text[m] == '\n' && text[|echo| - 1] == echo[|echo| - 1];
    if At(text, i, token) {
      forall k | i <= k < i + n ensures IsWord(text[k]) { assert text[k] == text[i..i + n][k - i]; }
      if i + n <= |echo| {
        assert echo[i..i + n] == text[i..i + n];
        assert At(echo, i, token);
        assert text[i + n] == echo[i + n] && text[i + n + 1] == echo[i + n + 1];
      } else if |echo| <= i && i + n <= m {
        NotInOutput(echo, output, tail, token, i);
      }
    }
  }

  lemma NotInOutput(echo: string, output: string, tail: string, token: string, i: nat)
    requires !Contains(output, token) && |echo| <= i && i + |token| <= |echo| + |output|
    ensures !At(echo + output + "\n" + tail, i, token)
  {
    var text := echo + output + "\n" + tail;
    assert output[i - |echo|..i - |echo| + |token|] == text[i..i + |token|];
    assert !At(output, i - |echo|, token);
  }

  lemma {:induction false} EchoEnds(command: string, marker: string, echo: string)
    requires Broken(BuildDoneScript(command, marker), echo)
    ensures echo != [] && !IsWord(echo[|echo| - 1])
  {
    var script := BuildDoneScript(command, marker);
    var opening, body, joint := ScriptShape(command, marker);
    assert script[|script| - 1] == AFTER_TOKEN[|AFTER_TOKEN| - 1];
    hide BuildDoneScript;
    BrokenLast(script, echo);
  }

  lemma RealMarker(echo: string, output: string, marker: string, code: nat, next: string)
    ensures var text := Capture(echo, output, marker, code, next); var i := |echo| + |output| + 1;
            i < |text| && DoneAt(text, i, Token(marker)) &&
              text[i + |Token(marker)| + 1..] == Decimal(code) + ("\n" + next)
  {
    var before, token, digits := echo + output + "\n", Token(marker), Decimal(code);
    var tail := token + ":" + digits + "\n" + next;
    assert Capture(echo, output, marker, code, next) == before + tail;
    MarkerBehind(before, token, digits, "\n" + next);
    assert tail == token + ":" + digits + ("\n" + next);
    hide Capture, Token, Decimal, DoneAt;
  }

  lemma MarkerBehind(before: string, token: string, digits: string, after: string)
    requires before != [] && before[|before| - 1] == '\n' && digits != [] && IsDigit(digits[0])
    ensures var text := before + (token + ":" + digits + after); var i := |before|;
            i < |text| && DoneAt(text, i, token) && text[i + |token| + 1..] == digits + after
  {
    var tail := token + ":" + digits + after;
    var text, i, n := before + tail, |before|, |token|;
    assert tail[..n] == token && tail[n] == ':' && tail[n + 1..] == digits + after;
    assert text[i..] == tail;
    SliceOfDrop(text, i, 0, n);
    DropOfDrop(text, i, n + 1);
    assert text[i + n] == tail[n] && text[i + n + 1] == tail[n + 1] && text[i - 1] == '\n';
  }

  /**
   * Round trip: whatever line breaks the terminal inserted into the echo, whatever the command printed
   * (but the token) and whatever follows, the exit code that was printed is the one that is parsed.
   */
  lemma {:induction false} ExitCodeRoundTrip(command: string, marker: string, echo: string, output: string, code: nat,
      next: string)
    requires IsMarker(marker) && !Contains(command, Token(marker)) && Broken(BuildDoneScript(command, marker), echo)
    requires !Contains(output, Token(marker))
    ensures FindDone(Capture(echo, output, marker, code, next), Token(marker)) == Some(|echo| + |output| + 1)
    ensures ParseDoneLine(Capture(echo, output, marker, code, next), marker) == Some(code)
  {
    hide BuildDoneScript, Broken, FindDone, ParseDoneLine, DoneAt, Token, Decimal, Contains, Codeless;
    var at := |echo| + |output| + 1;
    RealMarker(echo, output, marker, code, next);
    EchoIsCodeless(command, marker, echo);
    TokenIsWord(marker);
    TokenIsSome(marker);
    FirstMarkerIsReal(echo, output, marker, code, next);
    ParsesTo(Capture(echo, output, marker, code, next), marker, at, code, "\n" + next);
  }

  lemma TokenIsSome(marker: string)
    ensures Token(marker) != []
  {
  }

  lemma FirstMarkerIsReal(echo: string, output: string, marker: string, code: nat, next: string)
    requires Codeless(echo, Token(marker)) && echo != [] && !IsWord(echo[|echo| - 1]) &&
             !Contains(output, Token(marker))
    requires Token(marker) != [] && forall c <- Token(marker) :: IsWord(c)
    requires var text := Capture(echo, output, marker, code, next); var i := |echo| + |output| + 1;
             i < |text| && DoneAt(text, i, Token(marker))
    ensures FindDone(Capture(echo, output, marker, code, next), Token(marker)) == Some(|echo| + |output| + 1)
  {
    var text := Capture(echo, output, marker, code, next);
    forall k: nat | k <= |echo| + |output| ensures !DoneAt(text, k, Token(marker)) {
      NoMarkerBefore(echo, output, Token(marker) + ":" + Decimal(code) + "\n" + next, Token(marker), k);
      NotMarkerNotDone(text, k, Token(marker));
    }
    hide Capture, Token, DoneAt;
    FindFirst(text, |echo| + |output| + 1, Token(marker));
  }

  lemma {:induction false} ParsesTo(text: string, marker: string, i: nat, code: nat, after: string)
    requires FindDone(text, Token(marker)) == Some(i)
    requires i + |Token(marker)| + 1 <= |text| && text[i + |Token(marker)| + 1..] == Decimal(code) + after
    requires after != [] && !IsDigit(after[0])
    ensures ParseDoneLine(text, marker) == Some(code)
  {
    LeadingDigitsAre(Decimal(code), after);
    DecimalRoundTrip(code);
    hide FindDone, Token, Decimal, LeadingDigits;
  }

  lemma NotMarkerNotDone(text: string, k: nat, token: string)
    ensures !MarkerAt(text, k, token) ==> !DoneAt(text, k, token)
  {
  }

  lemma FindFirst(text: string, i: nat, token: string)
    requires i < |text| && DoneAt(text, i, token) && forall k: nat | k < i :: !DoneAt(text, k, token)
    ensures FindDone(text, token) == Some(i)
  {
    hide DoneAt;
  }

  lemma {:induction false} EchoIsCodeless(command: string, marker: string, echo: string)
    requires IsMarker(marker) && !Contains(command, Token(marker)) && Broken(BuildDoneScript(command, marker), echo)
    ensures Codeless(echo, Token(marker)) && echo != [] && !IsWord(echo[|echo| - 1])
  {
    EchoEnds(command, marker, echo);
    forall i: nat | At(echo, i, Token(marker))
      ensures var k := i + |Token(marker)|; k + 1 < |echo| && !(IsColon(echo[k]) && IsDigit(echo[k + 1]))
    {
      EchoHasNoCode(command, marker, echo, i);
    }
    hide BuildDoneScript, Token, Broken;
  }

  // ----- cleaning the output -----

  /** s.split(pat).join('') */
  function RemoveAll(s: string, pat: string): string
    requires pat != []
  {
    if |s| < |pat| then s
    else if s[..|pat|] == pat then RemoveAll(s[|pat|..], pat)
    else [s[0]] + RemoveAll(s[1..], pat)
  }

  lemma {:induction false} RemoveNothing(s: string, pat: string)
    requires pat != [] && !Contains(s, pat)
    ensures RemoveAll(s, pat) == s
  {
    if |s| >= |pat| {
      assert !At(s, 0, pat);
      forall i | 0 <= i <= |s[1..]| ensures !At(s[1..], i, pat) {
        assert !At(s, i + 1, pat);
        if i + |pat| <= |s[1..]| { assert s[1..][i..i + |pat|] == s[i + 1..i + 1 + |pat|]; }
      }
      RemoveNothing(s[1..], pat);
    }
  }

  const RC := "__dsh_rc"
  const RC_CAPTURE := "__dsh_rc=$?"
  const PRINTF_BROKEN := "printf '\n"          // with a real line break
  const AFTER_TOKEN_BROKEN := ":%s\n' \"$?\""  // with a real line break

  /** stripWrapperFragments. */
  function StripWrapper(line: string, token: string): string
    requires token != []
  {
    RemoveAll(RemoveAll(RemoveAll(RemoveAll(RemoveAll(line, PRINTF + token + AFTER_TOKEN),
      PRINTF_BROKEN + token + AFTER_TOKEN_BROKEN), token), RC_CAPTURE), RC)
  }

  predicate IsNoise(c: char) { c in "\"'();" || IsSpace(c) }

  /** isEchoOnlyLine. */
  predicate IsEchoOnly(line: string, token: string)
    requires token != []
  {
    var trimmed := Trim(line);
    trimmed != [] && (Contains(trimmed, token) || Contains(trimmed, RC)) &&
    forall c <- StripWrapper(trimmed, token) :: IsNoise(c)
  }

  predicate IsEcho(line: string, script: Option<string>, token: string)
    requires token != []
  {
    (script.Some? && script.value != [] && Contains(line, script.value)) || IsEchoOnly(line, token)
  }

  /** The lines that are kept, with the bookkeeping fragments taken out. */
  function KeptLines(lines: seq<string>, script: Option<string>, token: string): seq<string>
    requires token != []
  {
    if lines == [] then []
    else
      var line := lines[|lines| - 1];
      KeptLines(lines[..|lines| - 1], script, token) +
      if IsEcho(line, script, token) then [] else [StripWrapper(line, token)]
  }

  function Blanks(s: string): (n: nat)
    ensures n <= |s|
  {
    if s == [] || !(s[0] == ' ' || s[0] == '\t') then 0 else 1 + Blanks(s[1..])
  }

  /** replace(/^[ \t]*\r?\n/, '') */
  function DropBlankFirstLine(s: string): (r: string)
    ensures |r| <= |s| && r == s[|s| - |r|..]
  {
    var k := Blanks(s);
    if k < |s| && s[k] == '\n' then s[k + 1..]
    else if k + 1 < |s| && s[k] == '\r' && s[k + 1] == '\n' then s[k + 2..]
    else s
  }

  lemma {:induction false} BlanksCount(blanks: string, c: char, rest: string)
    requires (forall d <- blanks :: d == ' ' || d == '\t') && c != ' ' && c != '\t'
    ensures Blanks(blanks + [c] + rest) == |blanks|
  {
    if blanks != [] {
      assert blanks[0] in blanks && forall d <- blanks[1..] :: d in blanks;
      BlanksCount(blanks[1..], c, rest);
      assert (blanks + [c] + rest)[1..] == blanks[1..] + [c] + rest;
    }
  }

  /** One blank line in front goes, whatever ends it; a first line that is not blank stays. */
  lemma BlankLineGoes(blanks: string, c: char, rest: string)
    requires (forall d <- blanks :: d == ' ' || d == '\t') && c != ' ' && c != '\t'
    ensures DropBlankFirstLine(blanks + [c] + rest) ==
            if c == '\n' then rest
            else if c == '\r' && rest != [] && rest[0] == '\n' then rest[1..] else blanks + [c] + rest
  {
    BlanksCount(blanks, c, rest);
    var s := blanks + [c] + rest;
    assert s[|blanks|] == c && s[|blanks| + 1..] == rest;
    if rest != [] { assert s[|blanks| + 1] == rest[0] && s[|blanks| + 2..] == rest[1..]; }
  }

  /** finalize: nothing, or text that ends in exactly one line break. */
  function Finalize(s: string): (r: string)
    ensures r != [] ==> |r| >= 2 && r[|r| - 1] == '\n' && !IsSpace(r[|r| - 2])
  {
    var trimmed := TrimEnd(DropBlankFirstLine(s));
    if trimmed == [] then [] else trimmed + "\n"
  }

  /** The part of a capture in front of the real marker. */
  function Head(text: string, token: string): string {
    match FindDone(text, token)
    case None => text
    case Some(i) => if i == 0 then [] else text[..i - 1]
  }

  lemma KeptNone(script: Option<string>, token: string)
    requires token != []
    ensures KeptLines([], script, token) == []
  {
  }

  lemma KeptStep(lines: seq<string>, line: string, script: Option<string>, token: string)
    requires token != []
    ensures KeptLines(lines + [line], script, token) ==
            KeptLines(lines, script, token) + if IsEcho(line, script, token) then [] else [StripWrapper(line, token)]
  {
    assert (lines + [line])[..|lines|] == lines;
  }

  lemma KeptAt(lines: seq<string>, i: nat, script: Option<string>, token: string)
    requires token != [] && i < |lines|
    ensures KeptLines(lines[..i + 1], script, token) ==
            KeptLines(lines[..i], script, token) +
            if IsEcho(lines[i], script, token) then [] else [StripWrapper(lines[i], token)]
  {
    assert lines[..i + 1][..i] == lines[..i];
  }

  /** cleanCommandOutput, on a capture whose escapes are stripped. */
  method CleanCommandOutput(text: string, marker: string, script: Option<string>) returns (r: string)
    ensures r == Finalize(Join(KeptLines(Split(Head(text, Token(marker)), '\n'), script, Token(marker)), '\n'))
  {
    assert Token(marker) != [];
    hide Split, Join, Finalize, StripWrapper, IsEchoOnly, Head, Token, KeptLines, Contains;
    KeptNone(script, Token(marker));
    WholeSeq(Split(Head(text, Token(marker)), '\n'));
    var token := Token(marker);
    var lines := Split(Head(text, token), '\n');
    var kept: seq<string> := [];
    var i := 0;
    while i < |lines|
      invariant 0 <= i <= |lines| && kept == KeptLines(lines[..i], script, token)
    {
      var line := lines[i];
      KeptAt(lines, i, script, token);
      i := i + 1;
      if script.Some? && |script.value| > 0 && Contains(line, script.value) {
        continue;
      }
      if IsEchoOnly(line, token) {
        continue;
      }
      kept := kept + [StripWrapper(line, token)];
    }
    r := Finalize(Join(kept, '\n'));
  }

  /** A line of real output: free of the script, of the token and of the bookkeeping name. */
  predicate IsPlain(line: string, script: Option<string>, token: string) {
    !(script.Some? && script.value != [] && Contains(line, script.value)) && !Contains(line, token) &&
      !Contains(line, RC)
  }

  lemma MiddleFree(a: string, b: string, c: string, pat: string)
    requires !Contains(a + b + c, pat)
    ensures !Contains(b, pat)
  {
    var s := a + b + c;
    forall i | 0 <= i <= |b| ensures !At(b, i, pat) {
      assert !At(s, |a| + i, pat);
      if i + |pat| <= |b| { assert s[|a| + i..|a| + i + |pat|] == b[i..i + |pat|]; }
    }
  }

  lemma LongerPattern(s: string, a: string, b: string, c: string)
    requires !Contains(s, b)
    ensures !Contains(s, a + b + c)
  {
    forall i | 0 <= i <= |s| ensures !At(s, i, a + b + c) {
      if At(s, i, a + b + c) {
        var t := a + b + c;
        forall k | 0 <= k < |b| ensures s[i + |a| + k] == b[k] {
          assert t[|a| + k] == b[k] && s[i..i + |t|][|a| + k] == t[|a| + k];
        }
        assert s[i + |a|..i + |a| + |b|] == b;
        assert At(s, i + |a|, b);
      }
    }
  }

  lemma PlainIsUntouched(line: string, script: Option<string>, token: string)
    requires token != [] && IsPlain(line, script, token)
    ensures !IsEcho(line, script, token) && StripWrapper(line, token) == line
  {
    LongerPattern(line, PRINTF, token, AFTER_TOKEN);
    LongerPattern(line, PRINTF_BROKEN, token, AFTER_TOKEN_BROKEN);
    LongerPattern(line, [], RC, "=$?");
    assert [] + RC + "=$?" == RC_CAPTURE;
    RemoveNothing(line, PRINTF + token + AFTER_TOKEN);
    RemoveNothing(line, PRINTF_BROKEN + token + AFTER_TOKEN_BROKEN);
    RemoveNothing(line, token);
    RemoveNothing(line, RC_CAPTURE);
    RemoveNothing(line, RC);
    TrimInside(line, token);
    TrimInside(line, RC);
    hide RemoveAll, Contains;
  }

  lemma TrimInside(line: string, pat: string)
    requires !Contains(line, pat)
    ensures !Contains(Trim(line), pat)
  {
    var front, back := TrimParts(line);
    hide Contains, Trim;
    MiddleFree(front, Trim(line), back, pat);
  }

  lemma TrimParts(line: string) returns (front: string, back: string)
    ensures line == front + Trim(line) + back
  {
    var mid := TrimStart(line);
    TrimStartSuffix(line);
    front, back := line[..|line| - |mid|], mid[|TrimEnd(mid)|..];
    Sandwich(line, front, mid, TrimEnd(mid));
    hide TrimStart, TrimEnd;
  }

  lemma Sandwich(line: string, front: string, mid: string, kept: string)
    requires line == front + mid && kept <= mid
    ensures line == front + kept + mid[|kept|..]
  {
    assert mid == mid[..|kept|] + mid[|kept|..];
  }

  lemma {:induction false} TrimStartSuffix(s: string)
    ensures |TrimStart(s)| <= |s| && s == s[..|s| - |TrimStart(s)|] + TrimStart(s)
  {
    if s != [] && IsSpace(s[0]) {
      var rest := TrimStart(s[1..]);
      TrimStartSuffix(s[1..]);
      assert s == [s[0]] + s[1..] && s[..|s| - |rest|] == [s[0]] + s[1..][..|s[1..]| - |rest|];
    }
  }

  lemma {:induction false} KeptAppend(a: seq<string>, b: seq<string>, script: Option<string>, token: string)
    requires token != []
    ensures KeptLines(a + b, script, token) == KeptLines(a, script, token) + KeptLines(b, script, token)
    decreases |b|
  {
    if b == [] {
      assert a + b == a;
    } else {
      assert (a + b)[..|a + b| - 1] == a + b[..|b| - 1];
      KeptAppend(a, b[..|b| - 1], script, token);
    }
  }

  /** Real output is kept verbatim and in its place among the other lines. */
  lemma PlainLinesStay(before: seq<string>, plain: seq<string>, after: seq<string>, script: Option<string>,
      token: string)
    requires token != [] && forall line <- plain :: IsPlain(line, script, token)
    ensures KeptLines(before + plain + after, script, token) ==
            KeptLines(before, script, token) + plain + KeptLines(after, script, token)
  {
    KeptAppend(before + plain, after, script, token);
    KeptAppend(before, plain, script, token);
    AllPlain(plain, script, token);
  }

  lemma {:induction false} AllPlain(plain: seq<string>, script: Option<string>, token: string)
    requires token != [] && forall line <- plain :: IsPlain(line, script, token)
    ensures KeptLines(plain, script, token) == plain
  {
    hide KeptLines, StripWrapper, IsEcho, IsPlain;
    if plain == [] {
      KeptNone(script, token);
    } else {
      var front, line := plain[..|plain| - 1], plain[|plain| - 1];
      AllPlain(front, script, token);
      PlainIsUntouched(line, script, token);
      KeptStep(front, line, script, token);
      assert front + [line] == plain;
    }
  }

  /**
   * Whatever the form of the script and however the terminal broke its echo, cleaning keeps every line of
   * plain output, verbatim and in order, behind whatever it leaves of the echo; and what it leaves of the
   * echo does not depend on the output, the exit code or what came next.
   */
  lemma OutputSurvives(command: string, marker: string, front: string, output: string, code: nat, next: string)
    requires IsMarker(marker) && !Contains(command, Token(marker))
    requires Broken(BuildDoneScript(command, marker), front + "\n") && !Contains(output, Token(marker))
    requires forall line <- Split(output, '\n') :: IsPlain(line, Some(BuildDoneScript(command, marker)), Token(marker))
    ensures var script, token := Some(BuildDoneScript(command, marker)), Token(marker);
            var text := Capture(front + "\n", output, marker, code, next);
            KeptLines(Split(Head(text, token), '\n'), script, token) ==
              KeptLines(Split(front, '\n'), script, token) + Split(output, '\n')
  {
    var script, token := Some(BuildDoneScript(command, marker)), Token(marker);
    ExitCodeRoundTrip(command, marker, front + "\n", output, code, next);
    TokenIsSome(marker);
    hide BuildDoneScript, Token, Broken, FindDone, IsPlain, Contains;
    HeadOfCapture(front, output, marker, code, next);
    hide Head, Capture;
    SplitAround(front, output);
    var lines := Split(output, '\n');
    hide Split;
    PlainLinesStay(Split(front, '\n'), lines, [], script, token);
    KeptNone(script, token);
    assert Split(front, '\n') + lines + [] == Split(front, '\n') + lines;
    hide KeptLines;
  }

  lemma {:induction false} SplitAround(a: string, b: string)
    ensures Split(a + ['\n'] + b, '\n') == Split(a, '\n') + Split(b, '\n')
  {
    var s := a + ['\n'] + b;
    if a == [] {
      assert s == ['\n'] + b && s[1..] == b;
    } else {
      assert s[1..] == a[1..] + ['\n'] + b;
      SplitAround(a[1..], b);
    }
  }

  lemma HeadOfCapture(front: string, output: string, marker: string, code: nat, next: string)
    requires FindDone(Capture(front + "\n", output, marker, code, next), Token(marker)) ==
             Some(|front + "\n"| + |output| + 1)
    ensures Head(Capture(front + "\n", output, marker, code, next), Token(marker)) == front + ['\n'] + output
  {
    hide FindDone;
  }

  /** What cleaning a whole capture returns. */
  function Cleaned(command: string, marker: string, output: string, code: nat, next: string): string {
    var script, token := BuildDoneScript(command, marker), Token(marker);
    assert token != [] by { TokenIsSome(marker); }
    var text := Capture(script + "\n", output, marker, code, next);
    Finalize(Join(KeptLines(Split(Head(text, token), '\n'), Some(script), token), '\n'))
  }

  /** The command is sent as one line: it takes the inline script, and no line break is left inside it. */
  predicate SentAsOneLine(command: string) { Inline(command) && '\n' !in Appendable(command) }

  /** Something besides quotes, parentheses, semicolons and white space. */
  ghost predicate Wordy(s: string) { exists c <- s :: !IsNoise(c) }

  /**
   * Exactly when the echo leaves nothing behind: for an unbroken echo and plain output, what is returned is the
   * output, up to its edges, if and only if the command is sent as one line. The echo of a brace group spans several
   * lines, and so does that of an inline command with a line break inside: no line of either holds the whole script,
   * and the brace, or the lines of the command, are handed out as output.
   */
  lemma CleanedOutputIff(command: string, marker: string, output: string, code: nat, next: string)
    requires IsMarker(marker) && !Contains(command, Token(marker)) && !Contains(output, Token(marker))
    requires forall line <- Split(output, '\n') :: IsPlain(line, Some(BuildDoneScript(command, marker)), Token(marker))
    requires Inline(command) && '\n' in Appendable(command) ==> !Contains(command, RC) && Wordy(command)
    ensures Cleaned(command, marker, output, code, next) == Finalize(output) <==> SentAsOneLine(command)
  {
    var script, token := BuildDoneScript(command, marker), Token(marker);
    UnbrokenEcho(script);
    OutputSurvives(command, marker, script, output, code, next);
    TokenIsSome(marker);
    var residue := KeptLines(Split(script, '\n'), Some(script), token);
    if SentAsOneLine(command) {
      InlineEchoGoes(command, marker);
    } else if Inline(command) {
      LinesStay(command, marker);
    } else {
      BraceStays(command, marker);
    }
    hide BuildDoneScript, Token, Split, KeptLines, Head, Capture, SentAsOneLine, Contains, Broken, IsPlain, Wordy;
    EchoOutput(residue, output);
    hide Finalize, Join, Shows;
    if residue != [] {
      ShowsMore(Join(residue, '\n'), ['\n']);
      ShownIsOther(Join(residue, '\n') + ['\n'], output);
    }
  }

  /**
   * The smallest command with a line break inside: both of its lines come back as output of a command that
   * printed nothing.
   */
  lemma TwoLinesLeak(marker: string, code: nat, next: string)
    requires IsMarker(marker)
    ensures Inline("a\nb") && !SentAsOneLine("a\nb") && Cleaned("a\nb", marker, [], code, next) != Finalize([])
  {
    var command := "a\nb";
    TwoLinesAreInline();
    NoRoom(command, Token(marker));
    NoRoom([], Token(marker));
    NoRoom(command, RC);
    assert command[0] == 'a' && !IsNoise('a') && 'a' in command;
    assert Split([], '\n') == [[]];
    NothingIsPlain(BuildDoneScript(command, marker), Token(marker));
    hide Inline, Appendable, Contains, IsPlain, Token, BuildDoneScript, Cleaned, Finalize, Split;
    CleanedOutputIff(command, marker, [], code, next);
  }

  lemma TwoLinesAreInline()
    ensures Inline("a\nb") && '\n' in Appendable("a\nb")
  {
    var command := "a\nb";
    assert command[1..] == "\nb" && "\nb"[1..] == "b" && "b"[1..] == "";
    assert Lex(command, None) == [Plain('a'), Plain('\n'), Plain('b')];
    var ls := [Plain('a'), Plain('\n'), Plain('b')];
    assert ls[1..] == [Plain('\n'), Plain('b')] && ls[1..][1..] == [Plain('b')] && [Plain('b')][1..] == [];
    assert TrimEnd(command) == command && TrimStart(command) == command;
    assert Appendable(command) == command && command[1] == '\n';
  }

  lemma NoRoom(s: string, pat: string)
    requires |s| < |pat|
    ensures !Contains(s, pat)
  {
  }

  lemma NothingIsPlain(script: string, token: string)
    requires script != [] && token != []
    ensures IsPlain([], Some(script), token)
  {
  }

  lemma InlineEchoGoes(command: string, marker: string)
    requires IsMarker(marker) && SentAsOneLine(command) && Token(marker) != []
    ensures var script := BuildDoneScript(command, marker);
            KeptLines(Split(script, '\n'), Some(script), Token(marker)) == []
  {
    var script := BuildDoneScript(command, marker);
    InlineScriptIsOneLine(command, marker);
    assert script != [];
    SplitNoSep(script, '\n');
    assert At(script, 0, script);
    hide BuildDoneScript, Token, Split;
    assert IsEcho(script, Some(script), Token(marker));
    assert [script][..0] == [];
  }

  /** The first line of a brace group is nothing the cleaner knows. */
  lemma BraceStays(command: string, marker: string)
    requires IsMarker(marker) && !Inline(command) && Token(marker) != []
    ensures var script := BuildDoneScript(command, marker);
            var residue := KeptLines(Split(script, '\n'), Some(script), Token(marker));
            residue != [] && Shows(Join(residue, '\n'))
  {
    var script, token := BuildDoneScript(command, marker), Token(marker);
    var rest := command + "\n} ; " + Wrapper(marker);
    BraceOpens(command, marker);
    BraceIsPlain(script, token, marker);
    hide BuildDoneScript, Token, Inline, Wrapper, IsPlain, KeptLines, Split;
    SplitCons("{", rest, '\n');
    KeptAppend(["{"], Split(rest, '\n'), Some(script), token);
    AllPlain(["{"], Some(script), token);
    assert "{"[0] == '{';
    ShowsFirst("{", KeptLines(Split(rest, '\n'), Some(script), token));
  }

  /** Text with a character that is not white space. */
  ghost predicate Shows(s: string) { exists k :: 0 <= k < |s| && !IsSpace(s[k]) }

  lemma ShowsMore(a: string, b: string)
    requires Shows(a)
    ensures Shows(a + b)
  {
    var k :| 0 <= k < |a| && !IsSpace(a[k]);
    assert (a + b)[k] == a[k];
  }

  lemma ShowsFirst(line: string, more: seq<string>)
    requires Shows(line)
    ensures Shows(Join([line] + more, '\n'))
  {
    if more == [] {
      assert [line] + more == [line];
    } else {
      assert ([line] + more)[1..] == more;
      ShowsMore(line, ['\n']);
      ShowsMore(line + ['\n'], Join(more, '\n'));
    }
  }

  /** s cut at its last line break. */
  lemma {:induction false} LastBreak(s: string) returns (a: string, l: string)
    requires '\n' in s
    ensures s == a + ['\n'] + l && '\n' !in l
  {
    if s[|s| - 1] == '\n' {
      a, l := s[..|s| - 1], [];
    } else {
      assert s == s[..|s| - 1] + [s[|s| - 1]];
      a, l := LastBreak(s[..|s| - 1]);
      l := l + [s[|s| - 1]];
    }
  }

  lemma {:induction false} JoinPiece(lines: seq<string>, i: nat) returns (x: string, y: string)
    requires i < |lines|
    ensures Join(lines, '\n') == x + lines[i] + y
  {
    if i == 0 {
      x, y := [], if |lines| == 1 then [] else ['\n'] + Join(lines[1..], '\n');
    } else {
      x, y := JoinPiece(lines[1..], i - 1);
      var z := lines[0] + ['\n'];
      assert z + (x + lines[i] + y) == (z + x) + lines[i] + y;
      x := z + x;
    }
  }

  lemma LinesAreFree(a: string, line: string, pat: string)
    requires !Contains(a, pat) && line in Split(a, '\n')
    ensures |line| <= |a| && !Contains(line, pat)
  {
    var i :| 0 <= i < |Split(a, '\n')| && Split(a, '\n')[i] == line;
    JoinSplit(a, '\n');
    var x, y := JoinPiece(Split(a, '\n'), i);
    MiddleFree(x, line, y, pat);
  }

  /** What may be appended is the front of the command; the rest is noise. */
  lemma AppendableIsFront(command: string)
    ensures Appendable(command) <= command
    ensures forall k :: |Appendable(command)| <= k < |command| ==> IsNoise(command[k])
  {
  }

  /** The lines of an inline command are nothing the cleaner knows, and its last one is left in front of the wrapper. */
  lemma LinesStay(command: string, marker: string)
    requires IsMarker(marker) && Inline(command) && '\n' in Appendable(command) && Token(marker) != []
    requires !Contains(command, Token(marker)) && !Contains(command, RC) && Wordy(command)
    ensures var script := BuildDoneScript(command, marker);
            var residue := KeptLines(Split(script, '\n'), Some(script), Token(marker));
            residue != [] && Shows(Join(residue, '\n'))
  {
    var script, token, body := BuildDoneScript(command, marker), Token(marker), Appendable(command);
    assert script == body + " ; " + Wrapper(marker);
    AppendableIsFront(command);
    hide Inline, Appendable, BuildDoneScript, Contains, Shows, Wordy, IsNoise, KeptLines, Wrapper, Token, Split, Join;
    var a, l := LastBreak(body);
    FreePieces(command, body, a, l, token);
    FreePieces(command, body, a, l, RC);
    WordyPiece(command, body, a, l);
    EchoRegroups(a, l, " ; ", Wrapper(marker));
    LinesOfEcho(a, l, marker, script);
    ResidueShows(a, l, marker, script);
  }

  lemma EchoRegroups(a: string, l: string, separator: string, w: string)
    ensures a + ['\n'] + l + separator + w == a + ['\n'] + (l + separator + w)
  {
  }

  /** Either something in front of the last line shows, or the last line does. */
  lemma ResidueShows(a: string, l: string, marker: string, script: string)
    requires IsMarker(marker) && Token(marker) != [] && !Contains(l, Token(marker)) && !Contains(l, RC)
    requires |script| > |l + " ; " + Wrapper(marker)| && (Shows(a) || Wordy(l))
    ensures var kept := KeptLines([l + " ; " + Wrapper(marker)], Some(script), Token(marker));
            Shows(Join(Split(a, '\n') + kept, '\n'))
  {
    hide Contains, Shows, Wordy, KeptLines, Wrapper, Token, Split, Join;
    var lines, kept := Split(a, '\n'), KeptLines([l + " ; " + Wrapper(marker)], Some(script), Token(marker));
    JoinSplit(a, '\n');
    if kept == [] { assert lines + kept == lines; } else { JoinAround(lines, kept); }
    if Shows(a) {
      ShowsMore(a, ['\n']);
      ShowsMore(a + ['\n'], Join(kept, '\n'));
    } else {
      LastLineStays(l, marker, script);
      JoinOne(kept);
      ShowsAfter(a + ['\n'], kept[0]);
    }
  }

  lemma JoinOne(lines: seq<string>)
    requires |lines| == 1
    ensures Join(lines, '\n') == lines[0]
  {
  }

  lemma ShowsAfter(a: string, b: string)
    requires Shows(b)
    ensures Shows(a + b)
  {
    var k :| 0 <= k < |b| && !IsSpace(b[k]);
    assert (a + b)[|a| + k] == b[k];
  }

  lemma FreePieces(command: string, body: string, a: string, l: string, pat: string)
    requires body <= command && body == a + ['\n'] + l && !Contains(command, pat)
    ensures !Contains(a, pat) && !Contains(l, pat)
  {
    var rest := command[|body|..];
    assert command == [] + a + (['\n'] + l + rest);
    MiddleFree([], a, ['\n'] + l + rest, pat);
    assert command == (a + ['\n']) + l + rest;
    MiddleFree(a + ['\n'], l, rest, pat);
  }

  lemma WordyPiece(command: string, body: string, a: string, l: string)
    requires body <= command && body == a + ['\n'] + l && Wordy(command)
    requires forall k :: |body| <= k < |command| ==> IsNoise(command[k])
    ensures Shows(a) || Wordy(l)
  {
    var c :| c in command && !IsNoise(c);
    var k :| 0 <= k < |command| && command[k] == c;
    assert k < |body| && body[k] == c;
    if k < |a| { assert a[k] == c; } else { assert l[k - |a| - 1] == c; }
  }

  /** The echo of such a script, line by line: those in front stay as they are. */
  lemma LinesOfEcho(a: string, l: string, marker: string, script: string)
    requires IsMarker(marker) && Token(marker) != [] && '\n' !in l
    requires !Contains(a, Token(marker)) && !Contains(a, RC) && script == a + ['\n'] + (l + " ; " + Wrapper(marker))
    ensures var last := l + " ; " + Wrapper(marker);
            KeptLines(Split(script, '\n'), Some(script), Token(marker)) ==
              Split(a, '\n') + KeptLines([last], Some(script), Token(marker))
  {
    var token, last := Token(marker), l + " ; " + Wrapper(marker);
    WrapperIsOneLine(marker);
    assert last == l + (" ; " + Wrapper(marker));
    forall line <- Split(a, '\n') ensures IsPlain(line, Some(script), token) {
      LinesAreFree(a, line, token);
      LinesAreFree(a, line, RC);
      NoRoom(line, script);
    }
    hide Token, Wrapper, IsPlain, Contains, KeptLines;
    SplitAround(a, last);
    SplitNoSep(last, '\n');
    hide Split;
    KeptAppend(Split(a, '\n'), [last], Some(script), token);
    AllPlain(Split(a, '\n'), Some(script), token);
  }

  /** The last line, in front of the wrapper, is left when anything on it is more than noise. */
  lemma LastLineStays(l: string, marker: string, script: string)
    requires IsMarker(marker) && Token(marker) != [] && !Contains(l, Token(marker)) && !Contains(l, RC) && Wordy(l)
    requires |script| > |l + " ; " + Wrapper(marker)|
    ensures var kept := KeptLines([l + " ; " + Wrapper(marker)], Some(script), Token(marker));
            |kept| == 1 && Shows(kept[0])
  {
    var token, last := Token(marker), l + " ; " + Wrapper(marker);
    var c :| c in l && !IsNoise(c);
    StripLast(l, marker);
    NoRoom(last, script);
    TrimLast(l, marker, c);
    var front := TrimStart(l);
    TrimStartSuffix(l);
    assert l == l[..|l| - |front|] + front + [];
    MiddleFree(l[..|l| - |front|], front, [], token);
    MiddleFree(l[..|l| - |front|], front, [], RC);
    StripLast(front, marker);
    assert c in front + " ; ";
    assert !IsEchoOnly(last, token);
    assert [last][..0] == [];
    hide StripWrapper, IsEchoOnly, Wrapper, Token;
    ShowsChar(l + " ; ", c);
  }

  lemma ShowsChar(s: string, c: char)
    requires c in s && !IsSpace(c)
    ensures Shows(s)
  {
    var k :| 0 <= k < |s| && s[k] == c;
  }

  lemma {:induction false} TrimStartKeeps(l: string, rest: string, c: char)
    requires c in l && !IsSpace(c)
    ensures c in TrimStart(l) && TrimStart(l + rest) == TrimStart(l) + rest
  {
    if IsSpace(l[0]) {
      assert l == [l[0]] + l[1..];
      assert (l + rest)[1..] == l[1..] + rest;
      TrimStartKeeps(l[1..], rest, c);
    }
  }

  lemma TrimLast(l: string, marker: string, c: char)
    requires c in l && !IsSpace(c)
    ensures c in TrimStart(l) && Trim(l + " ; " + Wrapper(marker)) == TrimStart(l) + " ; " + Wrapper(marker)
  {
    hide Wrapper, TrimStart, TrimEnd;
    var rest := " ; " + Wrapper(marker);
    WrapperEnds(marker);
    TrimStartKeeps(l, rest, c);
    assert l + " ; " + Wrapper(marker) == l + rest;
    assert TrimStart(l) + " ; " + Wrapper(marker) == TrimStart(l) + rest;
    EndStays(TrimStart(l) + rest);
  }

  lemma WrapperEnds(marker: string)
    ensures var w := Wrapper(marker); w != [] && !IsSpace(w[|w| - 1])
  {
    var w := Wrapper(marker);
    assert w[|w| - 1] == AFTER_TOKEN[|AFTER_TOKEN| - 1];
  }

  lemma EndStays(s: string)
    requires s != [] && !IsSpace(s[|s| - 1])
    ensures TrimEnd(s) == s
  {
  }

  /** Taking the wrapper off its line leaves what was in front of it. */
  lemma StripLast(l: string, marker: string)
    requires IsMarker(marker) && Token(marker) != [] && !Contains(l, Token(marker)) && !Contains(l, RC)
    ensures StripWrapper(l + " ; " + Wrapper(marker), Token(marker)) == l + " ; "
  {
    var token, x, w := Token(marker), l + " ; ", Wrapper(marker);
    TokenIsWord(marker);
    forall i | 0 <= i < |x| ensures !At(x + w, i, w) { WrapperOnlyAtEnd(l, marker, i); }
    RcIsWord();
    hide Token, Contains, At, RemoveAll, IsEcho;
    WordFree(l, " ; ", token);
    WordFree(l, " ; ", RC);
    RemoveTail(x, w);
    PlainIsUntouched(x, None, token);
    LongerPattern(x, PRINTF, token, AFTER_TOKEN);
    RemoveNothing(x, w);
  }

  lemma RcIsWord()
    ensures forall c <- RC :: IsWord(c)
  {
  }

  lemma WrapperOnlyAtEnd(l: string, marker: string, i: nat)
    requires IsMarker(marker) && !Contains(l, Token(marker)) && i < |l + " ; "|
    ensures !At(l + " ; " + Wrapper(marker), i, Wrapper(marker))
  {
    var token, w := Token(marker), Wrapper(marker);
    var s := l + " ; " + w;
    JointIsClean();
    WrapperHasNoUnderscore();
    TokenIsWord(marker);
    AfterTokenBegins();
    hide Token, NoUnderscore, Contains;
    WrapperRegroups(l, " ; ", PRINTF, token, AFTER_TOKEN);
    if At(s, i, w) {
      MiddleAt(s, i, PRINTF, token, AFTER_TOKEN);
      TokenOnlyInWrapper([], l, " ; " + PRINTF, token, AFTER_TOKEN, i + |PRINTF|);
      assert false;
    }
  }

  lemma AfterTokenBegins()
    ensures AFTER_TOKEN != [] && !IsWord(AFTER_TOKEN[0])
  {
    assert AFTER_TOKEN[0] == ':';
  }

  lemma JointIsClean()
    ensures NoUnderscore(" ; " + PRINTF) && " ; " + PRINTF != [] && !IsWord((" ; " + PRINTF)[0])
  {
    WrapperHasNoUnderscore();
    JointsHaveNoUnderscore();
    NoUnderscoreTwice(" ; ", PRINTF);
    assert (" ; " + PRINTF)[0] == " ; "[0];
  }

  lemma NoUnderscoreTwice(a: string, b: string)
    requires NoUnderscore(a) && NoUnderscore(b)
    ensures NoUnderscore(a + b)
  {
  }

  lemma WrapperRegroups(l: string, separator: string, printf: string, token: string, rest: string)
    ensures l + separator + (printf + token + rest) == [] + l + (separator + printf) + token + rest
  {
  }

  lemma MiddleAt(s: string, i: nat, a: string, b: string, c: string)
    requires At(s, i, a + b + c)
    ensures At(s, i + |a|, b)
  {
    var pat := a + b + c;
    forall k | 0 <= k < |b| ensures s[i + |a| + k] == b[k] {
      assert pat[|a| + k] == b[k] && s[i..i + |pat|][|a| + k] == pat[|a| + k];
    }
    assert s[i + |a|..i + |a| + |b|] == b;
  }

  /** No word fits across a text of other characters behind s. */
  lemma WordFree(s: string, more: string, pat: string)
    requires !Contains(s, pat) && pat != [] && (forall c <- pat :: IsWord(c)) && (forall c <- more :: !IsWord(c))
    ensures !Contains(s + more, pat)
  {
    forall i | 0 <= i <= |s + more| ensures !At(s + more, i, pat) {
      if i + |pat| <= |s| {
        assert (s + more)[i..i + |pat|] == s[i..i + |pat|];
        assert !At(s, i, pat);
      } else if i + |pat| <= |s + more| {
        assert (s + more)[i..i + |pat|][|pat| - 1] == more[i + |pat| - 1 - |s|];
        assert pat[|pat| - 1] in pat;
      }
    }
  }

  lemma {:induction false} RemoveTail(x: string, pat: string)
    requires pat != [] && forall i :: 0 <= i < |x| ==> !At(x + pat, i, pat)
    ensures RemoveAll(x + pat, pat) == x
  {
    if x == [] {
      assert x + pat == pat && pat[..|pat|] == pat && pat[|pat|..] == [];
    } else {
      var s := x + pat;
      assert s[1..] == x[1..] + pat;
      assert !At(s, 0, pat) && s[0..|pat|] == s[..|pat|];
      forall i | 0 <= i < |x[1..]| ensures !At(x[1..] + pat, i, pat) {
        assert !At(s, i + 1, pat);
        if i + |pat| <= |s[1..]| { assert s[1..][i..i + |pat|] == s[i + 1..i + 1 + |pat|]; }
      }
      RemoveTail(x[1..], pat);
    }
  }

  lemma BraceOpens(command: string, marker: string)
    requires !Inline(command)
    ensures BuildDoneScript(command, marker) == "{" + ['\n'] + (command + "\n} ; " + Wrapper(marker))
    ensures |BuildDoneScript(command, marker)| >= 2
  {
    hide Inline, Wrapper;
  }

  lemma BraceIsPlain(script: string, token: string, marker: string)
    requires |script| >= 2 && IsMarker(marker) && token == Token(marker)
    ensures IsPlain("{", Some(script), token)
  {
    assert |token| >= |DONE_PREFIX| > 1;
  }

  /** What is left of the echo, line by line, in front of the output. */
  lemma EchoOutput(residue: seq<string>, output: string)
    ensures Join(residue + Split(output, '\n'), '\n') ==
            if residue == [] then output else Join(residue, '\n') + ['\n'] + output
  {
    JoinSplit(output, '\n');
    var lines := Split(output, '\n');
    hide Split;
    if residue == [] { assert residue + lines == lines; } else { JoinAround(residue, lines); }
  }

  lemma {:induction false} JoinAround(a: seq<string>, b: seq<string>)
    requires a != [] && b != []
    ensures Join(a + b, '\n') == Join(a, '\n') + ['\n'] + Join(b, '\n')
  {
    var all := a + b;
    assert all[1..] == a[1..] + b;
    if |a| == 1 {
      assert a[1..] + b == b;
    } else {
      JoinAround(a[1..], b);
      var head, mine, more := a[0] + ['\n'], Join(a[1..], '\n'), ['\n'] + Join(b, '\n');
      assert Join(all, '\n') == head + (mine + ['\n'] + Join(b, '\n'));
      assert head + (mine + ['\n'] + Join(b, '\n')) == (head + mine) + ['\n'] + Join(b, '\n');
    }
  }

  /** Text that shows in front of the output makes the result longer than the output alone. */
  lemma ShownIsOther(before: string, output: string)
    requires Shows(before)
    ensures Finalize(before + output) != Finalize(output)
  {
    var v :| 0 <= v < |before| && !IsSpace(before[v]);
    var text, u := before + output, TrimEnd(output);
    assert text[v] == before[v];
    if u != [] {
      assert text[|before| + |u| - 1] == output[|u| - 1] == u[|u| - 1];
      ShownStays(text, v, |before| + |u| - 1);
    }
    ShownStays(text, v, v);
    TrimmedDrop(output);
    hide DropBlankFirstLine, TrimEnd;
  }

  /** What shows at k, behind something else that shows, survives finalize. */
  lemma ShownStays(text: string, v: nat, k: nat)
    requires v <= k < |text| && !IsSpace(text[v]) && !IsSpace(text[k])
    ensures var d := DropBlankFirstLine(text); |text| - |d| <= v && k < |text| - |d| + |TrimEnd(d)|
  {
    DropStops(text, v);
    hide DropBlankFirstLine, TrimEnd;
    var d := DropBlankFirstLine(text);
    var at := k - (|text| - |d|);
    assert d[at] == text[k];
    VisibleStays(d, at);
  }

  /** Dropping a blank first line stops in front of whatever shows. */
  lemma DropStops(s: string, v: nat)
    requires v < |s| && !IsSpace(s[v])
    ensures |s| - |DropBlankFirstLine(s)| <= v
  {
    BlanksStop(s, v);
  }

  lemma {:induction false} BlanksStop(s: string, v: nat)
    requires v < |s| && !IsSpace(s[v])
    ensures Blanks(s) <= v
  {
    if v > 0 { BlanksStop(s[1..], v - 1); }
  }

  /** A visible character is not trimmed away. */
  lemma VisibleStays(s: string, k: nat)
    requires k < |s| && !IsSpace(s[k])
    ensures k < |TrimEnd(s)|
  {
    var r := TrimEnd(s);
  }

  lemma TrimmedDrop(output: string)
    ensures |TrimEnd(DropBlankFirstLine(output))| <= |TrimEnd(output)|
  {
    var d := DropBlankFirstLine(output);
    var t := TrimEnd(d);
    if t != [] {
      var last := |output| - |d| + |t| - 1;
      assert output[last] == d[|t| - 1] == t[|t| - 1];
      VisibleStays(output, last);
    }
  }

  lemma {:induction false} UnbrokenEcho(script: string)
    ensures Broken(script, script + "\n")
  {
    if script == [] {
      assert Broken([], "\n") by { assert "\n"[1..] == []; }
    } else {
      UnbrokenEcho(script[1..]);
      assert (script + "\n")[1..] == script[1..] + "\n";
    }
  }

  lemma InlineScriptIsOneLine(command: string, marker: string)
    requires SentAsOneLine(command) && IsMarker(marker)
    ensures '\n' !in BuildDoneScript(command, marker)
  {
    hide Inline, Appendable;
    WrapperIsOneLine(marker);
  }

  lemma WrapperIsOneLine(marker: string)
    requires IsMarker(marker)
    ensures '\n' !in " ; " + Wrapper(marker)
  {
    TokenIsWord(marker);
    hide Token;
    assert '\n' !in PRINTF && '\n' !in AFTER_TOKEN && '\n' !in " ; ";
  }

  // ----- which lines of the echo go -----

  /** A token reports an exit code exactly at the start of a line, with a colon and a digit behind it. */
  lemma DoneLineIff(text: string, marker: string)
    ensures ParseDoneLine(text, marker).Some? <==>
            exists i: nat :: At(text, i, Token(marker)) && (i == 0 || text[i - 1] == '\n') &&
              var k := i + |Token(marker)|;
              k + 1 < |text| && (text[k] == ':' || text[k] == '：') && '0' <= text[k + 1] <= '9'
  {
    hide Token;
    var token := Token(marker);
    forall i: nat | At(text, i, token) && (i == 0 || text[i - 1] == '\n') && i + |token| + 1 < |text| &&
      (text[i + |token|] == ':' || text[i + |token|] == '：') && '0' <= text[i + |token| + 1] <= '9'
      ensures DoneAt(text, i, token)
    {
    }
    if FindDone(text, token).Some? { assert DoneAt(text, FindDone(text, token).value, token); }
  }

  /** A line that is left of an echo, in front of the wrapper, goes exactly when nothing but noise is on it. */
  lemma EchoLineGoesIff(l: string, marker: string)
    requires IsMarker(marker) && !Contains(l, Token(marker)) && !Contains(l, RC) && Token(marker) != []
    ensures IsEchoOnly(l + " ; " + Wrapper(marker), Token(marker)) <==> !Wordy(l)
  {
    var token, last := Token(marker), l + " ; " + Wrapper(marker);
    if exists c <- l :: !IsSpace(c) {
      var c :| c in l && !IsSpace(c);
      TrimLast(l, marker, c);
      var front := TrimStart(l);
      TrimStartSuffix(l);
      assert l == l[..|l| - |front|] + front + [];
      MiddleFree(l[..|l| - |front|], front, [], token);
      MiddleFree(l[..|l| - |front|], front, [], RC);
      StripLast(front, marker);
      WrapperHolds(front + " ; ", marker);
      NoiseInFront(l, front);
      hide StripWrapper, Wrapper, Token, Contains;
    } else {
      NothingInFront(l, marker);
    }
  }

  lemma WrapperHolds(x: string, marker: string)
    ensures Contains(x + Wrapper(marker), Token(marker))
  {
    var i, s, token := |x| + |PRINTF|, x + Wrapper(marker), Token(marker);
    assert s == (x + PRINTF) + token + AFTER_TOKEN;
    assert s[i..i + |token|] == token;
    assert At(s, i, token);
  }

  /** Spaces in front are noise, and so is what separates the line from the wrapper. */
  lemma NoiseInFront(l: string, front: string)
    requires front == TrimStart(l)
    ensures (forall c <- front + " ; " :: IsNoise(c)) <==> !Wordy(l)
  {
    TrimStartSuffix(l);
    TrimmedAreSpaces(l);
    hide TrimStart, IsSpace;
    var spaces := l[..|l| - |front|];
    assert l == spaces + front;
    NoiseOnly(spaces);
    NoiseBeside(spaces, front, " ; ");
  }

  lemma NoiseOnly(spaces: string)
    requires forall c <- spaces :: IsSpace(c)
    ensures forall c <- spaces :: IsNoise(c)
    ensures forall c <- " ; " :: IsNoise(c)
  {
    assert IsSpace(' ');
    hide IsSpace;
  }

  lemma NoiseBeside(a: string, b: string, c: string)
    requires (forall d <- a :: IsNoise(d)) && forall d <- c :: IsNoise(d)
    ensures (forall d <- b + c :: IsNoise(d)) <==> !Wordy(a + b)
  {
    hide IsNoise;
    forall d ensures (d in b + c <==> d in b || d in c) && (d in a + b <==> d in a || d in b) {}
  }

  lemma {:induction false} TrimmedAreSpaces(l: string)
    ensures |TrimStart(l)| <= |l| && forall i :: 0 <= i < |l| - |TrimStart(l)| ==> IsSpace(l[i])
  {
    if l != [] && IsSpace(l[0]) {
      TrimmedAreSpaces(l[1..]);
      forall i | 0 <= i < |l| - |TrimStart(l)| ensures IsSpace(l[i]) { if i > 0 { assert l[i] == l[1..][i - 1]; } }
    }
  }

  lemma {:induction false} SpacesLead(spaces: string, s: string)
    requires s != [] && !IsSpace(s[0]) && forall c <- spaces :: IsSpace(c)
    ensures TrimStart(spaces + s) == s
  {
    if spaces == [] {
      assert spaces + s == s;
    } else {
      SpacesLead(spaces[1..], s);
      assert (spaces + s)[1..] == spaces[1..] + s;
    }
  }

  /** The wrapper alone on its line, behind spaces, is noise. */
  lemma NothingInFront(l: string, marker: string)
    requires IsMarker(marker) && Token(marker) != [] && forall c <- l :: IsSpace(c)
    ensures IsEchoOnly(l + " ; " + Wrapper(marker), Token(marker)) && !Wordy(l)
  {
    var w, rest := Wrapper(marker), "; " + Wrapper(marker);
    WrapperEnds(marker);
    assert rest[0] == ';' && rest[|rest| - 1] == w[|w| - 1];
    assert l + " ; " + w == (l + " ") + rest;
    LoneWrapper(marker);
    WrapperHolds("; ", marker);
    hide Wrapper, Token, TrimStart, TrimEnd, StripWrapper, Contains;
    SpacesLead(l + " ", rest);
    EndStays(rest);
  }

  lemma LoneWrapper(marker: string)
    requires IsMarker(marker) && Token(marker) != []
    ensures StripWrapper("; " + Wrapper(marker), Token(marker)) == "; "
  {
    var x, w, token := "; ", Wrapper(marker), Token(marker);
    assert w[0] == 'p' && (x + w)[0] == ';' && (x + w)[1] == ' ';
    forall i | 0 <= i < |x| ensures !At(x + w, i, w) {
      assert i + |w| <= |x + w| ==> (x + w)[i..i + |w|][0] != w[0];
    }
    NoRoom(x, token);
    NoRoom(x, RC);
    hide Token, Contains, At, RemoveAll, IsEcho;
    RemoveTail(x, w);
    PlainIsUntouched(x, None, token);
    LongerPattern(x, PRINTF, token, AFTER_TOKEN);
    RemoveNothing(x, w);
  }

  /** The echo of the old exit-code capture goes as well. */
  lemma CaptureLineGoes(token: string)
    requires |token| > |RC_CAPTURE|
    ensures IsEchoOnly(RC_CAPTURE, token)
  {
    var s := RC_CAPTURE;
    assert s[..|s|] == s && s[|s|..] == [];
    assert s[0..0 + |RC|] == RC && At(s, 0, RC);
    EndStays(s);
    assert RemoveAll(s, PRINTF + token + AFTER_TOKEN) == s;
    assert RemoveAll(s, PRINTF_BROKEN + token + AFTER_TOKEN_BROKEN) == s;
    assert RemoveAll(s, token) == s;
    assert RemoveAll(s, RC_CAPTURE) == RemoveAll([], RC_CAPTURE) == [];
    assert RemoveAll([], RC) == [];
  }
}
