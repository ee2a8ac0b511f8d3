/** Lines and tokens of the service language. */
module Lexer {
  import opened Base

  /** `char::is_whitespace`: the Unicode White_Space property. */
  predicate IsSpace(c: char) {
    var n := c as int;
    || 9 <= n <= 13 || n == 0x20 || n == 0x85 || n == 0xA0 || n == 0x1680 || 0x2000 <= n <= 0x200A
    || n == 0x2028 || n == 0x2029 || n == 0x202F || n == 0x205F || n == 0x3000
  }

  const NEWLINE: char := '\n'
  const QUOTE: char := '"'
  const BACKSLASH: char := '\\'
  const BLANK: char := ' '

  /** The pieces between the occurrences of a separator; at least one. */
  function SplitOn(s: string, c: char): (r: seq<string>)
    ensures r != []
  {
    if s == [] then [[]]
    else
      var rest := SplitOn(s[1..], c);
      if s[0] == c then [[]] + rest else [[s[0]] + rest[0]] + rest[1..]
  }

  /** `lines`: an empty piece after the last line break is no line. */
  function Lines(src: string): seq<string> {
    var pieces := SplitOn(src, NEWLINE);
    if pieces[|pieces| - 1] == [] then pieces[..|pieces| - 1] else pieces
  }

  function TrimStart(s: string): string {
    if s != [] && IsSpace(s[0]) then TrimStart(s[1..]) else s
  }

  function TrimEnd(s: string): string {
    if s != [] && IsSpace(s[|s| - 1]) then TrimEnd(s[..|s| - 1]) else s
  }

  function Trim(s: string): string {
    TrimEnd(TrimStart(s))
  }

  predicate StartsWith(s: string, prefix: string) {
    prefix <= s
  }

  datatype Complaint =
    | UnterminatedEscape
    | UnterminatedQuote
    | BadServiceDecl
    | BadStateDecl
    | BadStateValue
    | StateAfterHandler
    | BadHandlerDecl
    | OutsideService
    | OutsideHandler
    | DuplicateEffects
    | EffectsAfterActions
    | BadEffectsDecl
    | UnknownEffect
    | NoEffects
    | NoActions
    | MissingEffects
    | EmptyAction
    | UnknownAction
    | BadLog
    | BadSet
    | BadInc
    | BadIf
    | BadComparison
    | BadInteger
    | BadTimer
    | BadSteps
    | ZeroSteps
    | BadRemoteTimer
    | BadLocalTimer
    | BadSend
    | BadRemoteSend
    | UnknownScope
    | BadTarget
    | NoServices

  /** What was parsed, or what is wrong with which line. */
  datatype Parsed<+T> = Good(value: T) | Bad(line: nat, why: Complaint) {
    predicate IsFailure() { Bad? }

    function PropagateFailure<U>(): Parsed<U>
      requires Bad?
    {
      Bad(line, why)
    }

    function Extract(): T
      requires Good?
    {
      value
    }
  }

  /** Puts tokens in front of what the rest of a line gives. */
  function Before(toks: seq<string>, rest: Parsed<seq<string>>): Parsed<seq<string>> {
    if rest.Good? then Good(toks + rest.value) else rest
  }

  function Held(cur: string): seq<string> {
    if cur == [] then [] else [cur]
  }

  /** The tokens of the rest of a line, `cur` being the token under way and `quoted` whether a quote is
      open. Quotes join with what stands next to them; an empty token is none. */
  function Scan(s: string, cur: string, quoted: bool, line: nat): Parsed<seq<string>>
    decreases |s|
  {
    if s == [] then (if quoted then Bad(line, UnterminatedQuote) else Good(Held(cur)))
    else if quoted then
      if s[0] == QUOTE then Scan(s[1..], cur, false, line)
      else if s[0] == BACKSLASH then
        if |s| == 1 then Bad(line, UnterminatedEscape) else Scan(s[2..], cur + [s[1]], true, line)
      else Scan(s[1..], cur + [s[0]], true, line)
    else if s[0] == QUOTE then Scan(s[1..], cur, true, line)
    else if IsSpace(s[0]) then Before(Held(cur), Scan(s[1..], [], false, line))
    else Scan(s[1..], cur + [s[0]], false, line)
  }

  function Tokens(line: string, no: nat): Parsed<seq<string>> {
    Scan(line, [], false, no)
  }

  /** `tokenize`. */
  method Tokenize(line: string, no: nat) returns (r: Parsed<seq<string>>)
    ensures r == Tokens(line, no)
  {
    var out: seq<string> := [];
    var cur: string := [];
    var inQuotes := false;
    var i := 0;
    assert line[0..] == line;
    ghost var whole := Tokens(line, no);
    assert whole.Good? ==> [] + whole.value == whole.value;
    while i < |line|
      invariant 0 <= i <= |line|
      invariant Tokens(line, no) == Before(out, Scan(line[i..], cur, inQuotes, no))
      decreases |line| - i
    {
      var ch := line[i];
      i := i + 1;
      assert line[i - 1..][1..] == line[i..];
      if inQuotes {
        if ch == QUOTE {
          inQuotes := false;
        } else if ch == BACKSLASH {
          if i == |line| {
            return Bad(no, UnterminatedEscape);
          }
          assert line[i - 1..][2..] == line[i + 1..];
          cur := cur + [line[i]];
          i := i + 1;
        } else {
          cur := cur + [ch];
        }
        continue;
      }
      if ch == QUOTE {
        inQuotes := true;
      } else if IsSpace(ch) {
        ghost var rest := Scan(line[i..], [], false, no);
        assert rest.Good? ==> out + (Held(cur) + rest.value) == out + Held(cur) + rest.value;
        assert out + [] == out;
        if cur != [] {
          out := out + [cur];
          cur := [];
        }
      } else {
        cur := cur + [ch];
      }
    }
    assert line[i..] == [];
    if inQuotes {
      return Bad(no, UnterminatedQuote);
    }
    if cur != [] {
      out := out + [cur];
    } else {
      assert out + [] == out;
    }
    r := Good(out);
  }

  // ---- writing tokens ----

  function Escape(s: string): string {
    if s == [] then []
    else if s[0] == QUOTE || s[0] == BACKSLASH then [BACKSLASH, s[0]] + Escape(s[1..])
    else [s[0]] + Escape(s[1..])
  }

  function Quoted(s: string): string {
    [QUOTE] + Escape(s) + [QUOTE]
  }

  /** A token as it is written: bare, or quoted with quotes and backslashes escaped. */
  datatype Word = Bare(text: string) | InQuotes(text: string)

  function Written(w: Word): string {
    match w
    case Bare(text) => text
    case InQuotes(text) => Quoted(text)
  }

  predicate IsBare(s: string) {
    s != [] && forall i :: 0 <= i < |s| ==> !IsSpace(s[i]) && s[i] != QUOTE
  }

  predicate WordOk(w: Word) {
    w.text != [] && (w.Bare? ==> IsBare(w.text))
  }

  /** Words on one line, with a blank between them. */
  function Render(words: seq<Word>): string {
    if words == [] then []
    else if |words| == 1 then Written(words[0])
    else Written(words[0]) + [BLANK] + Render(words[1..])
  }

  function Texts(words: seq<Word>): (r: seq<string>)
    ensures |r| == |words|
    ensures forall i :: 0 <= i < |words| ==> r[i] == words[i].text
  {
    if words == [] then [] else [words[0].text] + Texts(words[1..])
  }

  lemma ScanCloses(rest: string, cur: string, no: nat)
    ensures Scan([QUOTE] + rest, cur, true, no) == Scan(rest, cur, false, no)
  {
    assert ([QUOTE] + rest)[1..] == rest;
  }

  lemma ScanOneEscaped(c: char, tail: string, cur: string, no: nat)
    ensures Scan(Escape([c]) + tail, cur, true, no) == Scan(tail, cur + [c], true, no)
  {
    assert [c][1..] == [];
    if c == QUOTE || c == BACKSLASH {
      assert Escape([c]) + tail == [BACKSLASH, c] + tail;
      assert ([BACKSLASH, c] + tail)[2..] == tail;
    } else {
      assert Escape([c]) + tail == [c] + tail;
      assert ([c] + tail)[1..] == tail;
    }
  }

  lemma EscapeCons(t: string)
    requires t != []
    ensures Escape(t) == Escape([t[0]]) + Escape(t[1..])
  {
    assert [t[0]][1..] == [];
  }

  lemma {:induction false} ScanEscaped(t: string, rest: string, cur: string, no: nat)
    ensures Scan(Escape(t) + [QUOTE] + rest, cur, true, no) == Scan(rest, cur + t, false, no)
    decreases |t|
  {
    hide Scan;
    if t == [] {
      assert Escape(t) + [QUOTE] + rest == [QUOTE] + rest;
      ScanCloses(rest, cur, no);
      assert cur + t == cur;
    } else {
      hide Escape;
      var tail := Escape(t[1..]) + [QUOTE] + rest;
      EscapeCons(t);
      assert Escape(t) + [QUOTE] + rest == Escape([t[0]]) + tail;
      ScanOneEscaped(t[0], tail, cur, no);
      ScanEscaped(t[1..], rest, cur + [t[0]], no);
      assert cur + [t[0]] + t[1..] == cur + t;
    }
  }

  lemma {:induction false} ScanBare(t: string, rest: string, cur: string, no: nat)
    requires forall i :: 0 <= i < |t| ==> !IsSpace(t[i]) && t[i] != QUOTE
    ensures Scan(t + rest, cur, false, no) == Scan(rest, cur + t, false, no)
    decreases |t|
  {
    if t == [] {
      assert t + rest == rest && cur + t == cur;
    } else {
      assert (t + rest)[1..] == t[1..] + rest;
      ScanBare(t[1..], rest, cur + [t[0]], no);
      assert cur + [t[0]] + t[1..] == cur + t;
    }
  }

  lemma ScanWord(w: Word, rest: string, no: nat)
    requires WordOk(w)
    ensures Scan(Written(w) + rest, [], false, no) == Scan(rest, w.text, false, no)
  {
    hide Scan;
    assert [] + w.text == w.text;
    match w
    case Bare(t) => ScanBare(t, rest, [], no);
    case InQuotes(t) =>
      assert Written(w) + rest == [QUOTE] + (Escape(t) + [QUOTE] + rest);
      OpenQuote(Escape(t) + [QUOTE] + rest, no);
      ScanEscaped(t, rest, [], no);
  }

  lemma OpenQuote(s: string, no: nat)
    ensures Scan([QUOTE] + s, [], false, no) == Scan(s, [], true, no)
  {
    assert ([QUOTE] + s)[1..] == s;
  }

  lemma AfterWord(text: string, s: string, no: nat)
    requires text != []
    ensures Scan([BLANK] + s, text, false, no) == Before([text], Scan(s, [], false, no))
    ensures Scan([], text, false, no) == Good([text])
  {
    assert ([BLANK] + s)[1..] == s;
  }

  /** Written words are read back as they are, whatever quotes, backslashes and blanks they contain. */
  lemma {:induction false} TokensRoundTrip(words: seq<Word>, no: nat)
    requires forall i :: 0 <= i < |words| ==> WordOk(words[i])
    ensures Tokens(Render(words), no) == Good(Texts(words))
  {
    if words == [] {
    } else {
      hide Scan;
      hide WordOk;
      hide Written;
      var w := words[0];
      assert WordOk(w);
      assert w.text != [] by { WordText(w); }
      if |words| == 1 {
        ScanWord(w, [], no);
        assert Written(w) + [] == Written(w);
        AfterWord(w.text, [], no);
        assert Texts(words) == [w.text];
      } else {
        var rest := Render(words[1..]);
        ScanWord(w, [BLANK] + rest, no);
        assert Written(w) + ([BLANK] + rest) == Render(words);
        AfterWord(w.text, rest, no);
        TokensRoundTrip(words[1..], no);
      }
    }
  }

  lemma WordText(w: Word)
    requires WordOk(w)
    ensures w.text != []
  {
  }

  // ---- written lines ----

  predicate OneLine(s: string) {
    NEWLINE !in s
  }

  lemma {:induction false} EscapeOneLine(s: string)
    requires OneLine(s)
    ensures OneLine(Escape(s))
  {
    if s != [] { EscapeOneLine(s[1..]); }
  }

  lemma WrittenShape(w: Word)
    requires WordOk(w)
    ensures Written(w) != [] && !IsSpace(Written(w)[0]) && !IsSpace(Written(w)[|Written(w)| - 1])
    ensures OneLine(w.text) ==> OneLine(Written(w))
  {
    if w.InQuotes? && OneLine(w.text) { EscapeOneLine(w.text); }
  }

  lemma {:induction false} RenderShape(words: seq<Word>)
    requires words != [] && forall i :: 0 <= i < |words| ==> WordOk(words[i])
    ensures Written(words[0]) <= Render(words)
    ensures Render(words) != [] && !IsSpace(Render(words)[0]) && !IsSpace(Render(words)[|Render(words)| - 1])
    ensures (forall i :: 0 <= i < |words| ==> OneLine(words[i].text)) ==> OneLine(Render(words))
  {
    hide WordOk;
    hide Written;
    assert WordOk(words[0]);
    WrittenShape(words[0]);
    if |words| > 1 {
      RenderShape(words[1..]);
    }
  }

  lemma TrimKeeps(s: string)
    requires s != [] && !IsSpace(s[0]) && !IsSpace(s[|s| - 1])
    ensures Trim(s) == s
  {
  }

  /** Lines, each with a line break after it. */
  function Unlines(lines: seq<string>): string {
    if lines == [] then [] else lines[0] + [NEWLINE] + Unlines(lines[1..])
  }

  lemma {:induction false} SplitLine(line: string, rest: string)
    requires OneLine(line)
    ensures SplitOn(line + [NEWLINE] + rest, NEWLINE) == [line] + SplitOn(rest, NEWLINE)
  {
    var s := line + [NEWLINE] + rest;
    if line == [] {
      assert s[1..] == rest;
    } else {
      assert s[1..] == line[1..] + [NEWLINE] + rest;
      SplitLine(line[1..], rest);
      assert s[0] == line[0] && line[0] in line;
      assert [line[0]] + line[1..] == line;
      assert ([line[1..]] + SplitOn(rest, NEWLINE))[1..] == SplitOn(rest, NEWLINE);
    }
  }

  lemma {:induction false} SplitLines(lines: seq<string>)
    requires forall i :: 0 <= i < |lines| ==> OneLine(lines[i])
    ensures SplitOn(Unlines(lines), NEWLINE) == lines + [[]]
  {
    if lines != [] {
      SplitLine(lines[0], Unlines(lines[1..]));
      SplitLines(lines[1..]);
      assert lines == [lines[0]] + lines[1..];
    }
  }

  lemma LinesRoundTrip(lines: seq<string>)
    requires forall i :: 0 <= i < |lines| ==> OneLine(lines[i])
    ensures Lines(Unlines(lines)) == lines
  {
    SplitLines(lines);
  }

  // ---- what tokens look like ----

  /** No token is empty, and no token of a single line has a line break in it. */
  lemma {:induction false} ScanTokens(s: string, cur: string, quoted: bool, no: nat)
    requires OneLine(s) && OneLine(cur) && Scan(s, cur, quoted, no).Good?
    ensures forall t :: t in Scan(s, cur, quoted, no).value ==> t != [] && OneLine(t)
    decreases |s|
  {
    if s != [] {
      if quoted {
        if s[0] == QUOTE { ScanTokens(s[1..], cur, false, no); }
        else if s[0] == BACKSLASH { ScanTokens(s[2..], cur + [s[1]], true, no); }
        else { ScanTokens(s[1..], cur + [s[0]], true, no); }
      } else if s[0] == QUOTE {
        ScanTokens(s[1..], cur, true, no);
      } else if IsSpace(s[0]) {
        ScanTokens(s[1..], [], false, no);
      } else {
        ScanTokens(s[1..], cur + [s[0]], false, no);
      }
    }
  }

  lemma {:induction false} PiecesOneLine(s: string)
    ensures forall i :: 0 <= i < |SplitOn(s, NEWLINE)| ==> OneLine(SplitOn(s, NEWLINE)[i])
  {
    if s != [] { PiecesOneLine(s[1..]); }
  }

  lemma {:induction false} TrimStartOneLine(s: string)
    requires OneLine(s)
    ensures OneLine(TrimStart(s))
  {
    if s != [] && IsSpace(s[0]) { TrimStartOneLine(s[1..]); }
  }

  lemma {:induction false} TrimEndOneLine(s: string)
    requires OneLine(s)
    ensures OneLine(TrimEnd(s))
  {
    if s != [] && IsSpace(s[|s| - 1]) { TrimEndOneLine(s[..|s| - 1]); }
  }
}
