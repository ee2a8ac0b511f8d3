/** Every way to write a line: how its tokens may be quoted and spaced, what a line may stand for where,
    and which complaint a refused line gets. */
module LineGrammar {
  import opened Base
  import opened Decimal
  import opened Events
  import opened Lang
  import opened Lexer
  import opened ParserSpec
  import opened Grammar

  // ---- tokens ----

  /** A character between quotes: as it is, or behind a backslash. */
  datatype QuotedChar = AsIs(c: char) | Escaped(c: char)

  /** A stretch of a token: bare, or between quotes. */
  datatype Chunk = Outside(text: string) | Inside(chars: seq<QuotedChar>)

  predicate ChunkOk(k: Chunk) {
    match k
    case Outside(text) => forall i :: 0 <= i < |text| ==> !IsSpace(text[i]) && text[i] != '"'
    case Inside(chars) => forall i :: 0 <= i < |chars| && chars[i].AsIs? ==> chars[i].c != '"' && chars[i].c != '\\'
  }

  function CharsText(chars: seq<QuotedChar>): string {
    if chars == [] then [] else [chars[0].c] + CharsText(chars[1..])
  }

  function CharsWritten(chars: seq<QuotedChar>): string {
    if chars == [] then [] else CharWritten(chars[0]) + CharsWritten(chars[1..])
  }

  function ChunkText(k: Chunk): string { match k case Outside(text) => text case Inside(chars) => CharsText(chars) }

  function ChunkWritten(k: Chunk): string { match k case Outside(text) => text case Inside(chars) => "\"" + CharsWritten(chars) + "\"" }

  function TextOf(chunks: seq<Chunk>): string {
    if chunks == [] then [] else ChunkText(chunks[0]) + TextOf(chunks[1..])
  }

  function WrittenOf(chunks: seq<Chunk>): string {
    if chunks == [] then [] else ChunkWritten(chunks[0]) + WrittenOf(chunks[1..])
  }

  /** A token, written in chunks, and the white space behind it. */
  datatype Spot = Spot(chunks: seq<Chunk>, gap: string)

  /** White space separates the tokens; behind the last one there may be none. */
  predicate LayoutOk(spots: seq<Spot>) {
    forall i :: 0 <= i < |spots| ==>
      && (forall j :: 0 <= j < |spots[i].chunks| ==> ChunkOk(spots[i].chunks[j]))
      && Spaces(spots[i].gap) && (i < |spots| - 1 ==> spots[i].gap != [])
  }

  function Layout(spots: seq<Spot>): string {
    if spots == [] then [] else WrittenOf(spots[0].chunks) + spots[0].gap + Layout(spots[1..])
  }

  /** The texts of the tokens; one without text is none. */
  function LayoutTexts(spots: seq<Spot>): seq<string> {
    if spots == [] then [] else Held(TextOf(spots[0].chunks)) + LayoutTexts(spots[1..])
  }

  lemma Regroup(a: string, b: string, c: string)
    ensures a + b + c == a + (b + c)
  {
  }

  function CharWritten(q: QuotedChar): string { if q.AsIs? then [q.c] else ['\\', q.c] }

  lemma ScanChar(q: QuotedChar, rest: string, cur: string, no: nat)
    requires ChunkOk(Inside([q]))
    ensures Scan(CharWritten(q) + rest, cur, true, no) == Scan(rest, cur + [q.c], true, no)
  {
    assert [q][0] == q;
    if q.AsIs? {
      assert ([q.c] + rest)[1..] == rest;
    } else {
      assert (['\\', q.c] + rest)[2..] == rest;
    }
  }

  lemma {:induction false} ScanChars(chars: seq<QuotedChar>, rest: string, cur: string, no: nat)
    requires ChunkOk(Inside(chars))
    ensures Scan(CharsWritten(chars) + rest, cur, true, no) == Scan(rest, cur + CharsText(chars), true, no)
    decreases |chars|
  {
    if chars == [] {
      assert CharsWritten(chars) + rest == rest && cur + CharsText(chars) == cur;
    } else {
      var q, more := chars[0], chars[1..];
      assert ChunkOk(Inside([q])) && ChunkOk(Inside(more));
      hide Scan;
      hide ChunkOk;
      ScanChars(more, rest, cur + [q.c], no);
      ScanChar(q, CharsWritten(more) + rest, cur, no);
      Regroup(cur, [q.c], CharsText(more));
      Regroup(CharWritten(q), CharsWritten(more), rest);
    }
  }

  lemma ScanChunk(k: Chunk, rest: string, cur: string, no: nat)
    requires ChunkOk(k)
    ensures Scan(ChunkWritten(k) + rest, cur, false, no) == Scan(rest, cur + ChunkText(k), false, no)
  {
    match k
    case Outside(text) => ScanBare(text, rest, cur, no);
    case Inside(chars) =>
      var tail := CharsWritten(chars) + (['"'] + rest);
      assert ChunkWritten(k) + rest == ['"'] + tail && (['"'] + tail)[1..] == tail;
      ScanChars(chars, ['"'] + rest, cur, no);
      ScanCloses(rest, cur + CharsText(chars), no);
  }

  lemma {:induction false} ScanChunks(chunks: seq<Chunk>, rest: string, cur: string, no: nat)
    requires forall j :: 0 <= j < |chunks| ==> ChunkOk(chunks[j])
    ensures Scan(WrittenOf(chunks) + rest, cur, false, no) == Scan(rest, cur + TextOf(chunks), false, no)
    decreases |chunks|
  {
    hide Scan;
    hide ChunkOk;
    hide ChunkWritten;
    hide ChunkText;
    if chunks == [] {
      assert WrittenOf(chunks) + rest == rest && cur + TextOf(chunks) == cur;
    } else {
      var tail := WrittenOf(chunks[1..]) + rest;
      assert WrittenOf(chunks) + rest == ChunkWritten(chunks[0]) + tail;
      ScanChunk(chunks[0], tail, cur, no);
      ScanChunks(chunks[1..], rest, cur + ChunkText(chunks[0]), no);
      assert cur + ChunkText(chunks[0]) + TextOf(chunks[1..]) == cur + TextOf(chunks);
    }
  }

  lemma {:induction false} ScanGap(gap: string, rest: string, cur: string, no: nat)
    requires Spaces(gap) && (gap != [] || cur == [])
    ensures Scan(gap + rest, cur, false, no) == Before(Held(cur), Scan(rest, [], false, no))
    decreases |gap|
  {
    if gap == [] {
      assert gap + rest == rest;
      var r := Scan(rest, [], false, no);
      assert r.Good? ==> [] + r.value == r.value;
    } else {
      assert (gap + rest)[1..] == gap[1..] + rest && gap[0] != '"' by { SpacesAreNotQuotes(gap[0]); }
      ScanGap(gap[1..], rest, [], no);
      var r := Scan(rest, [], false, no);
      assert r.Good? ==> [] + r.value == r.value;
    }
  }

  lemma SpacesAreNotQuotes(c: char)
    requires IsSpace(c)
    ensures c != '"' && c != '\\'
  {
  }

  /** A token ends with the white space behind it, or with the line. */
  lemma ScanSpot(w: Spot, rest: string, no: nat)
    requires (forall j :: 0 <= j < |w.chunks| ==> ChunkOk(w.chunks[j])) && Spaces(w.gap) && (w.gap != [] || rest == [])
    ensures Scan(WrittenOf(w.chunks) + w.gap + rest, [], false, no) == Before(Held(TextOf(w.chunks)), Scan(rest, [], false, no))
  {
    hide Scan;
    hide ChunkOk;
    hide WrittenOf;
    hide TextOf;
    hide Held;
    Regroup(WrittenOf(w.chunks), w.gap, rest);
    ScanChunks(w.chunks, w.gap + rest, [], no);
    assert [] + TextOf(w.chunks) == TextOf(w.chunks);
    if w.gap != [] {
      ScanGap(w.gap, rest, TextOf(w.chunks), no);
    } else {
      assert w.gap + rest == [];
      ScanEnd(TextOf(w.chunks), no);
      ScanEnd([], no);
      HeldNone();
      assert Held(TextOf(w.chunks)) + [] == Held(TextOf(w.chunks));
    }
  }

  lemma HeldNone()
    ensures Held([]) == []
  {
  }

  lemma OtherSpots(spots: seq<Spot>)
    requires LayoutOk(spots) && spots != []
    ensures LayoutOk(spots[1..])
  {
    hide ChunkOk;
    hide Spaces;
    assert forall i :: 0 <= i < |spots[1..]| ==> spots[1..][i] == spots[i + 1];
  }

  /** However its tokens are quoted and spaced, a line has exactly those tokens. */
  lemma {:induction false} LayoutTokens(spots: seq<Spot>, no: nat)
    requires LayoutOk(spots)
    ensures Scan(Layout(spots), [], false, no) == Good(LayoutTexts(spots))
    decreases |spots|
  {
    if spots != [] {
      hide Scan;
      hide ChunkOk;
      hide WrittenOf;
      hide TextOf;
      hide Held;
      hide Spaces;
      OtherSpots(spots);
      LayoutTokens(spots[1..], no);
      ScanSpot(spots[0], Layout(spots[1..]), no);
    }
  }

  lemma ScanEnd(cur: string, no: nat)
    ensures Scan([], cur, false, no) == Good(Held(cur))
  {
  }

  /** A quote that is not closed, and a backslash with nothing behind it in a quote, are refused. */
  lemma OpenQuotes(chunks: seq<Chunk>, chars: seq<QuotedChar>, no: nat)
    requires (forall j :: 0 <= j < |chunks| ==> ChunkOk(chunks[j])) && ChunkOk(Inside(chars))
    ensures Scan(WrittenOf(chunks) + "\"" + CharsWritten(chars), [], false, no) == Bad(no, UnterminatedQuote)
    ensures Scan(WrittenOf(chunks) + "\"" + CharsWritten(chars) + "\\", [], false, no) == Bad(no, UnterminatedEscape)
  {
    hide ChunkOk;
    var cur := [] + TextOf(chunks);
    var a, b := CharsWritten(chars), CharsWritten(chars) + "\\";
    assert WrittenOf(chunks) + "\"" + a == WrittenOf(chunks) + (['"'] + a) && (['"'] + a)[1..] == a;
    assert WrittenOf(chunks) + "\"" + CharsWritten(chars) + "\\" == WrittenOf(chunks) + (['"'] + b) && (['"'] + b)[1..] == b;
    ScanChunks(chunks, ['"'] + a, [], no);
    ScanChunks(chunks, ['"'] + b, [], no);
    assert a + [] == a;
    ScanChars(chars, [], cur, no);
    ScanChars(chars, "\\", cur, no);
  }

  /** White space, and what is not. */
  lemma WhiteSpace()
    ensures IsSpace(' ') && IsSpace('\t') && IsSpace('\r') && IsSpace('\n')
    ensures forall c: char :: '!' <= c <= '~' ==> !IsSpace(c)
  {
  }

  // ---- what lines stand for ----

  ghost predicate TokensFail(why: Complaint, line: string) {
    Tokens(line, 0).Bad? && Tokens(line, 0).why == why
  }

  ghost predicate TokensAre(line: string, toks: seq<string>) {
    Tokens(line, 0) == Good(toks)
  }

  /** The handler under way cannot be finished: it has no actions, or else no effects. */
  predicate Unfinished(why: Complaint, st: PState) {
    && st.handler.Some?
    && ((why.NoActions? && st.handler.value.actions == [])
        || (why.MissingEffects? && st.handler.value.actions != [] && st.handler.value.effects == []))
  }

  predicate Finished(st: PState) {
    st.handler.Some? ==> st.handler.value.actions != [] && st.handler.value.effects != []
  }

  /** The complaint is the first thing that is wrong with a line where it stands. */
  ghost predicate LineFaulty(why: Complaint, st: PState, line: string) {
    if "service " <= line then
      if !Finished(st) then Unfinished(why, st)
      else TokensFail(why, line) || (why.BadServiceDecl? && exists toks :: TokensAre(line, toks) && |toks| != 2)
    else if st.service.None? then why.OutsideService?
    else if "state " <= line then
      if st.handler.Some? then why.StateAfterHandler?
      else
        || TokensFail(why, line)
        || (why.BadStateDecl? && exists toks :: TokensAre(line, toks) && (|toks| != 4 || toks[2] != "="))
        || (why.BadStateValue? && exists toks :: TokensAre(line, toks) && |toks| == 4 && toks[2] == "=" && NoInteger(toks[3]))
    else if "on " <= line then
      if !Finished(st) then Unfinished(why, st)
      else TokensFail(why, line) || (why.BadHandlerDecl? && exists toks :: TokensAre(line, toks) && |toks| != 2)
    else if st.handler.None? then why.OutsideHandler?
    else if "effects " <= line then
      if st.handler.value.effects != [] then why.DuplicateEffects?
      else if st.handler.value.actions != [] then why.EffectsAfterActions?
      else
        || TokensFail(why, line)
        || (why.BadEffectsDecl? && exists toks :: TokensAre(line, toks) && |toks| < 2)
        || (why.UnknownEffect? && exists toks :: TokensAre(line, toks) && |toks| >= 2 && Named(NamesIn(toks[1..])).None?)
        || (why.NoEffects? && exists toks :: TokensAre(line, toks) && |toks| >= 2 && Named(NamesIn(toks[1..])) == Some([]))
    else TokensFail(why, line) || exists toks :: TokensAre(line, toks) && Faulty(why, toks)
  }

  lemma TokensAt(line: string, no: nat)
    ensures Tokens(line, no).Good? <==> Tokens(line, 0).Good?
    ensures Tokens(line, no).Good? ==> TokensAre(line, Tokens(line, no).value)
    ensures Tokens(line, no).Bad? ==> TokensFail(Tokens(line, no).why, line) && Tokens(line, no).line == no
    ensures forall a, b :: TokensAre(line, a) && TokensAre(line, b) ==> a == b
  {
    hide Scan;
    EscapesSame(line, [], false, no, 0);
    ScanLine(line, [], false, no);
  }

  lemma {:induction false} ScanLine(s: string, cur: string, quoted: bool, no: nat)
    ensures Scan(s, cur, quoted, no).Bad? ==> Scan(s, cur, quoted, no).line == no
    decreases |s|
  {
    if s != [] {
      if quoted {
        if s[0] == QUOTE { ScanLine(s[1..], cur, false, no); }
        else if s[0] == BACKSLASH { if |s| > 1 { ScanLine(s[2..], cur + [s[1]], true, no); } }
        else { ScanLine(s[1..], cur + [s[0]], true, no); }
      } else if s[0] == QUOTE {
        ScanLine(s[1..], cur, true, no);
      } else if IsSpace(s[0]) {
        ScanLine(s[1..], [], false, no);
      } else {
        ScanLine(s[1..], cur + [s[0]], false, no);
      }
    }
  }

  /** A line is refused if and only if something is wrong with it; the complaint is then about this line
      and is the first thing that is. */
  ghost predicate LineJudged(st: PState, line: string, no: nat, r: Parsed<PState>) {
    && (r.Bad? ==> r.line == no)
    && forall why: Complaint :: r == Bad(no, why) <==> LineFaulty(why, st, line)
  }

  lemma ServiceJudged(st: PState, line: string, no: nat)
    requires Nested(st) && "service " <= line
    ensures LineJudged(st, line, no, ServiceLine(st, line, no))
  {
    hide Tokens;
    hide Faulty;
    TokensAt(line, no);
  }

  lemma StateJudged(st: PState, line: string, no: nat)
    requires Nested(st) && "state " <= line && !("service " <= line)
    ensures LineJudged(st, line, no, StateLine(st, line, no))
  {
    hide Tokens;
    hide ParseI64;
    hide NoInteger;
    hide Faulty;
    TokensAt(line, no);
    var toks := Tokens(line, no);
    if toks.Good? && |toks.value| == 4 { NoIntegerMeans(toks.value[3]); }
  }

  lemma OnJudged(st: PState, line: string, no: nat)
    requires Nested(st) && "on " <= line && !("service " <= line) && !("state " <= line)
    ensures LineJudged(st, line, no, OnLine(st, line, no))
  {
    hide Tokens;
    hide Faulty;
    TokensAt(line, no);
  }

  lemma EffectsJudged(st: PState, line: string, no: nat)
    requires Nested(st) && st.handler.Some? && "effects " <= line
    requires !("service " <= line) && !("state " <= line) && !("on " <= line)
    ensures LineJudged(st, line, no, EffectsLine(st, line, no))
  {
    hide Tokens;
    hide ParseEffects;
    hide Named;
    hide NamesIn;
    hide Faulty;
    TokensAt(line, no);
    var toks := Tokens(line, no);
    if toks.Good? { EffectsSpelled(line, no, toks.value); } else { EffectsUnread(line, no); }
  }

  lemma EffectsUnread(line: string, no: nat)
    requires Tokens(line, no).Bad?
    ensures ParseEffects(line, no) == Bad(Tokens(line, no).line, Tokens(line, no).why)
  {
  }

  lemma ActionJudged(st: PState, line: string, no: nat)
    requires Nested(st) && st.handler.Some? && !("effects " <= line)
    requires !("service " <= line) && !("state " <= line) && !("on " <= line)
    ensures LineJudged(st, line, no, ActionLine(st, line, no))
  {
    hide Tokens;
    hide ParseAction;
    hide Faulty;
    TokensAt(line, no);
    var toks := Tokens(line, no);
    if toks.Good? {
      forall why: Complaint ensures ParseAction(toks.value, no) == Bad(no, why) <==> Faulty(why, toks.value) {
        ActionComplaint(toks.value, no, why);
      }
      ActionRefused(toks.value, no);
    }
  }

  lemma ActionRefused(toks: seq<string>, no: nat)
    ensures ParseAction(toks, no).Bad? ==> ParseAction(toks, no).line == no
  {
    ActionComplaint(toks, no, EmptyAction);
  }

  /** So the parser judges every line that says something. */
  lemma EveryLineJudged(st: PState, raw: string, no: nat)
    requires Nested(st) && !SaysNothing(raw)
    ensures LineJudged(st, Trim(raw), no, ParseLine(st, raw, no))
  {
    hide ServiceLine;
    hide StateLine;
    hide OnLine;
    hide EffectsLine;
    hide ActionLine;
    hide Trim;
    hide TokensFail;
    hide TokensAre;
    hide Faulty;
    hide Named;
    hide NamesIn;
    var line := Trim(raw);
    if StartsWith(line, "service ") { ServiceJudged(st, line, no); }
    else if StartsWith(line, "state ") { StateJudged(st, line, no); }
    else if StartsWith(line, "on ") { OnJudged(st, line, no); }
    else if st.handler.Some? {
      if StartsWith(line, "effects ") { EffectsJudged(st, line, no); } else { ActionJudged(st, line, no); }
    }
  }

  /** The end of a source finishes what is under way: an unfinished handler is reported behind the last
      line, and a source without services in its first. */
  lemma SourceEnds(src: string, st: PState)
    requires ParseLines(INITIAL, Lines(src), 1) == Good(st)
    ensures var behind := |Lines(src)| + 1;
            ParseModule(src) ==
              if st.handler.Some? && st.handler.value.actions == [] then Bad(behind, NoActions)
              else if st.handler.Some? && st.handler.value.effects == [] then Bad(behind, MissingEffects)
              else if st.service.None? && st.services == [] then Bad(1, NoServices)
              else if st.service.None? then Good(Module(st.services))
              else
                var s := st.service.value;
                Good(Module(st.services + [if st.handler.Some? then s.(handlers := s.handlers + [st.handler.value]) else s]))
  {
    hide ParseLines;
    hide Lines;
  }
}
