/** The line parser as the source runs it: loops that update the service and handler under way. */
module Parsing {
  import opened Base
  import opened Events
  import opened Lang
  import opened Lexer
  import opened ParserSpec

  lemma {:induction false} PartsSnoc(out: seq<Effect>, parts: seq<string>, part: string, no: nat)
    ensures AddParts(out, parts + [part], no) ==
            match AddParts(out, parts, no)
            case Bad(l, w) => Bad(l, w)
            case Good(more) => AddEffect(more, part, no)
    decreases |parts|
  {
    hide AddEffect;
    if parts == [] {
      assert parts + [part] == [part];
    } else {
      assert (parts + [part])[1..] == parts[1..] + [part];
      if AddEffect(out, parts[0], no).Good? { PartsSnoc(AddEffect(out, parts[0], no).value, parts[1..], part, no); }
    }
  }

  lemma {:induction false} PartsFail(out: seq<Effect>, parts: seq<string>, more: seq<string>, no: nat)
    requires AddParts(out, parts, no).Bad?
    ensures AddParts(out, parts + more, no) == AddParts(out, parts, no)
    decreases |parts|
  {
    hide AddEffect;
    assert (parts + more)[1..] == parts[1..] + more;
    if AddEffect(out, parts[0], no).Good? { PartsFail(AddEffect(out, parts[0], no).value, parts[1..], more, no); }
  }

  lemma {:induction false} TokensSnoc(out: seq<Effect>, toks: seq<string>, tok: string, no: nat)
    ensures AddTokens(out, toks + [tok], no) ==
            match AddTokens(out, toks, no)
            case Bad(l, w) => Bad(l, w)
            case Good(more) => AddParts(more, SplitOn(tok, ','), no)
    decreases |toks|
  {
    hide AddParts;
    hide SplitOn;
    if toks == [] {
      assert toks + [tok] == [tok];
    } else {
      assert (toks + [tok])[1..] == toks[1..] + [tok];
      var first := AddParts(out, SplitOn(toks[0], ','), no);
      if first.Good? { TokensSnoc(first.value, toks[1..], tok, no); }
    }
  }

  lemma {:induction false} TokensFail(out: seq<Effect>, toks: seq<string>, more: seq<string>, no: nat)
    requires AddTokens(out, toks, no).Bad?
    ensures AddTokens(out, toks + more, no) == AddTokens(out, toks, no)
    decreases |toks|
  {
    hide AddParts;
    hide SplitOn;
    assert (toks + more)[1..] == toks[1..] + more;
    var first := AddParts(out, SplitOn(toks[0], ','), no);
    if first.Good? { TokensFail(first.value, toks[1..], more, no); }
  }

  /** Adds the effects named in one token. */
  method AddNamed(before: seq<Effect>, tok: string, no: nat) returns (r: Parsed<seq<Effect>>)
    ensures r == AddParts(before, SplitOn(tok, ','), no)
  {
    hide SplitOn;
    hide Trim;
    var parts := SplitOn(tok, ',');
    var out := before;
    for i := 0 to |parts|
      invariant AddParts(before, parts[..i], no) == Good(out)
    {
      PartsSnoc(before, parts[..i], parts[i], no);
      assert parts[..i + 1] == parts[..i] + [parts[i]];
      var name := Trim(parts[i]);
      if name == [] {
        continue;
      }
      match EffectNamed(name) {
        case None =>
          PartsFail(before, parts[..i + 1], parts[i + 1..], no);
          assert parts[..i + 1] + parts[i + 1..] == parts;
          return Bad(no, UnknownEffect);
        case Some(e) =>
          if e !in out {
            out := out + [e];
          }
      }
    }
    assert parts[..|parts|] == parts;
    r := Good(out);
  }

  method ParseEffectsDecl(line: string, no: nat) returns (r: Parsed<seq<Effect>>)
    ensures r == ParseEffects(line, no)
  {
    hide Tokens;
    hide AddParts;
    hide SplitOn;
    var toks := Tokenize(line, no);
    if toks.Bad? {
      return Bad(toks.line, toks.why);
    }
    if |toks.value| < 2 {
      return Bad(no, BadEffectsDecl);
    }
    var names := toks.value[1..];
    var out: seq<Effect> := [];
    for i := 0 to |names|
      invariant AddTokens([], names[..i], no) == Good(out)
    {
      TokensSnoc([], names[..i], names[i], no);
      assert names[..i + 1] == names[..i] + [names[i]];
      var more := AddNamed(out, names[i], no);
      if more.Bad? {
        TokensFail([], names[..i + 1], names[i + 1..], no);
        assert names[..i + 1] + names[i + 1..] == names;
        return more;
      }
      out := more.value;
    }
    assert names[..|names|] == names;
    if out == [] {
      return Bad(no, NoEffects);
    }
    r := Good(out);
  }

  /** The parser's variables, and what it does with each line. */
  class LineParser {
    var services: seq<ServiceDecl>
    var currentService: Option<ServiceDecl>
    var currentHandler: Option<HandlerDecl>

    function State(): PState
      reads this
    {
      PState(services, currentService, currentHandler)
    }

    constructor ()
      ensures State() == INITIAL
    {
      services, currentService, currentHandler := [], None, None;
    }

    method FlushHandler(no: nat) returns (failed: Option<(nat, Complaint)>)
      requires Nested(State())
      modifies this`currentService, this`currentHandler
      ensures Outcome(ParserSpec.FlushHandler(old(State()), no), failed, State())
    {
      failed := None;
      if currentHandler != None {
        var h := currentHandler.value;
        if h.actions == [] {
          return Some((no, NoActions));
        }
        if h.effects == [] {
          return Some((no, MissingEffects));
        }
        currentHandler := None;
        var s := currentService.value;
        currentService := Some(s.(handlers := s.handlers + [h]));
      }
    }

    method FlushService()
      modifies this`services, this`currentService
      ensures State() == ParserSpec.FlushService(old(State()))
    {
      if currentService != None {
        services := services + [currentService.value];
        currentService := None;
      }
    }

    method OnServiceLine(line: string, no: nat) returns (failed: Option<(nat, Complaint)>)
      requires Nested(State())
      modifies this
      ensures Outcome(ServiceLine(old(State()), line, no), failed, State())
    {
      hide Tokens;
      failed := FlushHandler(no);
      if failed != None {
        return;
      }
      FlushService();
      var toks := Tokenize(line, no);
      if toks.Bad? {
        return Some((toks.line, toks.why));
      }
      if |toks.value| != 2 {
        return Some((no, BadServiceDecl));
      }
      currentService := Some(ServiceDecl(toks.value[1], [], []));
    }

    method OnStateLine(line: string, no: nat) returns (failed: Option<(nat, Complaint)>)
      requires Nested(State())
      modifies this
      ensures Outcome(StateLine(old(State()), line, no), failed, State())
    {
      hide Tokens;
      failed := None;
      if currentService == None {
        return Some((no, OutsideService));
      }
      if currentHandler != None {
        return Some((no, StateAfterHandler));
      }
      var toks := Tokenize(line, no);
      if toks.Bad? {
        return Some((toks.line, toks.why));
      }
      if |toks.value| != 4 || toks.value[2] != "=" {
        return Some((no, BadStateDecl));
      }
      var initial := ParseInteger(toks.value[3], no, BadStateValue);
      if initial.Bad? {
        return Some((initial.line, initial.why));
      }
      var s := currentService.value;
      currentService := Some(s.(states := s.states + [StateDecl(toks.value[1], initial.value)]));
    }

    method OnHandlerLine(line: string, no: nat) returns (failed: Option<(nat, Complaint)>)
      requires Nested(State())
      modifies this
      ensures Outcome(OnLine(old(State()), line, no), failed, State())
    {
      hide Tokens;
      failed := None;
      if currentService == None {
        return Some((no, OutsideService));
      }
      failed := FlushHandler(no);
      if failed != None {
        return;
      }
      var toks := Tokenize(line, no);
      if toks.Bad? {
        return Some((toks.line, toks.why));
      }
      if |toks.value| != 2 {
        return Some((no, BadHandlerDecl));
      }
      currentHandler := Some(HandlerDecl(toks.value[1], [], []));
    }

    method OnBodyLine(line: string, no: nat) returns (failed: Option<(nat, Complaint)>)
      requires Nested(State()) && currentHandler.Some?
      modifies this
      ensures Outcome(if StartsWith(line, "effects ") then EffectsLine(old(State()), line, no) else ActionLine(old(State()), line, no),
                      failed, State())
    {
      hide Tokens;
      hide ParseEffects;
      hide ParseAction;
      failed := None;
      var h := currentHandler.value;
      if StartsWith(line, "effects ") {
        if h.effects != [] {
          return Some((no, DuplicateEffects));
        }
        if h.actions != [] {
          return Some((no, EffectsAfterActions));
        }
        var effects := ParseEffectsDecl(line, no);
        if effects.Bad? {
          return Some((effects.line, effects.why));
        }
        currentHandler := Some(h.(effects := effects.value));
        return;
      }
      var toks := Tokenize(line, no);
      if toks.Bad? {
        return Some((toks.line, toks.why));
      }
      var action := ParseAction(toks.value, no);
      if action.Bad? {
        return Some((action.line, action.why));
      }
      currentHandler := Some(h.(actions := h.actions + [action.value]));
    }

    method OnLineRead(raw: string, no: nat) returns (failed: Option<(nat, Complaint)>)
      requires Nested(State())
      modifies this
      ensures Outcome(ParseLine(old(State()), raw, no), failed, State())
      ensures failed == None ==> Nested(State())
    {
      hide ServiceLine;
      hide StateLine;
      hide OnLine;
      hide EffectsLine;
      hide ActionLine;
      hide Trim;
      failed := None;
      var line := Trim(raw);
      if line == [] || StartsWith(line, "//") || StartsWith(line, "#") {
        return;
      }
      if StartsWith(line, "service ") {
        failed := OnServiceLine(line, no);
      } else if StartsWith(line, "state ") {
        failed := OnStateLine(line, no);
      } else if StartsWith(line, "on ") {
        failed := OnHandlerLine(line, no);
      } else if currentService == None {
        failed := Some((no, OutsideService));
      } else if currentHandler == None {
        failed := Some((no, OutsideHandler));
      } else {
        failed := OnBodyLine(line, no);
      }
    }
  }

  /** A step of the parser agrees with what the specification gives. */
  ghost predicate Outcome(r: Parsed<PState>, failed: Option<(nat, Complaint)>, after: PState) {
    if r.Good? then failed == None && after == r.value else failed == Some((r.line, r.why))
  }

  lemma {:induction false} LinesSnoc(st: PState, lines: seq<string>, line: string, no: nat)
    requires Nested(st)
    ensures ParseLines(st, lines + [line], no) ==
            match ParseLines(st, lines, no)
            case Bad(l, w) => Bad(l, w)
            case Good(next) => ParseLine(next, line, no + |lines|)
    decreases |lines|
  {
    hide ParseLine;
    if lines == [] {
      assert lines + [line] == [line];
    } else {
      assert (lines + [line])[1..] == lines[1..] + [line];
      var first := ParseLine(st, lines[0], no);
      if first.Good? { LinesSnoc(first.value, lines[1..], line, no + 1); }
    }
  }

  lemma {:induction false} LinesFail(st: PState, lines: seq<string>, more: seq<string>, no: nat)
    requires Nested(st) && ParseLines(st, lines, no).Bad?
    ensures ParseLines(st, lines + more, no) == ParseLines(st, lines, no)
    decreases |lines|
  {
    hide ParseLine;
    assert (lines + more)[1..] == lines[1..] + more;
    var first := ParseLine(st, lines[0], no);
    if first.Good? { LinesFail(first.value, lines[1..], more, no + 1); }
  }

  /** `parse_module`: the module, or the first wrong line and what is wrong with it. */
  method ParseSource(src: string) returns (r: Parsed<Module>)
    ensures r == ParseModule(src)
  {
    hide ParseLine;
    hide Lines;
    var lines := Lines(src);
    var p := new LineParser();
    for i := 0 to |lines|
      modifies p
      invariant Nested(p.State()) && ParseLines(INITIAL, lines[..i], 1) == Good(p.State())
    {
      LinesSnoc(INITIAL, lines[..i], lines[i], 1);
      assert lines[..i + 1] == lines[..i] + [lines[i]];
      var failed := p.OnLineRead(lines[i], i + 1);
      if failed != None {
        LinesFail(INITIAL, lines[..i + 1], lines[i + 1..], 1);
        assert lines[..i + 1] + lines[i + 1..] == lines;
        return Bad(failed.value.0, failed.value.1);
      }
    }
    assert lines[..|lines|] == lines;
    var failed := p.FlushHandler(|lines| + 1);
    if failed != None {
      return Bad(failed.value.0, failed.value.1);
    }
    p.FlushService();
    if p.services == [] {
      return Bad(1, NoServices);
    }
    r := Good(Module(p.services));
  }
}
