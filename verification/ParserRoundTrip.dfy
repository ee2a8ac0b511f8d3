/** Printing a module and parsing it gives the module back, and what the parser returns can be printed. */
module ParserRoundTrip {
  import opened Base
  import opened Events
  import opened Lang
  import opened Decimal
  import opened Lexer
  import opened ParserSpec

  // ---- modules that can be written down ----

  /** A name or template: not empty, on one line. */
  predicate TextOk(s: string) {
    s != [] && OneLine(s)
  }

  predicate TargetOk(t: RemoteTarget) {
    t.Node? ==> TextOk(t.raw)
  }

  predicate ActionOk(a: Action) {
    match a
    case LogAction(template) => TextOk(template)
    case SetState(key, _) => TextOk(key)
    case IncState(key, _) => TextOk(key)
    case TimerLocalAction(steps, service, message, template) =>
      steps > 0 && TextOk(service) && TextOk(message) && TextOk(template)
    case TimerRemoteAction(steps, target, service, message, template) =>
      steps > 0 && TargetOk(target) && TextOk(service) && TextOk(message) && TextOk(template)
    case SendLocalAction(service, message, template) => TextOk(service) && TextOk(message) && TextOk(template)
    case SendRemoteAction(target, service, message, template) =>
      TargetOk(target) && TextOk(service) && TextOk(message) && TextOk(template)
    case IfStateEq(key, _, inner) => TextOk(key) && ActionOk(inner)
  }

  ghost predicate HandlerDeclOk(h: HandlerDecl) {
    && TextOk(h.on)
    && h.effects != [] && Distinct(h.effects)
    && h.actions != [] && forall i :: 0 <= i < |h.actions| ==> ActionOk(h.actions[i])
  }

  ghost predicate ServiceOk(s: ServiceDecl) {
    && TextOk(s.name)
    && (forall i :: 0 <= i < |s.states| ==> TextOk(s.states[i].name))
    && (forall i :: 0 <= i < |s.handlers| ==> HandlerDeclOk(s.handlers[i]))
  }

  ghost predicate ModuleOk(m: Module) {
    m.services != [] && forall i :: 0 <= i < |m.services| ==> ServiceOk(m.services[i])
  }

  // ---- printing ----

  function TargetWord(t: RemoteTarget): Word {
    match t
    case Peers => Bare("peers")
    case Sender => Bare("sender")
    case Node(raw) => InQuotes("node:" + raw)
  }

  function ActionWords(a: Action): seq<Word> {
    match a
    case LogAction(template) => [Bare("log"), InQuotes(template)]
    case SetState(key, value) => [Bare("set"), InQuotes(key), Bare(PrintInt(value))]
    case IncState(key, delta) => [Bare("inc"), InQuotes(key), Bare(PrintInt(delta))]
    case TimerLocalAction(steps, service, message, template) =>
      [Bare("timer"), Bare(PrintNat(steps)), Bare("local"), InQuotes(service), InQuotes(message), InQuotes(template)]
    case TimerRemoteAction(steps, target, service, message, template) =>
      [Bare("timer"), Bare(PrintNat(steps)), Bare("remote"), TargetWord(target), InQuotes(service), InQuotes(message), InQuotes(template)]
    case SendLocalAction(service, message, template) =>
      [Bare("send"), Bare("local"), InQuotes(service), InQuotes(message), InQuotes(template)]
    case SendRemoteAction(target, service, message, template) =>
      [Bare("send"), Bare("remote"), TargetWord(target), InQuotes(service), InQuotes(message), InQuotes(template)]
    case IfStateEq(key, value, inner) =>
      [Bare("if"), InQuotes(key), Bare("=="), Bare(PrintInt(value))] + ActionWords(inner)
  }

  function EffectWords(effects: seq<Effect>): (r: seq<Word>)
    ensures |r| == |effects|
    ensures forall i :: 0 <= i < |effects| ==> r[i] == Bare(EffectName(effects[i]))
  {
    if effects == [] then [] else [Bare(EffectName(effects[0]))] + EffectWords(effects[1..])
  }

  function ServiceWords(name: string): seq<Word> { [Bare("service"), InQuotes(name)] }

  function StateWords(d: StateDecl): seq<Word> { [Bare("state"), InQuotes(d.name), Bare("="), Bare(PrintInt(d.initial))] }

  function OnWords(on: string): seq<Word> { [Bare("on"), InQuotes(on)] }

  function StateLines(states: seq<StateDecl>): seq<string> {
    if states == [] then [] else [Render(StateWords(states[0]))] + StateLines(states[1..])
  }

  function ActionLines(actions: seq<Action>): seq<string> {
    if actions == [] then [] else [Render(ActionWords(actions[0]))] + ActionLines(actions[1..])
  }

  function HandlerLines(h: HandlerDecl): seq<string> {
    [Render(OnWords(h.on)), Render([Bare("effects")] + EffectWords(h.effects))] + ActionLines(h.actions)
  }

  function HandlersLines(hs: seq<HandlerDecl>): seq<string> {
    if hs == [] then [] else HandlerLines(hs[0]) + HandlersLines(hs[1..])
  }

  function ServiceLines(s: ServiceDecl): seq<string> {
    [Render(ServiceWords(s.name))] + StateLines(s.states) + HandlersLines(s.handlers)
  }

  function ModuleLines(services: seq<ServiceDecl>): seq<string> {
    if services == [] then [] else ServiceLines(services[0]) + ModuleLines(services[1..])
  }

  /** One item a line, names and templates quoted. */
  function PrintModule(m: Module): string {
    Unlines(ModuleLines(m.services))
  }

  // ---- words ----

  lemma {:induction false} DigitsAreBare(s: string)
    requires s != [] && AllDigits(s)
    ensures IsBare(s) && OneLine(s)
  {
    forall i | 0 <= i < |s| ensures !IsSpace(s[i]) && s[i] != QUOTE && s[i] != NEWLINE { assert IsDigit(s[i]); }
  }

  lemma NumbersAreBare(n: int)
    ensures WordOk(Bare(PrintInt(n))) && OneLine(PrintInt(n))
    ensures n >= 0 ==> WordOk(Bare(PrintNat(n))) && OneLine(PrintNat(n))
  {
    if n < 0 {
      NatRoundTrip(-n);
      DigitsAreBare(PrintNat(-n));
    } else {
      NatRoundTrip(n);
      DigitsAreBare(PrintNat(n));
    }
  }

  const KEYWORDS: set<string> := {"log", "set", "inc", "timer", "send", "if", "local", "remote", "peers", "sender", "==", "=",
                                  "service", "state", "on", "effects"}

  /** The keywords are bare words on one line. */
  lemma Keywords()
    ensures forall k :: k in KEYWORDS ==> IsBare(k) && OneLine(k)
  {
  }

  lemma EffectNamesAreBare(e: Effect)
    ensures IsBare(EffectName(e)) && OneLine(EffectName(e)) && ',' !in EffectName(e)
    ensures EffectNamed(EffectName(e)) == Some(e)
  {
    EffectNameReads(e);
    EffectNameShape(EffectName(e));
  }

  lemma EffectNameReads(e: Effect)
    ensures EffectNamed(EffectName(e)) == Some(e)
  {
    assert |"log"| == 3 && |"state_read"| == 10 && |"state_write"| == 11 && |"send_local"| == 10;
    assert |"send_remote"| == 11 && |"timer_local"| == 11 && |"timer_remote"| == 12;
    assert "send_local"[1] == 'e' && "state_read"[1] == 't' && "send_remote"[1] == 'e' && "state_write"[1] == 't';
    assert "timer_local"[0] == 't' && "send_remote"[0] == 's';
  }

  /** Lower-case letters and underscores. */
  predicate IsIdentifier(s: string) {
    s != [] && forall i :: 0 <= i < |s| ==> 'a' <= s[i] <= 'z' || s[i] == '_'
  }

  lemma IdentifierShape(s: string)
    requires IsIdentifier(s)
    ensures IsBare(s) && OneLine(s) && ',' !in s
  {
  }

  lemma EffectNameShape(name: string)
    requires EffectNamed(name).Some?
    ensures IsBare(name) && OneLine(name) && ',' !in name
  {
    hide IsBare;
    assert IsIdentifier(name);
    IdentifierShape(name);
  }

  ghost predicate WordsOk(words: seq<Word>) {
    words != [] && forall i :: 0 <= i < |words| ==> WordOk(words[i]) && OneLine(words[i].text)
  }

  lemma {:induction false} ActionWordsOk(a: Action)
    requires ActionOk(a)
    ensures WordsOk(ActionWords(a)) && ActionWords(a)[0].Bare? && |ActionWords(a)| >= 2
    ensures ActionWords(a)[0].text in {"log", "set", "inc", "timer", "send", "if"}
  {
    Keywords();
    match a
    case LogAction(_) =>
    case SetState(_, value) => NumbersAreBare(value);
    case IncState(_, delta) => NumbersAreBare(delta);
    case TimerLocalAction(steps, _, _, _) => NumbersAreBare(steps);
    case TimerRemoteAction(steps, target, _, _, _) =>
      NumbersAreBare(steps);
      TargetWordOk(target);
    case SendLocalAction(_, _, _) =>
    case SendRemoteAction(target, _, _, _) => TargetWordOk(target);
    case IfStateEq(_, value, inner) =>
      NumbersAreBare(value);
      ActionWordsOk(inner);
  }

  lemma TargetWordOk(t: RemoteTarget)
    requires TargetOk(t)
    ensures WordOk(TargetWord(t)) && OneLine(TargetWord(t).text)
  {
    Keywords();
    if t.Node? {
      assert OneLine("node:");
    }
  }

  lemma TargetRoundTrip(t: RemoteTarget, no: nat)
    requires TargetOk(t)
    ensures ParseTarget(TargetWord(t).text, no) == Good(t)
  {
    if t.Node? {
      var s := "node:" + t.raw;
      assert "node:" <= s && s[|"node:"|..] == t.raw;
      assert s[0] == 'n';
    }
  }

  // ---- actions ----

  lemma LastText(toks: seq<string>, i: nat)
    requires i + 1 == |toks|
    ensures Join(toks[i..]) == toks[i]
  {
    assert toks[i..] == [toks[i]];
  }

  lemma TimerRoundTrip(a: Action, no: nat)
    requires ActionOk(a) && (a.TimerLocalAction? || a.TimerRemoteAction?)
    ensures ParseAction(Texts(ActionWords(a)), no) == Good(a)
  {
    hide PrintNat;
    hide ParseU64;
    hide ParseTarget;
    hide TargetWord;
    hide TextOk;
    hide Join;
    var toks := Texts(ActionWords(a));
    U64RoundTrip(a.steps);
    LastText(toks, |toks| - 1);
    if a.TimerRemoteAction? { TargetRoundTrip(a.target, no); }
  }

  lemma SendRoundTrip(a: Action, no: nat)
    requires ActionOk(a) && (a.SendLocalAction? || a.SendRemoteAction?)
    ensures ParseAction(Texts(ActionWords(a)), no) == Good(a)
  {
    hide ParseTarget;
    hide TargetWord;
    hide TextOk;
    hide Join;
    var toks := Texts(ActionWords(a));
    LastText(toks, |toks| - 1);
    if a.SendRemoteAction? { TargetRoundTrip(a.target, no); }
  }

  lemma StateRoundTrip(a: Action, no: nat)
    requires ActionOk(a) && (a.LogAction? || a.SetState? || a.IncState?)
    ensures ParseAction(Texts(ActionWords(a)), no) == Good(a)
  {
    hide PrintInt;
    hide ParseI64;
    hide TextOk;
    hide Join;
    var toks := Texts(ActionWords(a));
    match a
    case LogAction(_) => LastText(toks, 1);
    case SetState(_, value) => I64RoundTrip(value);
    case IncState(_, delta) => I64RoundTrip(delta);
  }

  /** Every printed action is parsed back, `if` nested to any depth. */
  lemma {:induction false} ActionRoundTrip(a: Action, no: nat)
    requires ActionOk(a)
    ensures ParseAction(Texts(ActionWords(a)), no) == Good(a)
  {
    hide PrintInt;
    hide ParseI64;
    hide ParseTimer;
    hide ParseSend;
    hide ParseLog;
    hide ParseSet;
    hide ParseInc;
    match a
    case LogAction(_) => StateRoundTrip(a, no);
    case SetState(_, _) => StateRoundTrip(a, no);
    case IncState(_, _) => StateRoundTrip(a, no);
    case TimerLocalAction(_, _, _, _) => TimerRoundTrip(a, no);
    case TimerRemoteAction(_, _, _, _, _) => TimerRoundTrip(a, no);
    case SendLocalAction(_, _, _) => SendRoundTrip(a, no);
    case SendRemoteAction(_, _, _, _) => SendRoundTrip(a, no);
    case IfStateEq(_, value, inner) =>
      var toks := Texts(ActionWords(a));
      I64RoundTrip(value);
      ActionWordsOk(inner);
      ActionRoundTrip(inner, no);
      assert toks[4..] == Texts(ActionWords(inner));
  }

  // ---- lines ----

  lemma FirstWord(words: seq<Word>)
    requires |words| >= 2 && words[0].Bare?
    ensures words[0].text + [BLANK] <= Render(words)
  {
  }

  /** What a rendered line is taken for. */
  lemma LineKind(words: seq<Word>)
    requires WordsOk(words) && |words| >= 2 && words[0].Bare?
    ensures Trim(Render(words)) == Render(words) && OneLine(Render(words))
    ensures words[0].text + [BLANK] <= Render(words)
  {
    RenderShape(words);
    TrimKeeps(Render(words));
    FirstWord(words);
  }

  lemma TakenAsAction(line: string, word: string)
    requires word in {"log", "set", "inc", "timer", "send", "if"} && word + [BLANK] <= line
    ensures !Ignored(line)
    ensures !StartsWith(line, "service ") && !StartsWith(line, "state ") && !StartsWith(line, "on ") && !StartsWith(line, "effects ")
  {
    var p := word + [BLANK];
    assert line[0] == p[0] && line[1] == p[1] && line[2] == p[2];
  }

  lemma TakenAsDeclaration(line: string)
    ensures StartsWith(line, "service ") ==> !Ignored(line)
    ensures StartsWith(line, "state ") ==> !Ignored(line) && !StartsWith(line, "service ")
    ensures StartsWith(line, "on ") ==> !Ignored(line) && !StartsWith(line, "service ") && !StartsWith(line, "state ")
    ensures StartsWith(line, "effects ") ==>
              !Ignored(line) && !StartsWith(line, "service ") && !StartsWith(line, "state ") && !StartsWith(line, "on ")
  {
    if StartsWith(line, "service ") { assert line[0] == 's'; }
    if StartsWith(line, "state ") { assert line[0] == 's' && line[1] == 't'; }
    if StartsWith(line, "on ") { assert line[0] == 'o'; }
    if StartsWith(line, "effects ") { assert line[0] == 'e'; }
  }

  lemma TextsOkForTokens(words: seq<Word>, no: nat)
    requires WordsOk(words)
    ensures Tokens(Render(words), no) == Good(Texts(words))
  {
    TokensRoundTrip(words, no);
  }

  lemma ActionLineParses(st: PState, a: Action, no: nat)
    requires Nested(st) && st.handler.Some? && ActionOk(a)
    ensures var h := st.handler.value;
            ParseLine(st, Render(ActionWords(a)), no) == Good(st.(handler := Some(h.(actions := h.actions + [a]))))
  {
    hide ParseAction;
    hide Tokens;
    hide Render;
    hide Trim;
    hide StartsWith;
    hide Ignored;
    hide WordsOk;
    hide ActionWords;
    ActionWordsOk(a);
    var words := ActionWords(a);
    LineKind(words);
    TakenAsAction(Render(words), words[0].text);
    TextsOkForTokens(words, no);
    ActionRoundTrip(a, no);
  }

  lemma StateLineParses(st: PState, d: StateDecl, no: nat)
    requires st.service.Some? && st.handler == None && TextOk(d.name)
    ensures var s := st.service.value;
            ParseLine(st, Render(StateWords(d)), no) == Good(st.(service := Some(s.(states := s.states + [d]))))
  {
    hide Tokens;
    hide Render;
    hide Trim;
    hide Ignored;
    hide PrintInt;
    hide ParseI64;
    Keywords();
    NumbersAreBare(d.initial);
    var words := StateWords(d);
    LineKind(words);
    assert "state" + [BLANK] == "state ";
    TakenAsDeclaration(Render(words));
    TextsOkForTokens(words, no);
    I64RoundTrip(d.initial);
  }

  lemma ServiceLineParses(st: PState, name: string, no: nat, flushed: PState)
    requires Nested(st) && FlushHandler(st, no) == Good(flushed) && TextOk(name)
    ensures ParseLine(st, Render(ServiceWords(name)), no) == Good(FlushService(flushed).(service := Some(ServiceDecl(name, [], []))))
  {
    hide Tokens;
    hide Render;
    hide Trim;
    hide Ignored;
    Keywords();
    var words := ServiceWords(name);
    LineKind(words);
    assert "service" + [BLANK] == "service ";
    TakenAsDeclaration(Render(words));
    TextsOkForTokens(words, no);
  }

  lemma OnLineParses(st: PState, on: string, no: nat, flushed: PState)
    requires Nested(st) && st.service.Some? && FlushHandler(st, no) == Good(flushed) && TextOk(on)
    ensures ParseLine(st, Render(OnWords(on)), no) == Good(flushed.(handler := Some(HandlerDecl(on, [], []))))
  {
    hide Tokens;
    hide Render;
    hide Trim;
    hide Ignored;
    Keywords();
    var words := OnWords(on);
    LineKind(words);
    assert "on" + [BLANK] == "on ";
    TakenAsDeclaration(Render(words));
    TextsOkForTokens(words, no);
  }

  lemma {:induction false} NoComma(s: string)
    requires ',' !in s
    ensures SplitOn(s, ',') == [s]
  {
    if s != [] {
      NoComma(s[1..]);
      assert s[0] in s;
      assert [s[0]] + s[1..] == s;
    }
  }

  lemma OneEffect(out: seq<Effect>, e: Effect, no: nat)
    requires e !in out
    ensures AddParts(out, SplitOn(EffectName(e), ','), no) == Good(out + [e])
  {
    hide EffectName;
    hide EffectNamed;
    hide Trim;
    hide SplitOn;
    var name := EffectName(e);
    EffectNamesAreBare(e);
    NoComma(name);
    TrimKeeps(name);
    assert [name][1..] == [];
  }

  lemma {:induction false} EffectsRoundTrip(out: seq<Effect>, effects: seq<Effect>, no: nat)
    requires Distinct(out + effects)
    ensures AddTokens(out, Texts(EffectWords(effects)), no) == Good(out + effects)
    decreases |effects|
  {
    hide AddParts;
    hide SplitOn;
    hide EffectName;
    if effects == [] {
      assert out + effects == out;
    } else {
      var all := out + effects;
      forall i | 0 <= i < |out| ensures out[i] != effects[0] { assert all[i] != all[|out|]; }
      OneEffect(out, effects[0], no);
      assert out + [effects[0]] + effects[1..] == all;
      EffectsRoundTrip(out + [effects[0]], effects[1..], no);
      var toks := Texts(EffectWords(effects));
      assert toks[1..] == Texts(EffectWords(effects[1..]));
    }
  }

  lemma EffectWordsOk(effects: seq<Effect>)
    requires effects != []
    ensures WordsOk([Bare("effects")] + EffectWords(effects))
  {
    Keywords();
    forall i | 0 <= i < |effects| ensures IsBare(EffectName(effects[i])) && OneLine(EffectName(effects[i])) { EffectNamesAreBare(effects[i]); }
  }

  lemma EffectsLineParses(st: PState, effects: seq<Effect>, no: nat)
    requires Nested(st) && st.handler.Some? && st.handler.value.effects == [] && st.handler.value.actions == []
    requires effects != [] && Distinct(effects)
    ensures ParseLine(st, Render([Bare("effects")] + EffectWords(effects)), no)
            == Good(st.(handler := Some(st.handler.value.(effects := effects))))
  {
    hide Tokens;
    hide Render;
    hide Trim;
    hide Ignored;
    hide AddTokens;
    hide EffectWords;
    var words := [Bare("effects")] + EffectWords(effects);
    EffectWordsOk(effects);
    LineKind(words);
    assert "effects" + [BLANK] == "effects ";
    TakenAsDeclaration(Render(words));
    TextsOkForTokens(words, no);
    assert Texts(words)[1..] == Texts(EffectWords(effects));
    assert [] + effects == effects;
    EffectsRoundTrip([], effects, no);
  }

  // ---- handlers, services, modules ----

  lemma {:induction false} LinesJoin(st: PState, a: seq<string>, mid: PState, b: seq<string>, no: nat)
    requires Nested(st) && ParseLines(st, a, no) == Good(mid)
    ensures ParseLines(st, a + b, no) == ParseLines(mid, b, no + |a|)
    decreases |a|
  {
    hide ParseLine;
    if a == [] {
      assert a + b == b;
    } else {
      assert (a + b)[1..] == a[1..] + b;
      LinesJoin(ParseLine(st, a[0], no).value, a[1..], mid, b, no + 1);
    }
  }

  lemma OneLineParses(st: PState, line: string, next: PState, no: nat)
    requires Nested(st) && ParseLine(st, line, no) == Good(next)
    ensures ParseLines(st, [line], no) == Good(next)
  {
    hide ParseLine;
    assert [line][1..] == [];
  }

  lemma LinesCons(st: PState, line: string, rest: seq<string>, no: nat, next: PState)
    requires Nested(st) && Nested(next) && ParseLine(st, line, no) == Good(next)
    ensures ParseLines(st, [line] + rest, no) == ParseLines(next, rest, no + 1)
  {
    hide ParseLine;
    assert ([line] + rest)[1..] == rest;
  }

  lemma {:induction false} ActionsParse(st: PState, actions: seq<Action>, no: nat)
    requires Nested(st) && st.handler.Some? && forall i :: 0 <= i < |actions| ==> ActionOk(actions[i])
    ensures var h := st.handler.value;
            ParseLines(st, ActionLines(actions), no) == Good(st.(handler := Some(h.(actions := h.actions + actions))))
    decreases |actions|
  {
    hide ParseLine;
    hide ActionOk;
    var h := st.handler.value;
    if actions == [] {
      assert h.actions + actions == h.actions;
    } else {
      hide ParseLines;
      ActionLineParses(st, actions[0], no);
      var next := st.(handler := Some(h.(actions := h.actions + [actions[0]])));
      ActionsParse(next, actions[1..], no + 1);
      assert h.actions + [actions[0]] + actions[1..] == h.actions + actions;
      var line := ActionLines(actions)[0];
      assert ActionLines(actions) == [line] + ActionLines(actions[1..]);
      LinesCons(st, line, ActionLines(actions[1..]), no, next);
    }
  }

  lemma {:induction false} StatesParse(st: PState, states: seq<StateDecl>, no: nat)
    requires st.service.Some? && st.handler == None && forall i :: 0 <= i < |states| ==> TextOk(states[i].name)
    ensures var s := st.service.value;
            ParseLines(st, StateLines(states), no) == Good(st.(service := Some(s.(states := s.states + states))))
    decreases |states|
  {
    hide ParseLine;
    hide TextOk;
    var s := st.service.value;
    if states == [] {
      assert s.states + states == s.states;
    } else {
      hide ParseLines;
      StateLineParses(st, states[0], no);
      var next := st.(service := Some(s.(states := s.states + [states[0]])));
      StatesParse(next, states[1..], no + 1);
      assert s.states + [states[0]] + states[1..] == s.states + states;
      var line := StateLines(states)[0];
      assert StateLines(states) == [line] + StateLines(states[1..]);
      LinesCons(st, line, StateLines(states[1..]), no, next);
    }
  }

  /** After a handler's lines the handler is under way, complete. */
  lemma HandlerParses(st: PState, h: HandlerDecl, no: nat, flushed: PState)
    requires Nested(st) && st.service.Some? && FlushHandler(st, no) == Good(flushed) && HandlerDeclOk(h)
    ensures ParseLines(st, HandlerLines(h), no) == Good(flushed.(handler := Some(h)))
  {
    hide ParseLine;
    hide Render;
    hide Distinct;
    hide ActionOk;
    hide FlushHandler;
    hide ActionLines;
    hide ParseLines;
    hide EffectWords;
    hide TextOk;
    var on := Render(OnWords(h.on));
    var effects := Render([Bare("effects")] + EffectWords(h.effects));
    var st1 := flushed.(handler := Some(HandlerDecl(h.on, [], [])));
    var st2 := flushed.(handler := Some(HandlerDecl(h.on, h.effects, [])));
    OnLineParses(st, h.on, no, flushed);
    OneLineParses(st, on, st1, no);
    EffectsLineParses(st1, h.effects, no + 1);
    OneLineParses(st1, effects, st2, no + 1);
    ActionsParse(st2, h.actions, no + 2);
    assert [] + h.actions == h.actions;
    LinesJoin(st, [on], st1, [effects], no);
    LinesJoin(st, [on] + [effects], st2, ActionLines(h.actions), no);
    assert HandlerLines(h) == [on] + [effects] + ActionLines(h.actions);
  }

  /** A state whose pending handler, if flushed, completes the service `s`. */
  ghost predicate Completes(st: PState, services: seq<ServiceDecl>, s: ServiceDecl) {
    && Nested(st) && st.services == services
    && forall no: nat :: FlushHandler(st, no) == Good(PState(services, Some(s), None))
  }

  lemma {:induction false} HandlersParse(st: PState, services: seq<ServiceDecl>, s: ServiceDecl, hs: seq<HandlerDecl>, no: nat)
    returns (end: PState)
    requires Completes(st, services, s) && forall i :: 0 <= i < |hs| ==> HandlerDeclOk(hs[i])
    ensures ParseLines(st, HandlersLines(hs), no) == Good(end)
    ensures Completes(end, services, s.(handlers := s.handlers + hs))
    decreases |hs|
  {
    hide ParseLine;
    hide HandlerLines;
    hide HandlerDeclOk;
    if hs == [] {
      end := st;
      assert s.handlers + hs == s.handlers;
    } else {
      var h := hs[0];
      var flushed := PState(services, Some(s), None);
      assert FlushHandler(st, no) == Good(flushed);
      HandlerParses(st, h, no, flushed);
      var mid := flushed.(handler := Some(h));
      assert h.actions != [] && h.effects != [] by { HandlerParts(h); }
      end := HandlersParse(mid, services, s.(handlers := s.handlers + [h]), hs[1..], no + |HandlerLines(h)|);
      LinesJoin(st, HandlerLines(h), mid, HandlersLines(hs[1..]), no);
      assert s.handlers + [h] + hs[1..] == s.handlers + hs;
    }
  }

  lemma HandlerParts(h: HandlerDecl)
    requires HandlerDeclOk(h)
    ensures h.actions != [] && h.effects != []
  {
  }

  lemma ServiceParses(st: PState, services: seq<ServiceDecl>, s: ServiceDecl, no: nat, flushed: PState) returns (end: PState)
    requires Nested(st) && FlushHandler(st, no) == Good(flushed) && FlushService(flushed) == PState(services, None, None)
    requires ServiceOk(s)
    ensures ParseLines(st, ServiceLines(s), no) == Good(end) && Completes(end, services, s)
  {
    hide ParseLine;
    hide Render;
    hide HandlerDeclOk;
    var first := Render(ServiceWords(s.name));
    var st1 := PState(services, Some(ServiceDecl(s.name, [], [])), None);
    var st2 := PState(services, Some(ServiceDecl(s.name, s.states, [])), None);
    ServiceLineParses(st, s.name, no, flushed);
    OneLineParses(st, first, st1, no);
    StatesParse(st1, s.states, no + 1);
    assert [] + s.states == s.states && [] + s.handlers == s.handlers;
    LinesJoin(st, [first], st1, StateLines(s.states), no);
    var len := |[first] + StateLines(s.states)|;
    end := HandlersParse(st2, services, ServiceDecl(s.name, s.states, []), s.handlers, no + len);
    LinesJoin(st, [first] + StateLines(s.states), st2, HandlersLines(s.handlers), no);
  }

  lemma {:induction false} ModuleParses(st: PState, services: seq<ServiceDecl>, s: ServiceDecl, more: seq<ServiceDecl>, no: nat)
    returns (end: PState, last: ServiceDecl)
    requires Completes(st, services, s) && forall i :: 0 <= i < |more| ==> ServiceOk(more[i])
    ensures ParseLines(st, ModuleLines(more), no) == Good(end)
    ensures end.services + [last] == services + [s] + more && Completes(end, end.services, last)
    decreases |more|
  {
    hide ParseLine;
    hide ServiceLines;
    hide ServiceOk;
    hide Completes;
    if more == [] {
      end, last := st, s;
      assert services + [s] + more == services + [s];
      CompletesParts(st, services, s, no);
    } else {
      CompletesParts(st, services, s, no);
      var mid := ServiceParses(st, services + [s], more[0], no, PState(services, Some(s), None));
      end, last := ModuleParses(mid, services + [s], more[0], more[1..], no + |ServiceLines(more[0])|);
      LinesJoin(st, ServiceLines(more[0]), mid, ModuleLines(more[1..]), no);
      assert services + [s] + [more[0]] + more[1..] == services + [s] + more;
    }
  }

  lemma CompletesParts(st: PState, services: seq<ServiceDecl>, s: ServiceDecl, no: nat)
    requires Completes(st, services, s)
    ensures Nested(st) && st.services == services && FlushHandler(st, no) == Good(PState(services, Some(s), None))
  {
  }

  // ---- the printed lines are single lines ----

  lemma {:induction false} ActionLinesOne(actions: seq<Action>)
    requires forall i :: 0 <= i < |actions| ==> ActionOk(actions[i])
    ensures forall l :: l in ActionLines(actions) ==> OneLine(l)
  {
    if actions != [] {
      ActionWordsOk(actions[0]);
      LineKind(ActionWords(actions[0]));
      ActionLinesOne(actions[1..]);
    }
  }

  lemma {:induction false} StateLinesOne(states: seq<StateDecl>)
    requires forall i :: 0 <= i < |states| ==> TextOk(states[i].name)
    ensures forall l :: l in StateLines(states) ==> OneLine(l)
  {
    if states != [] {
      Keywords();
      NumbersAreBare(states[0].initial);
      LineKind(StateWords(states[0]));
      StateLinesOne(states[1..]);
    }
  }

  lemma {:induction false} HandlersLinesOne(hs: seq<HandlerDecl>)
    requires forall i :: 0 <= i < |hs| ==> HandlerDeclOk(hs[i])
    ensures forall l :: l in HandlersLines(hs) ==> OneLine(l)
  {
    hide Distinct;
    if hs != [] {
      var h := hs[0];
      assert HandlerDeclOk(h);
      Keywords();
      LineKind(OnWords(h.on));
      EffectWordsOk(h.effects);
      LineKind([Bare("effects")] + EffectWords(h.effects));
      ActionLinesOne(h.actions);
      HandlersLinesOne(hs[1..]);
    }
  }

  lemma {:induction false} ModuleLinesOne(services: seq<ServiceDecl>)
    requires forall i :: 0 <= i < |services| ==> ServiceOk(services[i])
    ensures forall l :: l in ModuleLines(services) ==> OneLine(l)
  {
    hide HandlerDeclOk;
    if services != [] {
      var s := services[0];
      assert ServiceOk(s);
      Keywords();
      LineKind(ServiceWords(s.name));
      StateLinesOne(s.states);
      HandlersLinesOne(s.handlers);
      ModuleLinesOne(services[1..]);
    }
  }

  /** Every module that can be written down is parsed back from its printed form, `if` nested to any depth. */
  lemma ModuleRoundTrip(m: Module)
    requires ModuleOk(m)
    ensures ParseModule(PrintModule(m)) == Good(m)
  {
    hide ParseLine;
    hide ServiceLines;
    hide ServiceOk;
    hide Completes;
    hide Lines;
    hide Unlines;
    var services := m.services;
    assert ServiceOk(services[0]);
    var mid := ServiceParses(INITIAL, [], services[0], 1, INITIAL);
    var end, last := ModuleParses(mid, [], services[0], services[1..], 1 + |ServiceLines(services[0])|);
    LinesJoin(INITIAL, ServiceLines(services[0]), mid, ModuleLines(services[1..]), 1);
    var lines := ModuleLines(services);
    assert lines == ServiceLines(services[0]) + ModuleLines(services[1..]);
    ModuleLinesOne(services);
    LinesRoundTrip(lines);
    CompletesParts(end, end.services, last, |lines| + 1);
    assert [] + [services[0]] + services[1..] == services;
  }

  // ---- what the parser returns can be written down ----

  ghost predicate TokensOk(toks: seq<string>) {
    forall t :: t in toks ==> TextOk(t)
  }

  lemma {:induction false} JoinOk(toks: seq<string>)
    requires toks != [] && TokensOk(toks)
    ensures TextOk(Join(toks))
  {
    assert toks[0] in toks;
    if |toks| > 1 {
      JoinOk(toks[1..]);
    }
  }

  lemma ParsedTargetOk(raw: string, no: nat)
    requires TextOk(raw) && ParseTarget(raw, no).Good?
    ensures TargetOk(ParseTarget(raw, no).value)
  {
  }

  lemma SuffixOk(toks: seq<string>, i: nat)
    requires TokensOk(toks) && i <= |toks|
    ensures TokensOk(toks[i..])
    ensures i < |toks| ==> TextOk(Join(toks[i..]))
  {
    if i < |toks| { JoinOk(toks[i..]); }
  }

  lemma {:induction false} ParsedActionOk(toks: seq<string>, no: nat)
    requires TokensOk(toks) && ParseAction(toks, no).Good?
    ensures ActionOk(ParseAction(toks, no).value)
    decreases |toks|
  {
    hide ParseI64;
    hide ParseU64;
    hide Join;
    hide TextOk;
    hide ParseTarget;
    assert forall i :: 0 <= i < |toks| ==> toks[i] in toks;
    if toks[0] == "log" {
      SuffixOk(toks, 1);
    } else if toks[0] == "timer" {
      ParsedTimerOk(toks, no);
    } else if toks[0] == "send" {
      ParsedSendOk(toks, no);
    } else if toks[0] == "if" {
      SuffixOk(toks, 4);
      ParsedActionOk(toks[4..], no);
    }
  }

  lemma ParsedTimerOk(toks: seq<string>, no: nat)
    requires TokensOk(toks) && ParseTimer(toks, no).Good?
    ensures ActionOk(ParseTimer(toks, no).value)
  {
    hide ParseU64;
    hide Join;
    hide TextOk;
    hide ParseTarget;
    assert forall i :: 0 <= i < |toks| ==> toks[i] in toks;
    if toks[2] == "remote" {
      ParsedTargetOk(toks[3], no);
      SuffixOk(toks, 6);
    } else if toks[2] == "local" {
      SuffixOk(toks, 5);
    } else {
      SuffixOk(toks, 4);
    }
  }

  lemma ParsedSendOk(toks: seq<string>, no: nat)
    requires TokensOk(toks) && ParseSend(toks, no).Good?
    ensures ActionOk(ParseSend(toks, no).value)
  {
    hide Join;
    hide TextOk;
    hide ParseTarget;
    assert forall i :: 0 <= i < |toks| ==> toks[i] in toks;
    if toks[1] == "local" {
      SuffixOk(toks, 4);
    } else {
      ParsedTargetOk(toks[2], no);
      SuffixOk(toks, 5);
    }
  }

  lemma {:induction false} PartsDistinct(out: seq<Effect>, parts: seq<string>, no: nat)
    requires Distinct(out) && AddParts(out, parts, no).Good?
    ensures Distinct(AddParts(out, parts, no).value)
    decreases |parts|
  {
    hide EffectNamed;
    hide Trim;
    if parts != [] { PartsDistinct(AddEffect(out, parts[0], no).value, parts[1..], no); }
  }

  lemma {:induction false} TokensDistinct(out: seq<Effect>, toks: seq<string>, no: nat)
    requires Distinct(out) && AddTokens(out, toks, no).Good?
    ensures Distinct(AddTokens(out, toks, no).value)
    decreases |toks|
  {
    hide AddParts;
    hide SplitOn;
    hide Distinct;
    if toks != [] {
      PartsDistinct(out, SplitOn(toks[0], ','), no);
      TokensDistinct(AddParts(out, SplitOn(toks[0], ','), no).value, toks[1..], no);
    }
  }

  lemma ParsedEffectsOk(line: string, no: nat)
    requires ParseEffects(line, no).Good?
    ensures ParseEffects(line, no).value != [] && Distinct(ParseEffects(line, no).value)
  {
    hide Tokens;
    hide AddTokens;
    TokensDistinct([], Tokens(line, no).value[1..], no);
  }

  ghost predicate UnderWayOk(h: HandlerDecl) {
    TextOk(h.on) && Distinct(h.effects) && forall i :: 0 <= i < |h.actions| ==> ActionOk(h.actions[i])
  }

  ghost predicate StateOk(st: PState) {
    && Nested(st)
    && (forall i :: 0 <= i < |st.services| ==> ServiceOk(st.services[i]))
    && (st.service.Some? ==> ServiceOk(st.service.value))
    && (st.handler.Some? ==> UnderWayOk(st.handler.value))
  }

  lemma FlushOk(st: PState, no: nat)
    requires StateOk(st) && FlushHandler(st, no).Good?
    ensures StateOk(FlushHandler(st, no).value) && FlushHandler(st, no).value.handler == None
    ensures StateOk(FlushService(FlushHandler(st, no).value))
  {
    hide ActionOk;
    hide Distinct;
    hide TextOk;
  }

  lemma LineOk(st: PState, raw: string, no: nat)
    requires StateOk(st) && OneLine(raw) && ParseLine(st, raw, no).Good?
    ensures StateOk(ParseLine(st, raw, no).value)
  {
    hide ActionOk;
    hide Distinct;
    hide ServiceOk;
    hide Tokens;
    hide ParseAction;
    hide ParseEffects;
    hide Trim;
    hide FlushHandler;
    var line := Trim(raw);
    if Tokens(line, no).Good? { TrimmedTokensOk(raw, no); }
    if Ignored(line) {
    } else if StartsWith(line, "service ") {
      FlushOk(st, no);
      NewServiceOk(FlushService(FlushHandler(st, no).value), Tokens(line, no).value[1]);
    } else if StartsWith(line, "state ") {
      MoreStatesOk(st.service.value, ParseState(line, no).value);
    } else if StartsWith(line, "on ") {
      FlushOk(st, no);
      assert Distinct<Effect>([]) by { NoneDistinct(); }
    } else if StartsWith(line, "effects ") {
      ParsedEffectsOk(line, no);
    } else {
      ParsedActionOk(Tokens(line, no).value, no);
    }
  }

  lemma NoneDistinct()
    ensures Distinct<Effect>([])
  {
  }

  lemma NewServiceOk(st: PState, name: string)
    requires StateOk(st) && st.handler == None && TextOk(name)
    ensures StateOk(st.(service := Some(ServiceDecl(name, [], []))))
  {
    hide HandlerDeclOk;
  }

  lemma MoreStatesOk(s: ServiceDecl, d: StateDecl)
    requires ServiceOk(s) && TextOk(d.name)
    ensures ServiceOk(s.(states := s.states + [d]))
  {
    hide HandlerDeclOk;
  }

  lemma TrimmedTokensOk(raw: string, no: nat)
    requires OneLine(raw) && Tokens(Trim(raw), no).Good?
    ensures TokensOk(Tokens(Trim(raw), no).value)
    ensures forall i :: 0 <= i < |Tokens(Trim(raw), no).value| ==> TextOk(Tokens(Trim(raw), no).value[i])
  {
    TrimStartOneLine(raw);
    TrimEndOneLine(TrimStart(raw));
    ScanTokens(Trim(raw), [], false, no);
  }

  lemma {:induction false} LinesOk(st: PState, lines: seq<string>, no: nat)
    requires StateOk(st) && (forall i :: 0 <= i < |lines| ==> OneLine(lines[i])) && ParseLines(st, lines, no).Good?
    ensures StateOk(ParseLines(st, lines, no).value)
    decreases |lines|
  {
    hide ParseLine;
    hide StateOk;
    hide OneLine;
    if lines != [] {
      assert Nested(st) by { StateNested(st); }
      LineOk(st, lines[0], no);
      StateNested(ParseLine(st, lines[0], no).value);
      LinesOk(ParseLine(st, lines[0], no).value, lines[1..], no + 1);
    }
  }

  lemma StateNested(st: PState)
    requires StateOk(st)
    ensures Nested(st)
  {
  }

  /** The parser returns only modules that can be written down. */
  lemma ParsedModuleOk(src: string)
    requires ParseModule(src).Good?
    ensures ModuleOk(ParseModule(src).value)
  {
    hide ParseLines;
    hide SplitOn;
    hide ServiceOk;
    hide FlushHandler;
    var lines := Lines(src);
    PiecesOneLine(src);
    assert forall i :: 0 <= i < |lines| ==> lines[i] == SplitOn(src, NEWLINE)[i];
    LinesOk(INITIAL, lines, 1);
    FlushOk(ParseLines(INITIAL, lines, 1).value, |lines| + 1);
  }

  /** So printing brings every accepted source into a form that parses to the same module: comments,
      spacing and quoting make no difference. */
  lemma PrintingNormalizes(src: string)
    requires ParseModule(src).Good?
    ensures ParseModule(PrintModule(ParseModule(src).value)) == ParseModule(src)
  {
    ParsedModuleOk(src);
    ModuleRoundTrip(ParseModule(src).value);
  }
}
