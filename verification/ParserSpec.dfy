/** The line parser of the service language, as functions. */
module ParserSpec {
  import opened Base
  import opened Events
  import opened Lang
  import opened Decimal
  import opened Lexer

  /** Finished services, and the service and handler under way. */
  datatype PState = PState(services: seq<ServiceDecl>, service: Option<ServiceDecl>, handler: Option<HandlerDecl>)

  predicate Nested(st: PState) {
    st.handler.Some? ==> st.service.Some?
  }

  const INITIAL := PState([], None, None)

  // ---- pieces of lines ----

  function Join(toks: seq<string>): string {
    if toks == [] then []
    else if |toks| == 1 then toks[0]
    else toks[0] + [BLANK] + Join(toks[1..])
  }

  function ParseInteger(s: string, no: nat, why: Complaint): Parsed<I64> {
    match ParseI64(s)
    case None => Bad(no, why)
    case Some(n) => Good(n)
  }

  function ParseTarget(raw: string, no: nat): Parsed<RemoteTarget> {
    if raw == "peers" then Good(Peers)
    else if raw == "sender" then Good(Sender)
    else if StartsWith(raw, "node:") && |raw| > |"node:"| then Good(Node(raw[|"node:"|..]))
    else Bad(no, BadTarget)
  }

  function ParseLog(toks: seq<string>, no: nat): Parsed<Action> {
    if |toks| < 2 then Bad(no, BadLog) else Good(LogAction(Join(toks[1..])))
  }

  function ParseSet(toks: seq<string>, no: nat): Parsed<Action> {
    if |toks| != 3 then Bad(no, BadSet)
    else
      var value :- ParseInteger(toks[2], no, BadInteger);
      Good(SetState(toks[1], value))
  }

  function ParseInc(toks: seq<string>, no: nat): Parsed<Action> {
    if |toks| < 2 || |toks| > 3 then Bad(no, BadInc)
    else if |toks| == 2 then Good(IncState(toks[1], 1))
    else
      var delta :- ParseInteger(toks[2], no, BadInteger);
      Good(IncState(toks[1], delta))
  }

  function ParseTimer(toks: seq<string>, no: nat): Parsed<Action> {
    if |toks| < 5 then Bad(no, BadTimer)
    else
      match ParseU64(toks[1])
      case None => Bad(no, BadSteps)
      case Some(steps) =>
        if steps == 0 then Bad(no, ZeroSteps)
        else if toks[2] == "remote" then
          if |toks| < 7 then Bad(no, BadRemoteTimer)
          else
            var target :- ParseTarget(toks[3], no);
            Good(TimerRemoteAction(steps, target, toks[4], toks[5], Join(toks[6..])))
        else if toks[2] == "local" then
          if |toks| < 6 then Bad(no, BadLocalTimer)
          else Good(TimerLocalAction(steps, toks[3], toks[4], Join(toks[5..])))
        else Good(TimerLocalAction(steps, toks[2], toks[3], Join(toks[4..])))
  }

  function ParseSend(toks: seq<string>, no: nat): Parsed<Action> {
    if |toks| < 5 then Bad(no, BadSend)
    else if toks[1] == "local" then Good(SendLocalAction(toks[2], toks[3], Join(toks[4..])))
    else if toks[1] == "remote" then
      if |toks| < 6 then Bad(no, BadRemoteSend)
      else
        var target :- ParseTarget(toks[2], no);
        Good(SendRemoteAction(target, toks[3], toks[4], Join(toks[5..])))
    else Bad(no, UnknownScope)
  }

  /** `parse_action_tokens` and `parse_if_state_eq`: an `if` takes four tokens, the rest is its action.
      The source counts the nesting along but compares the count only where it is still zero. */
  function ParseAction(toks: seq<string>, no: nat): Parsed<Action>
    decreases |toks|
  {
    if toks == [] then Bad(no, EmptyAction)
    else if toks[0] == "log" then ParseLog(toks, no)
    else if toks[0] == "set" then ParseSet(toks, no)
    else if toks[0] == "inc" then ParseInc(toks, no)
    else if toks[0] == "timer" then ParseTimer(toks, no)
    else if toks[0] == "send" then ParseSend(toks, no)
    else if toks[0] == "if" then
      if |toks| < 5 then Bad(no, BadIf)
      else if toks[2] != "==" then Bad(no, BadComparison)
      else
        var value :- ParseInteger(toks[3], no, BadInteger);
        var inner :- ParseAction(toks[4..], no);
        Good(IfStateEq(toks[1], value, inner))
    else Bad(no, UnknownAction)
  }

  // ---- declarations ----

  function EffectName(e: Effect): string {
    match e
    case Log => "log"
    case StateRead => "state_read"
    case StateWrite => "state_write"
    case SendLocal => "send_local"
    case SendRemote => "send_remote"
    case TimerLocal => "timer_local"
    case TimerRemote => "timer_remote"
  }

  function EffectNamed(name: string): Option<Effect> {
    if name == "log" then Some(Effect.Log)
    else if name == "state_read" then Some(StateRead)
    else if name == "state_write" then Some(StateWrite)
    else if name == "send_local" then Some(SendLocal)
    else if name == "send_remote" then Some(SendRemote)
    else if name == "timer_local" then Some(TimerLocal)
    else if name == "timer_remote" then Some(TimerRemote)
    else None
  }

  /** One comma-separated part of an effects line: blank parts and repeated effects add nothing. */
  function AddEffect(out: seq<Effect>, part: string, no: nat): Parsed<seq<Effect>> {
    var name := Trim(part);
    if name == [] then Good(out)
    else
      match EffectNamed(name)
      case None => Bad(no, UnknownEffect)
      case Some(e) => Good(if e in out then out else out + [e])
  }

  function AddParts(out: seq<Effect>, parts: seq<string>, no: nat): Parsed<seq<Effect>>
    decreases |parts|
  {
    if parts == [] then Good(out)
    else
      var more :- AddEffect(out, parts[0], no);
      AddParts(more, parts[1..], no)
  }

  function AddTokens(out: seq<Effect>, toks: seq<string>, no: nat): Parsed<seq<Effect>>
    decreases |toks|
  {
    if toks == [] then Good(out)
    else
      var more :- AddParts(out, SplitOn(toks[0], ','), no);
      AddTokens(more, toks[1..], no)
  }

  function ParseEffects(line: string, no: nat): Parsed<seq<Effect>> {
    var toks :- Tokens(line, no);
    if |toks| < 2 then Bad(no, BadEffectsDecl)
    else
      var out :- AddTokens([], toks[1..], no);
      if out == [] then Bad(no, NoEffects) else Good(out)
  }

  function ParseState(line: string, no: nat): Parsed<StateDecl> {
    var toks :- Tokens(line, no);
    if |toks| != 4 || toks[2] != "=" then Bad(no, BadStateDecl)
    else
      var initial :- ParseInteger(toks[3], no, BadStateValue);
      Good(StateDecl(toks[1], initial))
  }

  // ---- the state machine ----

  /** Finishes the handler under way, which has to have actions and effects. */
  function FlushHandler(st: PState, no: nat): (r: Parsed<PState>)
    requires Nested(st)
    ensures r.Good? ==> r.value.handler == None && r.value.services == st.services && (r.value.service.Some? <==> st.service.Some?)
  {
    match st.handler
    case None => Good(st)
    case Some(h) =>
      if h.actions == [] then Bad(no, NoActions)
      else if h.effects == [] then Bad(no, MissingEffects)
      else
        var s := st.service.value;
        Good(st.(handler := None, service := Some(s.(handlers := s.handlers + [h]))))
  }

  function FlushService(st: PState): PState {
    match st.service
    case None => st
    case Some(s) => st.(service := None, services := st.services + [s])
  }

  function ServiceLine(st: PState, line: string, no: nat): (r: Parsed<PState>)
    requires Nested(st)
    ensures r.Good? ==> Nested(r.value)
  {
    var flushed :- FlushHandler(st, no);
    var toks :- Tokens(line, no);
    if |toks| != 2 then Bad(no, BadServiceDecl)
    else Good(FlushService(flushed).(service := Some(ServiceDecl(toks[1], [], []))))
  }

  function StateLine(st: PState, line: string, no: nat): (r: Parsed<PState>)
    requires Nested(st)
    ensures r.Good? ==> Nested(r.value)
  {
    if st.service == None then Bad(no, OutsideService)
    else if st.handler != None then Bad(no, StateAfterHandler)
    else
      var decl :- ParseState(line, no);
      var s := st.service.value;
      Good(st.(service := Some(s.(states := s.states + [decl]))))
  }

  function OnLine(st: PState, line: string, no: nat): (r: Parsed<PState>)
    requires Nested(st)
    ensures r.Good? ==> Nested(r.value)
  {
    if st.service == None then Bad(no, OutsideService)
    else
      var flushed :- FlushHandler(st, no);
      var toks :- Tokens(line, no);
      if |toks| != 2 then Bad(no, BadHandlerDecl)
      else Good(flushed.(handler := Some(HandlerDecl(toks[1], [], []))))
  }

  function EffectsLine(st: PState, line: string, no: nat): (r: Parsed<PState>)
    requires Nested(st) && st.handler.Some?
    ensures r.Good? ==> Nested(r.value)
  {
    var h := st.handler.value;
    if h.effects != [] then Bad(no, DuplicateEffects)
    else if h.actions != [] then Bad(no, EffectsAfterActions)
    else
      var effects :- ParseEffects(line, no);
      Good(st.(handler := Some(h.(effects := effects))))
  }

  function ActionLine(st: PState, line: string, no: nat): (r: Parsed<PState>)
    requires Nested(st) && st.handler.Some?
    ensures r.Good? ==> Nested(r.value)
  {
    var toks :- Tokens(line, no);
    var a :- ParseAction(toks, no);
    var h := st.handler.value;
    Good(st.(handler := Some(h.(actions := h.actions + [a]))))
  }

  /** A blank line or a comment. */
  predicate Ignored(line: string) {
    line == [] || StartsWith(line, "//") || StartsWith(line, "#")
  }

  function ParseLine(st: PState, raw: string, no: nat): (r: Parsed<PState>)
    requires Nested(st)
    ensures r.Good? ==> Nested(r.value)
  {
    var line := Trim(raw);
    if Ignored(line) then Good(st)
    else if StartsWith(line, "service ") then ServiceLine(st, line, no)
    else if StartsWith(line, "state ") then StateLine(st, line, no)
    else if StartsWith(line, "on ") then OnLine(st, line, no)
    else if st.service == None then Bad(no, OutsideService)
    else if st.handler == None then Bad(no, OutsideHandler)
    else if StartsWith(line, "effects ") then EffectsLine(st, line, no)
    else ActionLine(st, line, no)
  }

  /** The state after some lines, the first of which has number `no`. */
  function ParseLines(st: PState, lines: seq<string>, no: nat): (r: Parsed<PState>)
    requires Nested(st)
    ensures r.Good? ==> Nested(r.value)
    decreases |lines|
  {
    if lines == [] then Good(st)
    else
      var next :- ParseLine(st, lines[0], no);
      ParseLines(next, lines[1..], no + 1)
  }

  /** `parse_module`. */
  function ParseModule(src: string): Parsed<Module> {
    var lines := Lines(src);
    var st :- ParseLines(INITIAL, lines, 1);
    var flushed :- FlushHandler(st, |lines| + 1);
    var services := FlushService(flushed).services;
    if services == [] then Bad(1, NoServices) else Good(Module(services))
  }
}
