/** Every way to write an action, an effects line or a module that the parser accepts, and what it is
    taken for; and every complaint and what it is about. */
module Grammar {
  import opened Base
  import opened Events
  import opened Lang
  import opened Decimal
  import opened Numerals
  import opened Lexer
  import opened ParserSpec

  // ---- actions ----

  /** Tokens with single blanks between them. */
  function Spaced(toks: seq<string>): string
    requires toks != []
  {
    if |toks| == 1 then toks[0] else Spaced(toks[..|toks| - 1]) + " " + toks[|toks| - 1]
  }

  predicate SpellsTarget(tok: string, t: RemoteTarget) {
    match t
    case Peers => tok == "peers"
    case Sender => tok == "sender"
    case Node(raw) => tok == "node:" + raw && raw != []
  }

  predicate SpellsSteps(tok: string, steps: U64) {
    IsNumeral(tok, steps) && tok[0] != '-' && steps > 0
  }

  /** These tokens are a way to write the action. */
  predicate Spells(toks: seq<string>, a: Action)
    decreases a
  {
    match a
    case LogAction(template) => |toks| >= 2 && toks[0] == "log" && template == Spaced(toks[1..])
    case SetState(key, value) => |toks| == 3 && toks[0] == "set" && toks[1] == key && IsNumeral(toks[2], value)
    case IncState(key, delta) =>
      || (toks == ["inc", key] && delta == 1)
      || (|toks| == 3 && toks[0] == "inc" && toks[1] == key && IsNumeral(toks[2], delta))
    case TimerLocalAction(steps, service, message, template) =>
      && |toks| >= 5 && toks[0] == "timer" && SpellsSteps(toks[1], steps)
      && (|| (|toks| >= 6 && toks[2] == "local" && toks[3] == service && toks[4] == message && template == Spaced(toks[5..]))
          || (toks[2] != "local" && toks[2] != "remote" && toks[2] == service && toks[3] == message && template == Spaced(toks[4..])))
    case TimerRemoteAction(steps, target, service, message, template) =>
      && |toks| >= 7 && toks[0] == "timer" && SpellsSteps(toks[1], steps) && toks[2] == "remote" && SpellsTarget(toks[3], target)
      && toks[4] == service && toks[5] == message && template == Spaced(toks[6..])
    case SendLocalAction(service, message, template) =>
      |toks| >= 5 && toks[0] == "send" && toks[1] == "local" && toks[2] == service && toks[3] == message && template == Spaced(toks[4..])
    case SendRemoteAction(target, service, message, template) =>
      && |toks| >= 6 && toks[0] == "send" && toks[1] == "remote" && SpellsTarget(toks[2], target)
      && toks[3] == service && toks[4] == message && template == Spaced(toks[5..])
    case IfStateEq(key, value, inner) =>
      && |toks| >= 5 && toks[0] == "if" && toks[1] == key && toks[2] == "==" && IsNumeral(toks[3], value) && Spells(toks[4..], inner)
  }

  lemma {:induction false} JoinSnoc(toks: seq<string>, last: string)
    requires toks != []
    ensures Join(toks + [last]) == Join(toks) + " " + last
  {
    if |toks| == 1 {
      assert (toks + [last])[1..] == [last];
    } else {
      assert (toks + [last])[1..] == toks[1..] + [last];
      JoinSnoc(toks[1..], last);
      assert toks[0] + [BLANK] + (Join(toks[1..]) + " " + last) == toks[0] + [BLANK] + Join(toks[1..]) + " " + last;
    }
  }

  lemma {:induction false} JoinIsSpaced(toks: seq<string>)
    requires toks != []
    ensures Join(toks) == Spaced(toks)
  {
    if |toks| > 1 {
      var front, last := toks[..|toks| - 1], toks[|toks| - 1];
      assert toks == front + [last];
      JoinIsSpaced(front);
      JoinSnoc(front, last);
    }
  }

  lemma TargetSpelled(tok: string, no: nat)
    ensures forall t: RemoteTarget :: ParseTarget(tok, no) == Good(t) <==> SpellsTarget(tok, t)
    ensures ParseTarget(tok, no).Bad? ==> ParseTarget(tok, no) == Bad(no, BadTarget)
  {
    forall t: RemoteTarget ensures ParseTarget(tok, no) == Good(t) <==> SpellsTarget(tok, t) {
      assert "peers"[0] == 'p' && "sender"[0] == 's' && "node:"[0] == 'n';
      if t.Node? && t.raw != [] && tok == "node:" + t.raw {
        assert tok[0] == 'n' && "node:" <= tok && tok[|"node:"|..] == t.raw;
      }
      if StartsWith(tok, "node:") { assert tok == "node:" + tok[|"node:"|..]; }
    }
  }

  lemma StepsSpelled(tok: string)
    ensures forall n: U64 :: ParseU64(tok) == Some(n) && n > 0 <==> SpellsSteps(tok, n)
  {
    hide IsNumeral;
    ParseMeans(tok);
  }

  lemma SimpleSpelled(toks: seq<string>, no: nat, a: Action)
    requires toks != [] && toks[0] in {"log", "set", "inc"}
    ensures ParseAction(toks, no) == Good(a) <==> Spells(toks, a)
  {
    hide IsNumeral;
    hide Join;
    hide Spaced;
    hide ParseI64;
    if |toks| >= 2 { JoinIsSpaced(toks[1..]); }
    if |toks| == 3 { ParseMeans(toks[2]); }
  }

  lemma TimerSpelled(toks: seq<string>, no: nat, a: Action)
    requires toks != [] && toks[0] == "timer"
    ensures ParseAction(toks, no) == Good(a) <==> Spells(toks, a)
  {
    hide IsNumeral;
    hide Join;
    hide Spaced;
    hide ParseU64;
    hide ParseTarget;
    hide SpellsTarget;
    hide SpellsSteps;
    if |toks| >= 5 {
      StepsSpelled(toks[1]);
      TargetSpelled(toks[3], no);
      JoinIsSpaced(toks[4..]);
      if |toks| >= 6 { JoinIsSpaced(toks[5..]); }
      if |toks| >= 7 { JoinIsSpaced(toks[6..]); }
    }
  }

  lemma SendSpelled(toks: seq<string>, no: nat, a: Action)
    requires toks != [] && toks[0] == "send"
    ensures ParseAction(toks, no) == Good(a) <==> Spells(toks, a)
  {
    hide IsNumeral;
    hide Join;
    hide Spaced;
    hide ParseTarget;
    hide SpellsTarget;
    if |toks| >= 5 {
      TargetSpelled(toks[2], no);
      JoinIsSpaced(toks[4..]);
      if |toks| >= 6 { JoinIsSpaced(toks[5..]); }
    }
  }

  /** The parser takes tokens for an action if and only if they are a way to write it. */
  lemma {:induction false} ActionSpelled(toks: seq<string>, no: nat, a: Action)
    ensures ParseAction(toks, no) == Good(a) <==> Spells(toks, a)
    decreases |toks|
  {
    hide IsNumeral;
    hide Spaced;
    hide SpellsTarget;
    hide SpellsSteps;
    if toks != [] {
      if toks[0] in {"log", "set", "inc"} {
        SimpleSpelled(toks, no, a);
      } else if toks[0] == "timer" {
        TimerSpelled(toks, no, a);
      } else if toks[0] == "send" {
        SendSpelled(toks, no, a);
      } else if toks[0] == "if" && |toks| >= 5 {
        hide ParseI64;
        ParseMeans(toks[3]);
        if a.IfStateEq? { ActionSpelled(toks[4..], no, a.thenAction); }
      }
    }
  }

  // ---- the spellings, one by one ----

  /** The same action, or no action either way. */
  ghost predicate SameAction(a: seq<string>, b: seq<string>) {
    forall x: Action, no: nat :: ParseAction(a, no) == Good(x) <==> ParseAction(b, no) == Good(x)
  }

  lemma SameSpelling(a: seq<string>, b: seq<string>)
    requires forall x: Action :: Spells(a, x) <==> Spells(b, x)
    ensures SameAction(a, b)
  {
    hide Spells;
    hide ParseAction;
    forall x: Action, no: nat ensures ParseAction(a, no) == Good(x) <==> ParseAction(b, no) == Good(x) {
      ActionSpelled(a, no, x);
      ActionSpelled(b, no, x);
    }
  }

  /** `inc k` is `inc k 1`. */
  lemma IncByOne(key: string)
    ensures SameAction(["inc", key], ["inc", key, "1"])
  {
    assert Digits("1") && "1"[1..] == [] && Value("1") == 1 by { assert Pow10(0) == 1; }
    assert forall n: int :: IsNumeral("1", n) <==> n == 1;
    hide IsNumeral;
    SameSpelling(["inc", key], ["inc", key, "1"]);
  }

  /** A timer without a scope is local. */
  lemma TimerWithoutScope(steps: string, service: string, rest: seq<string>)
    requires service != "local" && service != "remote" && |rest| >= 2
    ensures SameAction(["timer", steps, service] + rest, ["timer", steps, "local", service] + rest)
  {
    hide SpellsSteps;
    hide Spaced;
    var a, b := ["timer", steps, service] + rest, ["timer", steps, "local", service] + rest;
    assert a[4..] == b[5..] == rest[1..];
    SameSpelling(a, b);
  }

  /** The tokens before a template. */
  predicate BeforeTemplate(pre: seq<string>) {
    || pre == ["log"]
    || (|pre| == 4 && pre[0] == "send" && pre[1] == "local")
    || (|pre| == 5 && pre[0] == "send" && pre[1] == "remote")
    || (|pre| == 4 && pre[0] == "timer" && pre[2] != "local" && pre[2] != "remote")
    || (|pre| == 5 && pre[0] == "timer" && pre[2] == "local")
    || (|pre| == 6 && pre[0] == "timer" && pre[2] == "remote")
  }

  /** A template of several tokens is the one token with single blanks between them. */
  lemma TemplateOfTokens(pre: seq<string>, words: seq<string>)
    requires BeforeTemplate(pre) && words != []
    ensures SameAction(pre + words, pre + [Spaced(words)])
  {
    hide SpellsSteps;
    hide SpellsTarget;
    hide Spaced;
    var a, b := pre + words, pre + [Spaced(words)];
    assert a[|pre|..] == words && b[|pre|..] == [Spaced(words)];
    assert Spaced([Spaced(words)]) == Spaced(words) by { OneSpaced(Spaced(words)); }
    assert forall i :: 0 <= i < |pre| ==> a[i] == pre[i] && b[i] == pre[i];
    SameSpelling(a, b);
  }

  lemma OneSpaced(tok: string)
    ensures Spaced([tok]) == tok
  {
  }

  /** What is said of an action holds behind an `if`. */
  lemma UnderIf(key: string, value: string, a: seq<string>, b: seq<string>)
    requires a != [] && b != [] && SameAction(a, b)
    ensures SameAction(["if", key, "==", value] + a, ["if", key, "==", value] + b)
  {
    hide IsNumeral;
    hide ParseAction;
    var p, q := ["if", key, "==", value] + a, ["if", key, "==", value] + b;
    assert p[4..] == a && q[4..] == b;
    forall x: Action ensures Spells(a, x) <==> Spells(b, x) {
      ActionSpelled(a, 0, x);
      ActionSpelled(b, 0, x);
    }
    SameSpelling(p, q);
  }

  // ---- complaints about actions ----

  ghost predicate NoInteger(tok: string) { forall n: I64 :: !IsNumeral(tok, n) }

  ghost predicate NoTarget(tok: string) { forall t: RemoteTarget :: !SpellsTarget(tok, t) }

  ghost predicate NoSteps(tok: string) { forall n: U64 :: !(IsNumeral(tok, n) && tok[0] != '-') }

  predicate NoWait(tok: string) { IsNumeral(tok, 0) && tok[0] != '-' }

  /** The complaint is the first thing that is wrong with the tokens. */
  ghost predicate Faulty(why: Complaint, toks: seq<string>)
    decreases |toks|
  {
    if toks == [] then why.EmptyAction?
    else if toks[0] == "log" then why.BadLog? && |toks| == 1
    else if toks[0] == "set" then (why.BadSet? && |toks| != 3) || (why.BadInteger? && |toks| == 3 && NoInteger(toks[2]))
    else if toks[0] == "inc" then (why.BadInc? && (|toks| < 2 || |toks| > 3)) || (why.BadInteger? && |toks| == 3 && NoInteger(toks[2]))
    else if toks[0] == "timer" then
      if |toks| < 5 then why.BadTimer?
      else if NoSteps(toks[1]) then why.BadSteps?
      else if NoWait(toks[1]) then why.ZeroSteps?
      else
        || (why.BadRemoteTimer? && toks[2] == "remote" && |toks| < 7)
        || (why.BadTarget? && toks[2] == "remote" && |toks| >= 7 && NoTarget(toks[3]))
        || (why.BadLocalTimer? && toks[2] == "local" && |toks| < 6)
    else if toks[0] == "send" then
      if |toks| < 5 then why.BadSend?
      else
        || (why.UnknownScope? && toks[1] != "local" && toks[1] != "remote")
        || (why.BadRemoteSend? && toks[1] == "remote" && |toks| < 6)
        || (why.BadTarget? && toks[1] == "remote" && |toks| >= 6 && NoTarget(toks[2]))
    else if toks[0] == "if" then
      if |toks| < 5 then why.BadIf?
      else if toks[2] != "==" then why.BadComparison?
      else if NoInteger(toks[3]) then why.BadInteger?
      else Faulty(why, toks[4..])
    else why.UnknownAction?
  }

  lemma NoIntegerMeans(tok: string)
    ensures NoInteger(tok) <==> ParseI64(tok).None?
  {
    hide ParseI64;
    hide IsNumeral;
    ParseMeans(tok);
    if ParseI64(tok).Some? { assert IsNumeral(tok, ParseI64(tok).value); }
  }

  lemma NoTargetMeans(tok: string, no: nat)
    ensures NoTarget(tok) <==> ParseTarget(tok, no) == Bad(no, BadTarget)
    ensures NoTarget(tok) <==> ParseTarget(tok, no).Bad?
  {
    hide ParseTarget;
    hide SpellsTarget;
    TargetSpelled(tok, no);
    if ParseTarget(tok, no).Good? { assert SpellsTarget(tok, ParseTarget(tok, no).value); }
  }

  lemma NoStepsMeans(tok: string)
    ensures NoSteps(tok) <==> ParseU64(tok).None?
    ensures NoWait(tok) <==> ParseU64(tok) == Some(0)
  {
    hide ParseU64;
    hide IsNumeral;
    ParseMeans(tok);
    if ParseU64(tok).Some? { assert IsNumeral(tok, ParseU64(tok).value); }
  }

  lemma SimpleComplaint(toks: seq<string>, no: nat, why: Complaint)
    requires toks == [] || toks[0] !in {"timer", "send", "if"}
    ensures ParseAction(toks, no).Bad? ==> ParseAction(toks, no).line == no
    ensures ParseAction(toks, no) == Bad(no, why) <==> Faulty(why, toks)
  {
    hide ParseI64;
    hide NoInteger;
    hide Join;
    if |toks| == 3 { NoIntegerMeans(toks[2]); }
  }

  lemma TimerComplaint(toks: seq<string>, no: nat, why: Complaint)
    requires toks != [] && toks[0] == "timer"
    ensures ParseAction(toks, no).Bad? ==> ParseAction(toks, no).line == no
    ensures ParseAction(toks, no) == Bad(no, why) <==> Faulty(why, toks)
  {
    hide ParseU64;
    hide ParseTarget;
    hide NoTarget;
    hide NoSteps;
    hide NoWait;
    hide Join;
    if |toks| >= 5 {
      NoStepsMeans(toks[1]);
      NoTargetMeans(toks[3], no);
    }
  }

  lemma SendComplaint(toks: seq<string>, no: nat, why: Complaint)
    requires toks != [] && toks[0] == "send"
    ensures ParseAction(toks, no).Bad? ==> ParseAction(toks, no).line == no
    ensures ParseAction(toks, no) == Bad(no, why) <==> Faulty(why, toks)
  {
    hide ParseTarget;
    hide NoTarget;
    hide Join;
    if |toks| >= 5 { NoTargetMeans(toks[2], no); }
  }

  /** An action line is refused if and only if something is wrong with it, and reported under its own
      number with the first thing that is. */
  lemma {:induction false} ActionComplaint(toks: seq<string>, no: nat, why: Complaint)
    ensures ParseAction(toks, no).Bad? ==> ParseAction(toks, no).line == no
    ensures ParseAction(toks, no) == Bad(no, why) <==> Faulty(why, toks)
    decreases |toks|
  {
    if toks == [] || toks[0] !in {"timer", "send", "if"} {
      SimpleComplaint(toks, no, why);
    } else if toks[0] == "timer" {
      TimerComplaint(toks, no, why);
    } else if toks[0] == "send" {
      SendComplaint(toks, no, why);
    } else {
      hide ParseI64;
      hide NoInteger;
      if |toks| >= 5 {
        NoIntegerMeans(toks[3]);
        ActionComplaint(toks[4..], no, why);
      }
    }
  }

  // ---- effects ----

  /** The names of the effects, and no others. */
  lemma EffectNames(s: string)
    ensures EffectNamed(s) == Some(Effect.Log) <==> s == "log"
    ensures EffectNamed(s) == Some(StateRead) <==> s == "state_read"
    ensures EffectNamed(s) == Some(StateWrite) <==> s == "state_write"
    ensures EffectNamed(s) == Some(SendLocal) <==> s == "send_local"
    ensures EffectNamed(s) == Some(SendRemote) <==> s == "send_remote"
    ensures EffectNamed(s) == Some(TimerLocal) <==> s == "timer_local"
    ensures EffectNamed(s) == Some(TimerRemote) <==> s == "timer_remote"
  {
    assert |"log"| == 3 && |"state_read"| == 10 && |"state_write"| == 11 && |"send_local"| == 10;
    assert |"send_remote"| == 11 && |"timer_local"| == 11 && |"timer_remote"| == 12;
    assert "state_read"[1] == 't' && "send_local"[1] == 'e';
    assert "state_write"[0] == 's' && "send_remote"[0] == 's' && "timer_local"[0] == 't';
    assert "state_write"[1] == 't' && "send_remote"[1] == 'e';
  }

  /** The parts between commas that are not blank, trimmed. */
  function NonBlank(parts: seq<string>): seq<string> {
    if parts == [] then [] else (if Trim(parts[0]) == [] then [] else [Trim(parts[0])]) + NonBlank(parts[1..])
  }

  /** The names in an effects line, whether blanks or commas separate them. */
  function NamesIn(toks: seq<string>): seq<string> {
    if toks == [] then [] else NonBlank(SplitOn(toks[0], ',')) + NamesIn(toks[1..])
  }

  /** The effects so named, each at its first mention; nothing if a name is unknown. */
  function Named(names: seq<string>): Option<seq<Effect>> {
    if names == [] then Some([])
    else
      var n := |names| - 1;
      match Named(names[..n])
      case None => None
      case Some(before) =>
        match EffectNamed(names[n])
        case None => None
        case Some(e) => Some(if e in before then before else before + [e])
  }

  lemma {:induction false} NamedPrefix(names: seq<string>, more: seq<string>)
    requires Named(names).None?
    ensures Named(names + more).None?
    decreases |more|
  {
    if more == [] {
      assert names + more == names;
    } else {
      var n := |more| - 1;
      assert (names + more)[..|names + more| - 1] == names + more[..n];
      NamedPrefix(names, more[..n]);
    }
  }

  lemma NamedSnoc(names: seq<string>, out: seq<Effect>, name: string)
    requires Named(names) == Some(out)
    ensures Named(names + [name]) ==
            match EffectNamed(name)
            case None => None
            case Some(e) => Some(if e in out then out else out + [e])
  {
    hide EffectNamed;
    assert (names + [name])[..|names|] == names;
  }

  lemma {:induction false} PartsNamed(names: seq<string>, out: seq<Effect>, parts: seq<string>, no: nat)
    requires Named(names) == Some(out)
    ensures match Named(names + NonBlank(parts))
            case Some(all) => AddParts(out, parts, no) == Good(all)
            case None => AddParts(out, parts, no) == Bad(no, UnknownEffect)
    decreases |parts|
  {
    hide Trim;
    hide EffectNamed;
    hide Named;
    if parts == [] {
      assert names + [] == names;
    } else {
      var name, rest := Trim(parts[0]), NonBlank(parts[1..]);
      if name == [] {
        assert [] + rest == rest;
        PartsNamed(names, out, parts[1..], no);
      } else {
        assert names + NonBlank(parts) == names + [name] + rest;
        NamedSnoc(names, out, name);
        if EffectNamed(name).Some? {
          PartsNamed(names + [name], Named(names + [name]).value, parts[1..], no);
        } else {
          NamedPrefix(names + [name], rest);
        }
      }
    }
  }

  lemma {:induction false} TokensNamed(names: seq<string>, out: seq<Effect>, toks: seq<string>, no: nat)
    requires Named(names) == Some(out)
    ensures match Named(names + NamesIn(toks))
            case Some(all) => AddTokens(out, toks, no) == Good(all)
            case None => AddTokens(out, toks, no) == Bad(no, UnknownEffect)
    decreases |toks|
  {
    hide AddParts;
    hide SplitOn;
    hide NonBlank;
    hide Named;
    if toks == [] {
      assert names + [] == names;
    } else {
      var first := NonBlank(SplitOn(toks[0], ','));
      PartsNamed(names, out, SplitOn(toks[0], ','), no);
      assert names + NamesIn(toks) == names + first + NamesIn(toks[1..]);
      if Named(names + first).Some? {
        TokensNamed(names + first, Named(names + first).value, toks[1..], no);
      } else {
        NamedPrefix(names + first, NamesIn(toks[1..]));
      }
    }
  }

  /** An effects line stands for the effects it names, in the order of first mention, however blanks and
      commas separate the names; an unknown name, or no name at all, is refused. */
  lemma EffectsSpelled(line: string, no: nat, toks: seq<string>)
    requires Tokens(line, no) == Good(toks)
    ensures ParseEffects(line, no) ==
            if |toks| < 2 then Bad(no, BadEffectsDecl)
            else
              match Named(NamesIn(toks[1..]))
              case None => Bad(no, UnknownEffect)
              case Some(all) => if all == [] then Bad(no, NoEffects) else Good(all)
  {
    hide Tokens;
    hide AddTokens;
    hide NamesIn;
    if |toks| >= 2 {
      TokensNamed([], [], toks[1..], no);
      assert [] + NamesIn(toks[1..]) == NamesIn(toks[1..]);
    }
  }

  lemma {:induction false} NamedMeans(names: seq<string>)
    ensures Named(names).Some? <==> forall s :: s in names ==> EffectNamed(s).Some?
    ensures Named(names).Some? ==>
              && Distinct(Named(names).value)
              && forall e :: e in Named(names).value <==> exists s :: s in names && EffectNamed(s) == Some(e)
  {
    hide EffectNamed;
    if names != [] {
      var n := |names| - 1;
      assert names == names[..n] + [names[n]];
      NamedMeans(names[..n]);
      assert names[n] in names;
    }
  }

  /** Names with commas between them. */
  function Commas(names: seq<string>): string
    requires names != []
  {
    if |names| == 1 then names[0] else names[0] + "," + Commas(names[1..])
  }

  predicate PlainName(s: string) {
    s != [] && ',' !in s && Trim(s) == s
  }

  lemma {:induction false} SplitAtComma(a: string, rest: string)
    requires ',' !in a
    ensures SplitOn(a + "," + rest, ',') == [a] + SplitOn(rest, ',')
  {
    var s := a + "," + rest;
    if a == [] {
      assert s[1..] == rest;
    } else {
      assert s[1..] == a[1..] + "," + rest;
      SplitAtComma(a[1..], rest);
      assert s[0] == a[0] && a[0] in a;
      assert [a[0]] + a[1..] == a;
      assert ([a[1..]] + SplitOn(rest, ','))[1..] == SplitOn(rest, ',');
    }
  }

  lemma {:induction false} NoCommaSplit(s: string)
    requires ',' !in s
    ensures SplitOn(s, ',') == [s]
  {
    if s != [] {
      NoCommaSplit(s[1..]);
      assert s[0] in s && [s[0]] + s[1..] == s;
    }
  }

  lemma {:induction false} CommasSplit(names: seq<string>)
    requires names != [] && forall i :: 0 <= i < |names| ==> PlainName(names[i])
    ensures NonBlank(SplitOn(Commas(names), ',')) == names
  {
    hide Trim;
    assert PlainName(names[0]);
    if |names| == 1 {
      NoCommaSplit(names[0]);
      assert names == [names[0]] && SplitOn(names[0], ',')[1..] == [];
    } else {
      SplitAtComma(names[0], Commas(names[1..]));
      CommasSplit(names[1..]);
      assert ([names[0]] + SplitOn(Commas(names[1..]), ','))[1..] == SplitOn(Commas(names[1..]), ',');
      assert names == [names[0]] + names[1..];
    }
  }

  lemma {:induction false} BlanksSplit(names: seq<string>)
    requires forall i :: 0 <= i < |names| ==> PlainName(names[i])
    ensures NamesIn(names) == names
  {
    hide Trim;
    if names != [] {
      assert PlainName(names[0]);
      NoCommaSplit(names[0]);
      BlanksSplit(names[1..]);
      assert [names[0]][1..] == [] && NonBlank([names[0]]) == [names[0]];
      assert names == [names[0]] + names[1..];
    }
  }

  /** Names separated by commas or by blanks are the same names. */
  lemma CommasOrBlanks(names: seq<string>)
    requires names != [] && forall i :: 0 <= i < |names| ==> PlainName(names[i])
    ensures NamesIn([Commas(names)]) == names == NamesIn(names)
  {
    hide NonBlank;
    CommasSplit(names);
    BlanksSplit(names);
    assert [Commas(names)][1..] == [] && NonBlank(SplitOn(Commas(names), ',')) + [] == names;
  }

  // ---- lines ----

  /** The same outcome, up to the number of the line complained about. */
  predicate SameUpToLine<T(==)>(a: Parsed<T>, b: Parsed<T>) {
    if a.Good? then a == b else b.Bad? && a.why == b.why
  }

  lemma {:induction false} EscapesSame(s: string, cur: string, quoted: bool, i: nat, j: nat)
    ensures SameUpToLine(Scan(s, cur, quoted, i), Scan(s, cur, quoted, j))
    decreases |s|
  {
    if s != [] {
      if quoted {
        if s[0] == QUOTE { EscapesSame(s[1..], cur, false, i, j); }
        else if s[0] == BACKSLASH { if |s| > 1 { EscapesSame(s[2..], cur + [s[1]], true, i, j); } }
        else { EscapesSame(s[1..], cur + [s[0]], true, i, j); }
      } else if s[0] == QUOTE {
        EscapesSame(s[1..], cur, true, i, j);
      } else if IsSpace(s[0]) {
        EscapesSame(s[1..], [], false, i, j);
      } else {
        EscapesSame(s[1..], cur + [s[0]], false, i, j);
      }
    }
  }

  lemma {:induction false} ActionsSame(toks: seq<string>, i: nat, j: nat)
    ensures SameUpToLine(ParseAction(toks, i), ParseAction(toks, j))
    decreases |toks|
  {
    hide ParseI64;
    hide ParseU64;
    hide Join;
    if toks != [] && toks[0] == "if" && |toks| >= 5 { ActionsSame(toks[4..], i, j); }
  }

  lemma {:induction false} PartsSame(out: seq<Effect>, parts: seq<string>, i: nat, j: nat)
    ensures SameUpToLine(AddParts(out, parts, i), AddParts(out, parts, j))
    decreases |parts|
  {
    hide Trim;
    hide EffectNamed;
    if parts != [] && AddEffect(out, parts[0], i).Good? { PartsSame(AddEffect(out, parts[0], i).value, parts[1..], i, j); }
  }

  lemma {:induction false} NamesSame(out: seq<Effect>, toks: seq<string>, i: nat, j: nat)
    ensures SameUpToLine(AddTokens(out, toks, i), AddTokens(out, toks, j))
    decreases |toks|
  {
    hide AddParts;
    hide SplitOn;
    if toks != [] {
      PartsSame(out, SplitOn(toks[0], ','), i, j);
      if AddParts(out, SplitOn(toks[0], ','), i).Good? { NamesSame(AddParts(out, SplitOn(toks[0], ','), i).value, toks[1..], i, j); }
    }
  }

  lemma DeclarationSame(st: PState, line: string, i: nat, j: nat)
    requires Nested(st)
    ensures SameUpToLine(ServiceLine(st, line, i), ServiceLine(st, line, j))
    ensures SameUpToLine(OnLine(st, line, i), OnLine(st, line, j))
  {
    hide Scan;
    EscapesSame(line, [], false, i, j);
  }

  lemma StateSame(st: PState, line: string, i: nat, j: nat)
    requires Nested(st)
    ensures SameUpToLine(StateLine(st, line, i), StateLine(st, line, j))
  {
    hide Scan;
    hide ParseI64;
    EscapesSame(line, [], false, i, j);
  }

  lemma BodySame(st: PState, line: string, i: nat, j: nat)
    requires Nested(st) && st.handler.Some?
    ensures SameUpToLine(EffectsLine(st, line, i), EffectsLine(st, line, j))
    ensures SameUpToLine(ActionLine(st, line, i), ActionLine(st, line, j))
  {
    hide Scan;
    hide ParseAction;
    hide AddTokens;
    EscapesSame(line, [], false, i, j);
    var toks := Tokens(line, i);
    if toks.Good? {
      ActionsSame(toks.value, i, j);
      if |toks.value| >= 1 { NamesSame([], toks.value[1..], i, j); }
    }
  }

  /** The number of a line makes no difference to what it means. */
  lemma LineSame(st: PState, raw: string, i: nat, j: nat)
    requires Nested(st)
    ensures SameUpToLine(ParseLine(st, raw, i), ParseLine(st, raw, j))
  {
    hide ServiceLine;
    hide StateLine;
    hide OnLine;
    hide EffectsLine;
    hide ActionLine;
    hide Trim;
    var line := Trim(raw);
    DeclarationSame(st, line, i, j);
    StateSame(st, line, i, j);
    if st.handler.Some? { BodySame(st, line, i, j); }
  }

  lemma {:induction false} LinesSame(st: PState, lines: seq<string>, i: nat, j: nat)
    requires Nested(st)
    ensures SameUpToLine(ParseLines(st, lines, i), ParseLines(st, lines, j))
    decreases |lines|
  {
    hide ParseLine;
    if lines != [] {
      LineSame(st, lines[0], i, j);
      if ParseLine(st, lines[0], i).Good? { LinesSame(ParseLine(st, lines[0], i).value, lines[1..], i + 1, j + 1); }
    }
  }

  /** A line of nothing but blanks, or with a comment behind them. */
  predicate SaysNothing(raw: string) {
    var line := Trim(raw);
    line == "" || "//" <= line || "#" <= line
  }

  /** Such a line changes nothing but the numbers of the lines after it. */
  lemma {:induction false} EmptyLines(st: PState, before: seq<string>, raw: string, after: seq<string>, no: nat)
    requires Nested(st) && SaysNothing(raw)
    ensures SameUpToLine(ParseLines(st, before + [raw] + after, no), ParseLines(st, before + after, no))
    decreases |before|
  {
    hide Trim;
    if before == [] {
      hide ServiceLine;
      hide StateLine;
      hide OnLine;
      hide EffectsLine;
      hide ActionLine;
      assert (before + [raw] + after)[0] == raw && (before + [raw] + after)[1..] == after && before + after == after;
      assert ParseLine(st, raw, no) == Good(st);
      LinesSame(st, after, no + 1, no);
    } else {
      hide ParseLine;
      assert (before + [raw] + after)[1..] == before[1..] + [raw] + after && (before + after)[1..] == before[1..] + after;
      var first := ParseLine(st, before[0], no);
      if first.Good? { EmptyLines(first.value, before[1..], raw, after, no + 1); }
    }
  }

  predicate Spaces(s: string) {
    forall i :: 0 <= i < |s| ==> IsSpace(s[i])
  }

  lemma {:induction false} TrimsStart(a: string, s: string)
    requires Spaces(a)
    ensures TrimStart(a + s) == TrimStart(s)
  {
    if a == [] {
      assert a + s == s;
    } else {
      assert (a + s)[1..] == a[1..] + s;
      TrimsStart(a[1..], s);
    }
  }

  lemma {:induction false} TrimsEnd(s: string, b: string)
    requires Spaces(b)
    ensures TrimEnd(s + b) == TrimEnd(s)
    decreases |b|
  {
    if b == [] {
      assert s + b == s;
    } else {
      assert (s + b)[..|s + b| - 1] == s + b[..|b| - 1];
      TrimsEnd(s, b[..|b| - 1]);
    }
  }

  lemma {:induction false} TrimStartBefore(s: string, b: string)
    requires !Spaces(s)
    ensures TrimStart(s + b) == TrimStart(s) + b
  {
    if IsSpace(s[0]) {
      assert (s + b)[1..] == s[1..] + b;
      assert !Spaces(s[1..]);
      TrimStartBefore(s[1..], b);
    }
  }

  lemma {:induction false} AllTrimmed(s: string)
    requires Spaces(s)
    ensures TrimStart(s) == []
  {
    if s != [] { AllTrimmed(s[1..]); }
  }

  /** Indentation and blanks at the end of a line make no difference. */
  lemma Indented(st: PState, a: string, line: string, b: string, no: nat)
    requires Nested(st) && Spaces(a) && Spaces(b)
    ensures ParseLine(st, a + line + b, no) == ParseLine(st, line, no)
  {
    hide ServiceLine;
    hide StateLine;
    hide OnLine;
    hide EffectsLine;
    hide ActionLine;
    TrimsStart(a, line + b);
    assert a + line + b == a + (line + b);
    if Spaces(line) {
      assert Spaces(line + b);
      AllTrimmed(line);
      AllTrimmed(line + b);
    } else {
      TrimStartBefore(line, b);
      TrimsEnd(TrimStart(line), b);
    }
  }

  lemma {:induction false} LastPiece(lines: seq<string>, last: string)
    requires OneLine(last) && forall i :: 0 <= i < |lines| ==> OneLine(lines[i])
    ensures SplitOn(Unlines(lines) + last, NEWLINE) == lines + [last]
  {
    if lines == [] {
      OnePiece(last);
      assert Unlines([]) + last == last;
    } else {
      assert Unlines(lines) + last == lines[0] + [NEWLINE] + (Unlines(lines[1..]) + last);
      SplitLine(lines[0], Unlines(lines[1..]) + last);
      LastPiece(lines[1..], last);
      assert lines == [lines[0]] + lines[1..];
    }
  }

  lemma {:induction false} OnePiece(s: string)
    requires OneLine(s)
    ensures SplitOn(s, NEWLINE) == [s]
  {
    if s != [] {
      assert s[0] in s;
      OnePiece(s[1..]);
      assert [s[0]] + s[1..] == s;
    }
  }

  /** The last line needs no line break. */
  lemma LastLineOpen(lines: seq<string>, last: string)
    requires last != [] && OneLine(last) && forall i :: 0 <= i < |lines| ==> OneLine(lines[i])
    ensures Lines(Unlines(lines) + last) == lines + [last] == Lines(Unlines(lines + [last]))
  {
    LastPiece(lines, last);
    LinesRoundTrip(lines + [last]);
  }
}
