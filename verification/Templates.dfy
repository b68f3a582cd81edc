/** Slot templates: the `substitute` scanners of daimon-driver connector.rs and
    daimon-app skills.rs, and their extension to JSON bodies.

    A template means a list of tokens: characters, and `{name}` slots up to the
    first closing brace; an opening brace that is never closed leaves the rest
    dangling. */
module Templates {
  import opened Wrappers
  import opened Text
  import opened Params

  datatype Token = Ch(c: char) | Slot(name: string)

  datatype Parsed = Parsed(tokens: seq<Token>, dangling: Option<string>)

  type Env = map<string, string>

  function Tokenize(t: string): Parsed
    decreases |t|
  {
    if t == "" then Parsed([], None)
    else if t[0] != '{' then Then(Ch(t[0]), Tokenize(t[1..]))
    else
      var k := Find(t[1..], '}');
      if k == |t| - 1 then Parsed([], Some(t[1..]))
      else Then(Slot(t[1..][..k]), Tokenize(t[1..][k + 1..]))
  }

  function Then(tok: Token, p: Parsed): Parsed
  {
    p.(tokens := [tok] + p.tokens)
  }

  function Show(tok: Token): string
  {
    match tok
    case Ch(c) => [c]
    case Slot(n) => "{" + n + "}"
  }

  function ShowAll(tokens: seq<Token>): string
  {
    if tokens == [] then "" else Show(tokens[0]) + ShowAll(tokens[1..])
  }

  function Unparse(p: Parsed): string
  {
    ShowAll(p.tokens) + if p.dangling.Some? then "{" + p.dangling.value else ""
  }

  predicate WellFormedToken(tok: Token)
  {
    match tok
    case Ch(c) => c != '{'
    case Slot(n) => '}' !in n
  }

  predicate WellFormed(p: Parsed)
  {
    && (forall tok :: tok in p.tokens ==> WellFormedToken(tok))
    && (p.dangling.Some? ==> '}' !in p.dangling.value)
  }

  // ----- reading a template off its text, piece by piece ---------------------

  lemma TokenizeChar(c: char, x: string)
    requires c != '{'
    ensures Tokenize([c] + x) == Then(Ch(c), Tokenize(x))
  {
    assert ([c] + x)[1..] == x;
  }

  lemma TokenizeSlot(name: string, x: string)
    requires '}' !in name
    ensures Tokenize("{" + name + "}" + x) == Then(Slot(name), Tokenize(x))
  {
    var t := "{" + name + "}" + x;
    assert t[1..] == name + ['}'] + x;
    FindAt(name, '}', x);
    assert t[1..][..|name|] == name && t[1..][|name| + 1..] == x;
  }

  lemma TokenizeOpen(d: string)
    requires '}' !in d
    ensures Tokenize("{" + d) == Parsed([], Some(d))
  {
    assert ("{" + d)[1..] == d;
  }

  /** Every text reads as exactly one well-formed list of tokens. */
  lemma {:induction false} TokenizeSound(t: string)
    ensures WellFormed(Tokenize(t)) && Unparse(Tokenize(t)) == t
    decreases |t|
  {
    if t == "" {
    } else if t[0] != '{' {
      var x := t[1..];
      assert t == [t[0]] + x;
      TokenizeChar(t[0], x);
      TokenizeSound(x);
      UnparseThen(Ch(t[0]), Tokenize(x));
    } else if '}' in t[1..] {
      var k := Find(t[1..], '}');
      var name, x := t[1..][..k], t[1..][k + 1..];
      SlotShape(t, name, x);
      TokenizeSlot(name, x);
      TokenizeSound(x);
      UnparseThen(Slot(name), Tokenize(x));
    } else {
      assert t == "{" + t[1..];
      TokenizeOpen(t[1..]);
    }
  }

  lemma SlotShape(t: string, name: string, x: string)
    requires t != "" && t[0] == '{' && '}' in t[1..]
    requires name == t[1..][..Find(t[1..], '}')] && x == t[1..][Find(t[1..], '}') + 1..]
    ensures t == "{" + name + "}" + x && '}' !in name
  {
    CloseShape(t[1..], Find(t[1..], '}'), name, x);
    assert t == "{" + t[1..];
  }

  lemma UnparseThen(tok: Token, p: Parsed)
    ensures Unparse(Then(tok, p)) == Show(tok) + Unparse(p)
    ensures WellFormed(Then(tok, p)) <==> WellFormedToken(tok) && WellFormed(p)
  {
    assert Then(tok, p).tokens[1..] == p.tokens;
    assert tok in Then(tok, p).tokens;
    assert forall x :: x in Then(tok, p).tokens <==> x == tok || x in p.tokens;
  }

  lemma {:induction false} TokenizeUnique(p: Parsed)
    requires WellFormed(p)
    ensures Tokenize(Unparse(p)) == p
    decreases |p.tokens|
  {
    if p.tokens == [] {
      if p.dangling.Some? {
        TokenizeOpen(p.dangling.value);
        assert Unparse(p) == "{" + p.dangling.value;
      }
    } else {
      var tok, q := p.tokens[0], p.(tokens := p.tokens[1..]);
      assert p == Then(tok, q);
      UnparseThen(tok, q);
      TokenizeUnique(q);
      match tok
      case Ch(c) => TokenizeChar(c, Unparse(q));
      case Slot(n) => TokenizeSlot(n, Unparse(q));
    }
  }

  // ----- filling ------------------------------------------------------------

  datatype SlotError = Unterminated(rest: string) | Unbound(name: string)

  type Filled = Result<string, SlotError>

  function Prefixed(w: string, r: Filled): Filled
  {
    if r.Ok? then Ok(w + r.value) else r
  }

  lemma PrefixedEmpty(r: Filled)
    ensures Prefixed("", r) == r
  {
    assert r.Ok? ==> "" + r.value == r.value;
  }

  lemma PrefixedTwice(a: string, b: string, r: Filled)
    ensures Prefixed(a, Prefixed(b, r)) == Prefixed(a + b, r)
  {
    assert r.Ok? ==> a + (b + r.value) == a + b + r.value;
  }

  function FillToken(tok: Token, env: Env, rest: Filled): Filled
  {
    match tok
    case Ch(c) => Prefixed([c], rest)
    case Slot(n) => if n in env then Prefixed(env[n], rest) else Err(Unbound(n))
  }

  /** Left to right: the first slot without a value is the error; a dangling brace
      is one only when everything before it could be filled. */
  function Fill(p: Parsed, env: Env): Filled
    decreases |p.tokens|
  {
    if p.tokens != [] then FillToken(p.tokens[0], env, Fill(p.(tokens := p.tokens[1..]), env))
    else if p.dangling.Some? then Err(Unterminated(p.dangling.value))
    else Ok("")
  }

  /** The meaning of substitution: parse, then fill; values are never looked into. */
  function Expand(t: string, env: Env): Filled
  {
    Fill(Tokenize(t), env)
  }

  predicate AllBound(tokens: seq<Token>, env: Env)
  {
    forall tok :: tok in tokens && tok.Slot? ==> tok.name in env
  }

  function Render(tokens: seq<Token>, env: Env): string
    requires AllBound(tokens, env)
  {
    if tokens == [] then ""
    else (match tokens[0] case Ch(c) => [c] case Slot(n) => env[n]) + Render(tokens[1..], env)
  }

  /** Substitution succeeds exactly when every brace is closed and every slot is
      bound, and then yields the literals with the slots replaced. */
  lemma {:induction false} FillSucceedsIff(p: Parsed, env: Env)
    ensures Fill(p, env).Ok? <==> p.dangling.None? && AllBound(p.tokens, env)
    ensures Fill(p, env).Ok? ==> Fill(p, env).value == Render(p.tokens, env)
    decreases |p.tokens|
  {
    if p.tokens != [] {
      FillSucceedsIff(p.(tokens := p.tokens[1..]), env);
      assert forall x :: x in p.tokens <==> x == p.tokens[0] || x in p.tokens[1..];
      assert p.tokens[0] in p.tokens;
    }
  }

  lemma FillThen(tok: Token, p: Parsed, env: Env)
    ensures Fill(Then(tok, p), env) == FillToken(tok, env, Fill(p, env))
  {
    assert Then(tok, p).(tokens := Then(tok, p).tokens[1..]) == p;
  }

  lemma {:induction false} ExpandLiteral(lit: string, x: string, env: Env)
    requires '{' !in lit
    ensures Expand(lit + x, env) == Prefixed(lit, Expand(x, env))
  {
    if lit == "" {
      assert lit + x == x;
      PrefixedEmpty(Expand(x, env));
    } else {
      var tail := lit[1..];
      assert lit == [lit[0]] + tail && lit + x == [lit[0]] + (tail + x);
      TokenizeChar(lit[0], tail + x);
      FillThen(Ch(lit[0]), Tokenize(tail + x), env);
      ExpandLiteral(tail, x, env);
      PrefixedTwice([lit[0]], tail, Expand(x, env));
    }
  }

  lemma ExpandPlain(lit: string, env: Env)
    requires '{' !in lit
    ensures Expand(lit, env) == Ok(lit)
  {
    ExpandLiteral(lit, "", env);
    assert lit + "" == lit && Expand("", env) == Ok("");
  }

  lemma ExpandSlot(name: string, x: string, env: Env)
    requires '}' !in name
    ensures Expand("{" + name + "}" + x, env) == FillToken(Slot(name), env, Expand(x, env))
  {
    TokenizeSlot(name, x);
    FillThen(Slot(name), Tokenize(x), env);
  }

  // ----- the two scanners ---------------------------------------------------

  /** What one turn of either loop makes of a literal and the slot behind it. */
  lemma ScanSlot(out: string, rest: string, lit: string, slot: string, name: string, x: string, env: Env)
    requires '{' !in lit && '}' !in name && rest == lit + slot && slot == "{" + name + "}" + x
    ensures Prefixed(out, Expand(rest, env)) ==
            if name in env then Prefixed(out + lit + env[name], Expand(x, env)) else Err(Unbound(name))
  {
    ExpandLiteral(lit, slot, env);
    ExpandSlot(name, x, env);
    PrefixedTwice(out, lit, Expand(slot, env));
    if name in env {
      PrefixedTwice(out + lit, env[name], Expand(x, env));
    }
  }

  lemma ScanOpen(out: string, lit: string, after: string, env: Env)
    requires '{' !in lit && '}' !in after
    ensures Prefixed(out, Expand(lit + ("{" + after), env)) == Err(Unterminated(after))
  {
    ExpandLiteral(lit, "{" + after, env);
    TokenizeOpen(after);
  }

  /** How a text with an opening brace falls apart. */
  lemma OpenShape(rest: string, open: nat, lit: string, after: string)
    requires open < |rest| && rest[open] == '{' && lit == rest[..open] && after == rest[open + 1..]
    ensures rest == lit + ("{" + after)
  {
  }

  lemma CloseShape(after: string, close: nat, name: string, x: string)
    requires close < |after| && after[close] == '}' && name == after[..close] && x == after[close + 1..]
    ensures "{" + after == "{" + name + "}" + x
  {
    assert after == name + "}" + x;
  }

  lemma ScanUnterminated(out: string, rest: string, open: nat, env: Env)
    requires open < |rest| && rest[open] == '{' && '{' !in rest[..open] && '}' !in rest[open + 1..]
    ensures Prefixed(out, Expand(rest, env)) == Err(Unterminated(rest[open + 1..]))
  {
    OpenShape(rest, open, rest[..open], rest[open + 1..]);
    ScanOpen(out, rest[..open], rest[open + 1..], env);
  }

  lemma ScanTurn(out: string, rest: string, open: nat, lit: string, after: string, close: nat, name: string, x: string,
                 env: Env)
    requires open < |rest| && rest[open] == '{' && lit == rest[..open] && after == rest[open + 1..] && '{' !in lit
    requires close < |after| && after[close] == '}' && name == after[..close] && x == after[close + 1..] && '}' !in name
    ensures Prefixed(out, Expand(rest, env)) ==
            if name in env then Prefixed(out + lit + env[name], Expand(x, env)) else Err(Unbound(name))
  {
    OpenShape(rest, open, lit, after);
    CloseShape(after, close, name, x);
    ScanSlot(out, rest, lit, "{" + after, name, x, env);
  }

  datatype ConnectorError =
    | UnknownCapability(name: string)
    | MissingParam(capability: string, param: string)
    | BadValue(param: string, source: ParamError)
    | BadProfile(capability: string)
    | BadTarget(target: string)

  function Reported(e: SlotError, capability: string): ConnectorError
  {
    match e
    case Unterminated(_) => MissingParam(capability, "<unterminated slot>")
    case Unbound(n) => MissingParam(capability, n)
  }

  /** The connector's scanner. */
  method ConnectorSubstitute(template: string, capability: string, validated: Env)
    returns (r: Result<string, ConnectorError>)
    ensures r.Ok? <==> Expand(template, validated).Ok?
    ensures r.Ok? ==> r.value == Expand(template, validated).value
    ensures r.Err? ==> r.error == Reported(Expand(template, validated).error, capability)
  {
    var out, rest := "", template;
    PrefixedEmpty(Expand(template, validated));
    while Find(rest, '{') < |rest|
      invariant Expand(template, validated) == Prefixed(out, Expand(rest, validated))
      decreases |rest|
    {
      var open := Find(rest, '{');
      var lit, after := rest[..open], rest[open + 1..];
      var close := Find(after, '}');
      if close == |after| {
        ScanUnterminated(out, rest, open, validated);
        return Err(MissingParam(capability, "<unterminated slot>"));
      }
      var name := after[..close];
      ScanTurn(out, rest, open, lit, after, close, name, after[close + 1..], validated);
      if name !in validated {
        return Err(MissingParam(capability, name));
      }
      out := out + lit + validated[name];
      rest := after[close + 1..];
    }
    ExpandPlain(rest, validated);
    return Ok(out + rest);
  }

  datatype SkillError = UndeclaredSlot(skill: string, step: nat, param: string)

  /** The skill runner's copy; it reports the whole tail of an unclosed slot. */
  method SkillSubstitute(template: string, skill: string, step: nat, validated: Env)
    returns (r: Result<string, SkillError>)
    ensures r.Ok? <==> Expand(template, validated).Ok?
    ensures r.Ok? ==> r.value == Expand(template, validated).value
    ensures r.Err? ==>
              r.error == UndeclaredSlot(skill, step,
                match Expand(template, validated).error
                case Unterminated(rest) => rest
                case Unbound(n) => n)
  {
    var out, rest := "", template;
    PrefixedEmpty(Expand(template, validated));
    while Find(rest, '{') < |rest|
      invariant Expand(template, validated) == Prefixed(out, Expand(rest, validated))
      decreases |rest|
    {
      var open := Find(rest, '{');
      var lit, after := rest[..open], rest[open + 1..];
      var close := Find(after, '}');
      if close == |after| {
        ScanUnterminated(out, rest, open, validated);
        return Err(UndeclaredSlot(skill, step, after));
      }
      var name := after[..close];
      ScanTurn(out, rest, open, lit, after, close, name, after[close + 1..], validated);
      if name !in validated {
        return Err(UndeclaredSlot(skill, step, name));
      }
      out := out + lit + validated[name];
      rest := after[close + 1..];
    }
    ExpandPlain(rest, validated);
    return Ok(out + rest);
  }

  // ----- laws ---------------------------------------------------------------

  /** Substitution distributes over concatenation after a complete template. */
  lemma {:induction false} ExpandConcat(ts: seq<Token>, b: string, env: Env)
    requires WellFormed(Parsed(ts, None))
    ensures Expand(ShowAll(ts) + b, env) == Both(Expand(ShowAll(ts), env), Expand(b, env))
  {
    if ts == [] {
      assert "" + b == b;
      PrefixedEmpty(Expand(b, env));
    } else {
      var tok, x := ts[0], ShowAll(ts[1..]);
      assert WellFormedToken(tok) && forall y :: y in ts[1..] ==> y in ts;
      ExpandConcat(ts[1..], b, env);
      ExpandTokenConcat(tok, x, b, env);
    }
  }

  lemma ExpandTokenConcat(tok: Token, x: string, b: string, env: Env)
    requires WellFormedToken(tok) && Expand(x + b, env) == Both(Expand(x, env), Expand(b, env))
    ensures Expand(Show(tok) + x + b, env) == Both(Expand(Show(tok) + x, env), Expand(b, env))
  {
    Reassociate(Show(tok), x, b);
    ExpandToken(tok, x, env);
    ExpandToken(tok, x + b, env);
    FillTokenThen(tok, env, Expand(x, env), Expand(b, env));
  }

  function Both(a: Filled, b: Filled): Filled
  {
    if a.Ok? then Prefixed(a.value, b) else a
  }

  lemma FillTokenThen(tok: Token, env: Env, a: Filled, b: Filled)
    ensures FillToken(tok, env, Both(a, b)) == Both(FillToken(tok, env, a), b)
  {
    if a.Ok? {
      match tok
      case Ch(c) => PrefixedTwice([c], a.value, b);
      case Slot(n) => if n in env { PrefixedTwice(env[n], a.value, b); }
    }
  }

  lemma ExpandToken(tok: Token, x: string, env: Env)
    requires WellFormedToken(tok)
    ensures Expand(Show(tok) + x, env) == FillToken(tok, env, Expand(x, env))
  {
    match tok
    case Ch(c) =>
      TokenizeChar(c, x);
      FillThen(tok, Tokenize(x), env);
    case Slot(n) => ExpandSlot(n, x, env);
  }

  /** Values without an opening brace give a result without one. */
  lemma {:induction false} NoOpenBrace(p: Parsed, env: Env)
    requires WellFormed(p) && Fill(p, env).Ok?
    requires forall n :: n in env ==> '{' !in env[n]
    ensures '{' !in Fill(p, env).value
    decreases |p.tokens|
  {
    if p.tokens != [] {
      var q := p.(tokens := p.tokens[1..]);
      assert WellFormedToken(p.tokens[0]) && forall x :: x in q.tokens ==> x in p.tokens;
      NoOpenBrace(q, env);
    }
  }

  // ----- path segments ------------------------------------------------------

  /** No value that a slot of this template uses contains a slash. */
  predicate SlashFree(tokens: seq<Token>, env: Env)
    requires AllBound(tokens, env)
  {
    forall tok :: tok in tokens && tok.Slot? ==> '/' !in env[tok.name]
  }

  /** The template's segments: its tokens cut at the slashes outside slots. */
  function Segments(tokens: seq<Token>): seq<seq<Token>>
  {
    Split(tokens, Ch('/'))
  }

  /** The segments of the text are the segments of the template, each filled. */
  predicate SegmentWise(tokens: seq<Token>, out: string, env: Env)
  {
    var ts, os := Segments(tokens), Split(out, '/');
    |ts| == |os| && forall i :: 0 <= i < |ts| ==> AllBound(ts[i], env) && os[i] == Render(ts[i], env)
  }

  function TokenText(tok: Token, env: Env): string
    requires AllBound([tok], env)
  {
    match tok
    case Ch(c) => [c]
    case Slot(n) => assert tok in [tok]; env[n]
  }

  lemma {:induction false} SegmentsOf(tokens: seq<Token>, env: Env)
    requires AllBound(tokens, env) && SlashFree(tokens, env)
    ensures SegmentWise(tokens, Render(tokens, env), env)
  {
    if tokens != [] {
      var tok, rest := tokens[0], tokens[1..];
      assert tok in tokens && forall x :: x in rest ==> x in tokens;
      SegmentsOf(rest, env);
      assert tokens == [tok] + rest;
      if tok == Ch('/') {
        SlashFirst(rest, Render(rest, env), env);
      } else {
        PrependFirst(tok, rest, Render(rest, env), env);
      }
    }
  }

  lemma SlashFirst(rest: seq<Token>, o: string, env: Env)
    requires SegmentWise(rest, o, env)
    ensures SegmentWise([Ch('/')] + rest, "/" + o, env)
  {
    SplitCons([], Ch('/'), rest);
    SplitCons("", '/', o);
    assert [] + [Ch('/')] + rest == [Ch('/')] + rest && "" + ['/'] + o == "/" + o;
  }

  lemma RenderCons(tok: Token, ts: seq<Token>, env: Env)
    requires AllBound([tok], env) && AllBound(ts, env)
    ensures AllBound([tok] + ts, env) && Render([tok] + ts, env) == TokenText(tok, env) + Render(ts, env)
  {
    assert tok in [tok];
    assert ([tok] + ts)[1..] == ts;
  }

  lemma PrependFirst(tok: Token, rest: seq<Token>, o: string, env: Env)
    requires SegmentWise(rest, o, env) && tok != Ch('/') && AllBound([tok], env) && '/' !in TokenText(tok, env)
    ensures SegmentWise([tok] + rest, TokenText(tok, env) + o, env)
  {
    SplitPrepend([tok], rest, Ch('/'));
    SplitPrepend(TokenText(tok, env), o, '/');
    RenderCons(tok, Segments(rest)[0], env);
    var ts, os := Segments([tok] + rest), Split(TokenText(tok, env) + o, '/');
    forall i | 0 <= i < |ts|
      ensures AllBound(ts[i], env) && os[i] == Render(ts[i], env)
    {
      if i > 0 {
        assert ts[i] == Segments(rest)[i] && os[i] == Split(o, '/')[i];
      }
    }
  }

  lemma {:induction false} SlashCount(tokens: seq<Token>, env: Env)
    requires AllBound(tokens, env)
    ensures Count(Render(tokens, env), '/') >= Count(tokens, Ch('/'))
    ensures Count(Render(tokens, env), '/') == Count(tokens, Ch('/')) <==> SlashFree(tokens, env)
  {
    if tokens != [] {
      var tok, rest := tokens[0], tokens[1..];
      assert tok in tokens && forall x :: x in tokens <==> x == tok || x in rest;
      SlashCount(rest, env);
      var w := match tok case Ch(c) => [c] case Slot(n) => env[n];
      CountConcat(w, Render(rest, env), '/');
      CountZero(w, '/');
    }
  }

  /** A rendered path keeps the template's segments one for one, each filled on its
      own, exactly when no value it uses contains a slash. */
  lemma PathShapeKeptIff(t: string, env: Env)
    requires Expand(t, env).Ok?
    ensures AllBound(Tokenize(t).tokens, env)
    ensures SlashFree(Tokenize(t).tokens, env) <==> SegmentWise(Tokenize(t).tokens, Expand(t, env).value, env)
    ensures SlashFree(Tokenize(t).tokens, env) <==> |Split(Expand(t, env).value, '/')| == |Segments(Tokenize(t).tokens)|
  {
    var tokens := Tokenize(t).tokens;
    FillSucceedsIff(Tokenize(t), env);
    SlashCount(tokens, env);
    SplitCount(tokens, Ch('/'));
    SplitCount(Expand(t, env).value, '/');
    if SlashFree(tokens, env) {
      SegmentsOf(tokens, env);
    }
  }

  /** A run of tokens without slots renders to its own text. */
  lemma {:induction false} LiteralIntact(tokens: seq<Token>, env: Env)
    requires forall tok :: tok in tokens ==> tok.Ch?
    ensures AllBound(tokens, env) && Render(tokens, env) == ShowAll(tokens)
  {
    if tokens != [] {
      assert tokens[0] in tokens;
      LiteralIntact(tokens[1..], env);
    }
  }
}
