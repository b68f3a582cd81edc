/** Capabilities and the server-side read disposition (daimon-core capability.rs). */
module Capabilities {
  import opened Wrappers
  import opened Text
  import opened Json

  datatype Capability = Capability(
    name: string,
    version: string,
    description: Option<string>,
    schema: Option<Json>,
    compensating: Option<string>,
    irreversible: bool)

  const READ_MARKERS: seq<string> := [
    "_info", "_list", "list_", ".list", "_addresses", "ip_addresses",
    "_status", ".status", ".read", "_read", "read_state", "describe",
    "diagnose", ".get", "_get", "_show", "_print"]

  predicate NameIsRead(name: string)
  {
    exists m :: m in READ_MARKERS && Contains(name, m)
  }

  /** Only such a capability may skip policy and approval. */
  predicate IsRead(c: Capability)
  {
    c.compensating.None? && !c.irreversible && NameIsRead(c.name)
  }

  /** A name reads as a read when one of the markers stands somewhere in it. */
  lemma NameIsReadIff(name: string)
    ensures NameIsRead(name) <==>
            exists a: string, m: string, b: string :: m in READ_MARKERS && name == a + m + b
  {
    if NameIsRead(name) {
      var m :| m in READ_MARKERS && Contains(name, m);
      var i: nat :| i <= |name| && OccursAt(name, m, i);
      assert name == name[..i] + m + name[i + |m|..];
    }
    if a: string, m: string, b: string :| m in READ_MARKERS && name == a + m + b {
      assert OccursAt(name, m, |a|);
    }
  }

  function ReadOnly(name: string, version: string): Capability
  {
    Capability(name, version, None, None, None, false)
  }
}

/** The policy engine (daimon-guard policy.rs): ordered rules, first match wins,
    deny when nothing matches. */
module Policy {
  import opened Wrappers
  import opened Text

  datatype Decision = Allow | Deny | RequireApproval

  datatype Rule = Rule(pattern: string, decision: Decision)

  datatype Verdict = Verdict(decision: Decision, ruleIndex: Option<nat>)

  predicate EndsWith(s: string, suffix: string)
  {
    |suffix| <= |s| && s[|s| - |suffix|..] == suffix
  }

  predicate GlobMatch(pattern: string, value: string)
  {
    if pattern == value then true
    else if EndsWith(pattern, ".*") then
      var prefix := pattern[..|pattern| - 2];
      value == prefix || prefix + "." <= value
    else pattern == "*"
  }

  /** What a glob means on dotted names: the same segments, or, when the last
      pattern segment is a star, any name whose segments extend the others. */
  predicate SegmentMatch(pattern: seq<string>, value: seq<string>)
    requires pattern != []
  {
    || pattern == value
    || (pattern[|pattern| - 1] == "*" && pattern[..|pattern| - 1] <= value)
  }

  lemma PrefixCons(a: string, front: seq<string>, v: string, vs: seq<string>)
    ensures [a] + front <= [v] + vs <==> a == v && front <= vs
  {
    var p, w := [a] + front, [v] + vs;
    if p <= w {
      assert p[0] == w[0];
      assert p[1..] == w[1..|p|] && w[1..] == vs;
    }
  }

  /** A pattern as its segments before the last, and the last. */
  lemma FrontLast(a: string, ps: seq<string>, front: seq<string>, last: string)
    requires ps == front + [last]
    ensures [a] + ps == ([a] + front) + [last]
    ensures ([a] + ps)[..|ps|] == [a] + front && ([a] + ps)[|ps|] == last
    ensures ps == ["*"] <==> front == [] && last == "*"
  {
    var p := ([a] + front) + [last];
    assert [a] + ps == p;
    assert ps == ["*"] ==> |front| == 0 && last == ps[0];
  }

  /** Peeling the first segment off both sides. */
  lemma SegmentMatchCons(a: string, ps: seq<string>, v: string, vs: seq<string>)
    requires ps != []
    ensures SegmentMatch([a] + ps, [v] + vs) <==>
            a == v && (if vs == [] then ps == ["*"] else SegmentMatch(ps, vs))
  {
    var front, last := ps[..|ps| - 1], ps[|ps| - 1];
    FrontLast(a, ps, front, last);
    ConsEqual(a, ps, v, vs);
    PrefixCons(a, front, v, vs);
  }

  lemma PrefixAppend(a: string, b: string, s: string)
    ensures a + b <= s <==> a <= s && b <= s[|a|..]
  {
    if a + b <= s {
      assert s[..|a|] == a && s[|a|..][..|b|] == b;
    }
    if a <= s && b <= s[|a|..] {
      assert s == a + s[|a|..] && s[|a|..] == b + s[|a|..][|b|..];
      assert s == (a + b) + s[|a|..][|b|..];
    }
  }

  lemma EqualAppend(a: string, b: string, s: string)
    ensures a + b == s <==> a <= s && b == s[|a|..]
  {
    if a <= s {
      assert s == a + s[|a|..];
    }
  }

  lemma EndsWithAppend(a: string, rest: string, suffix: string)
    requires |suffix| <= |rest|
    ensures EndsWith(a + rest, suffix) <==> EndsWith(rest, suffix)
    ensures (a + rest)[..|a + rest| - |suffix|] == a + rest[..|rest| - |suffix|]
  {
    assert (a + rest)[|a + rest| - |suffix|..] == rest[|rest| - |suffix|..];
  }

  /** `p` is the first pattern segment with its dot. */
  lemma GlobLong(p: string, rest: string, value: string)
    requires |rest| >= 2
    ensures GlobMatch(p + rest, value) <==> p <= value && GlobMatch(rest, value[|p|..])
  {
    EqualAppend(p, rest, value);
    EndsWithAppend(p, rest, ".*");
    if EndsWith(rest, ".*") {
      var prefix := rest[..|rest| - 2];
      EqualAppend(p, prefix, value);
      PrefixAppend(p, prefix + ".", value);
      assert p + prefix + "." == p + (prefix + ".");
    } else {
      assert rest != "*" && p + rest != "*";
    }
  }

  lemma GlobShort(a: string, rest: string, value: string)
    requires |rest| < 2 && rest != "*"
    ensures GlobMatch(a + "." + rest, value) <==> a + "." <= value && GlobMatch(rest, value[|a| + 1..])
  {
    var p := a + ".";
    EqualAppend(p, rest, value);
    assert rest == "" ==> (p + rest)[|p + rest| - 1] == '.';
    assert rest != "" ==> (p + rest)[|p + rest| - 1] == rest[0];
    assert (p + rest)[|a|] == '.';
    assert !EndsWith(p + rest, ".*") && p + rest != "*";
  }

  lemma GlobStar(a: string, value: string)
    ensures GlobMatch(a + "." + "*", value) <==> a + "." <= value || value == a
  {
    var p := a + "." + "*";
    assert p == a + ".*" && EndsWith(p, ".*") && p[..|p| - 2] == a;
    EqualAppend(a + ".", "*", value);
  }

  lemma GlobMatchCons(a: string, rest: string, value: string)
    requires '.' !in a
    ensures GlobMatch(a + "." + rest, value) <==>
            || (a + "." <= value && GlobMatch(rest, value[|a| + 1..]))
            || (rest == "*" && value == a)
  {
    if |rest| >= 2 {
      GlobLong(a + ".", rest, value);
    } else if rest == "*" {
      GlobStar(a, value);
    } else {
      GlobShort(a, rest, value);
    }
  }

  lemma DotStarHasDot(p: string)
    requires EndsWith(p, ".*")
    ensures '.' in p
  {
    assert p[|p| - 2..][0] == '.';
  }

  lemma GlobSingleSegment(pattern: string, value: string)
    requires '.' !in pattern
    ensures GlobMatch(pattern, value) <==> SegmentMatch(Split(pattern, '.'), Split(value, '.'))
  {
    if EndsWith(pattern, ".*") {
      DotStarHasDot(pattern);
      assert false;
    }
    var vs := Split(value, '.');
    assert SegmentMatch([pattern], vs) <==> vs == [pattern] || pattern == "*";
    SplitCount(value, '.');
    CountZero(value, '.');
  }

  /** Both sides after the first segment of each has been cut off. */
  lemma GlobBothCons(a: string, rest: string, v: string, vs: string)
    requires '.' !in a && '.' !in v
    requires GlobMatch(rest, vs) <==> SegmentMatch(Split(rest, '.'), Split(vs, '.'))
    ensures GlobMatch(a + "." + rest, v + "." + vs) <==>
            SegmentMatch([a] + Split(rest, '.'), [v] + Split(vs, '.'))
  {
    var value := v + "." + vs;
    GlobMatchCons(a, rest, value);
    FirstSegment(a, value);
    FindAt(v, '.', vs);
    assert value == v + ['.'] + vs && value[..|v|] == v;
    SegmentMatchCons(a, Split(rest, '.'), v, Split(vs, '.'));
    if a == v {
      assert value[|a| + 1..] == vs;
    } else if value == a {
      assert false;
    }
  }

  /** A value of one segment against a longer pattern. */
  lemma GlobLastCons(a: string, rest: string, value: string)
    requires '.' !in a && '.' !in value
    ensures GlobMatch(a + "." + rest, value) <==> SegmentMatch([a] + Split(rest, '.'), [value])
  {
    GlobMatchCons(a, rest, value);
    FirstSegment(a, value);
    SegmentMatchCons(a, Split(rest, '.'), value, []);
    StarSegment(rest);
    assert [value] + [] == [value];
  }

  /** The string tests of `GlobMatch` decide exactly the segment relation, for
      every pattern and every name. */
  lemma {:induction false} GlobIsSegmentMatch(pattern: string, value: string)
    ensures GlobMatch(pattern, value) <==> SegmentMatch(Split(pattern, '.'), Split(value, '.'))
    decreases |pattern|
  {
    var k, j := Find(pattern, '.'), Find(value, '.');
    if k == |pattern| {
      GlobSingleSegment(pattern, value);
    } else {
      var a, rest := pattern[..k], pattern[k + 1..];
      assert pattern == a + "." + rest;
      if j == |value| {
        GlobLastCons(a, rest, value);
      } else {
        var v, vs := value[..j], value[j + 1..];
        assert value == v + "." + vs;
        GlobIsSegmentMatch(rest, vs);
        GlobBothCons(a, rest, v, vs);
      }
    }
  }

  lemma PrefixRest(p: string, s: string)
    ensures p <= s <==> |p| <= |s| && s == p + s[|p|..]
  {
  }

  lemma FirstSegment(a: string, value: string)
    requires '.' !in a
    ensures a + "." <= value <==> Find(value, '.') < |value| && value[..Find(value, '.')] == a
  {
    var j := Find(value, '.');
    if a + "." <= value {
      var rest := value[|a + "."|..];
      PrefixRest(a + ".", value);
      FirstSegmentOf(a, rest, value);
    }
    if j < |value| && value[..j] == a {
      assert value[..j + 1] == a + ".";
    }
  }

  lemma FirstSegmentOf(a: string, rest: string, value: string)
    requires '.' !in a && value == a + "." + rest
    ensures Find(value, '.') == |a| && value[..|a|] == a
  {
    assert value == a + ['.'] + rest;
    FindAt(a, '.', rest);
  }

  lemma StarSegment(rest: string)
    ensures Split(rest, '.') == ["*"] <==> rest == "*"
  {
  }

  /** A star inside a segment is no wildcard. */
  lemma StarInsideSegment()
    ensures !GlobMatch("net*", "network") && GlobMatch("net.*", "net.work")
  {
    assert !EndsWith("net*", ".*") by {
      assert "net*"[2..][0] == 't';
    }
    var dotted := "net.*";
    assert EndsWith(dotted, ".*") && dotted[..3] == "net";
    assert "net.work"[..4] == "net" + ".";
  }

  /** The engine's answer, found by walking the rules in order. */
  function EvaluateFrom(rules: seq<Rule>, capability: string, i: nat): (v: Verdict)
    requires i <= |rules|
    requires forall k :: 0 <= k < i ==> !GlobMatch(rules[k].pattern, capability)
    ensures v.ruleIndex.Some? ==>
              var n := v.ruleIndex.value;
              && n < |rules|
              && GlobMatch(rules[n].pattern, capability)
              && (forall k :: 0 <= k < n ==> !GlobMatch(rules[k].pattern, capability))
              && v.decision == rules[n].decision
    ensures v.ruleIndex.None? ==>
              && v.decision == Deny
              && (forall k :: 0 <= k < |rules| ==> !GlobMatch(rules[k].pattern, capability))
    decreases |rules| - i
  {
    if i == |rules| then Verdict(Deny, None)
    else if GlobMatch(rules[i].pattern, capability) then Verdict(rules[i].decision, Some(i))
    else EvaluateFrom(rules, capability, i + 1)
  }

  function Evaluate(rules: seq<Rule>, capability: string): Decision
  {
    EvaluateFrom(rules, capability, 0).decision
  }
}

/** What the broker is asked to do (daimon-broker request.rs) and the pure parts
    of the broker (broker.rs): read-only derivation and the boot lint. */
module Broker {
  import opened Wrappers
  import opened Capabilities
  import opened Policy

  datatype ExecRequest = ExecRequest(
    target: string,
    op: string,
    actor: string,
    capability: Option<string>,
    isReadOnly: bool,
    meta: Option<Capability>)

  function NewRequest(actor: string, target: string, op: string): ExecRequest
  {
    ExecRequest(target, op, actor, None, false, None)
  }

  function WithCapabilityMeta(r: ExecRequest, c: Capability): ExecRequest
  {
    r.(isReadOnly := IsRead(c), capability := Some(c.name), meta := Some(c))
  }

  predicate DeriveReadOnly(r: ExecRequest)
  {
    r.meta.Some? && IsRead(r.meta.value)
  }

  /** The capability name the guard evaluates and the approval row records. */
  function GuardName(r: ExecRequest): string
  {
    if r.capability.Some? then r.capability.value else "broker.execute"
  }

  datatype LintError =
    | DanglingCompensator(capability: string, compensator: string)
    | WriteAllowed(capability: string)

  predicate Dangling(present: set<string>, c: Capability)
  {
    c.compensating.Some? && c.compensating.value !in present
  }

  predicate AllowedWrite(policy: Option<seq<Rule>>, c: Capability)
  {
    !IsRead(c) && policy.Some? && Evaluate(policy.value, c.name) == Allow
  }

  /** One capability's coherence with the registered names and the policy. */
  predicate Coherent(policy: Option<seq<Rule>>, present: set<string>, c: Capability)
  {
    !Dangling(present, c) && !AllowedWrite(policy, c)
  }

  /** `e` is about the first incoherent capability: its dangling compensator, or else
      that it is an allowed write. */
  predicate FirstIncoherent(policy: Option<seq<Rule>>, present: set<string>, caps: seq<Capability>, e: LintError)
  {
    exists i :: 0 <= i < |caps| && IncoherentAt(policy, present, caps, i, e)
  }

  predicate IncoherentAt(policy: Option<seq<Rule>>, present: set<string>, caps: seq<Capability>, i: nat, e: LintError)
    requires i < |caps|
  {
    && (forall k :: 0 <= k < i ==> Coherent(policy, present, caps[k]))
    && match e
       case DanglingCompensator(name, comp) =>
         caps[i].name == name && caps[i].compensating == Some(comp) && comp !in present
       case WriteAllowed(name) =>
         caps[i].name == name && !Dangling(present, caps[i]) && AllowedWrite(policy, caps[i])
  }

  lemma FirstIncoherentCons(policy: Option<seq<Rule>>, present: set<string>, caps: seq<Capability>, e: LintError)
    requires caps != [] && Coherent(policy, present, caps[0]) && FirstIncoherent(policy, present, caps[1..], e)
    ensures FirstIncoherent(policy, present, caps, e)
  {
    var i :| 0 <= i < |caps[1..]| && IncoherentAt(policy, present, caps[1..], i, e);
    assert forall k :: 0 < k < |caps| ==> caps[k] == caps[1..][k - 1];
    assert IncoherentAt(policy, present, caps, i + 1, e);
  }

  function LintFrom(policy: Option<seq<Rule>>, present: set<string>, caps: seq<Capability>)
    : (r: Result<(), LintError>)
    ensures r.Ok? <==> forall c :: c in caps ==> Coherent(policy, present, c)
    ensures r.Err? ==> FirstIncoherent(policy, present, caps, r.error)
  {
    if caps == [] then Ok(())
    else
      var c := caps[0];
      assert forall d :: d in caps <==> d == c || d in caps[1..];
      assert c in caps;
      if c.compensating.Some? && c.compensating.value !in present then
        var e := DanglingCompensator(c.name, c.compensating.value);
        assert IncoherentAt(policy, present, caps, 0, e);
        Err(e)
      else if !IsRead(c) && policy.Some? && Evaluate(policy.value, c.name) == Allow then
        assert IncoherentAt(policy, present, caps, 0, WriteAllowed(c.name));
        Err(WriteAllowed(c.name))
      else
        var r := LintFrom(policy, present, caps[1..]);
        if r.Err? then FirstIncoherentCons(policy, present, caps, r.error); r else r
  }

  predicate IsRegistered(caps: seq<Capability>, name: string)
  {
    exists d :: d in caps && d.name == name
  }

  /** The boot lint over the live capability set: it passes exactly when every
      compensator names a registered capability and, with a policy, no registered
      write is allowed outright. */
  function LintWriteCapabilities(policy: Option<seq<Rule>>, caps: seq<Capability>)
    : (r: Result<(), LintError>)
    ensures r.Ok? <==>
            && (forall c :: c in caps && c.compensating.Some? ==> IsRegistered(caps, c.compensating.value))
            && (policy.Some? ==> forall c :: c in caps && !IsRead(c) ==> Evaluate(policy.value, c.name) != Allow)
  {
    var present := set d | d in caps :: d.name;
    assert forall n :: n in present <==> IsRegistered(caps, n);
    LintFrom(policy, present, caps)
  }
}
