/** Slot substitution in JSON bodies: `substitute_json` of daimon-driver
    connector.rs and daimon-app skills.rs.  Objects are field lists in iteration
    order. */
module JsonTemplates {
  import opened Wrappers
  import opened Json
  import opened Templates

  // ----- looking into a tree ------------------------------------------------

  /** The children of a node, array items or field values, by position. */
  function Children(j: Json): seq<Json>
  {
    match j
    case Arr(items) => items
    case Obj(fields) => seq(|fields|, i requires 0 <= i < |fields| => fields[i].value)
    case _ => []
  }

  /** The node a path of child positions leads to. */
  function At(j: Json, path: seq<nat>): Option<Json>
    decreases |path|
  {
    if path == [] then Some(j)
    else if path[0] < |Children(j)| then At(Children(j)[path[0]], path[1..])
    else None
  }

  function Keys(j: Json): seq<string>
  {
    match j
    case Obj(fields) => seq(|fields|, i requires 0 <= i < |fields| => fields[i].key)
    case _ => []
  }

  /** What filling does to one node, its children apart. */
  predicate NodeFilled(a: Json, b: Json, env: Env)
  {
    match a
    case Str(s) => b.Str? && Expand(s, env) == Ok(b.s)
    case Arr(items) => b.Arr? && |b.items| == |items|
    case Obj(fields) => b.Obj? && |b.fields| == |fields| && Keys(b) == Keys(a)
    case _ => b == a
  }

  /** Node by node, over every path. */
  ghost predicate Filling(a: Json, b: Json, env: Env)
  {
    forall path: seq<nat> ::
      && (At(a, path).None? <==> At(b, path).None?)
      && (At(a, path).Some? ==> NodeFilled(At(a, path).value, At(b, path).value, env))
  }

  ghost predicate AllFillable(j: Json, env: Env)
  {
    forall path: seq<nat> ::
      At(j, path).Some? && At(j, path).value.Str? ==> Expand(At(j, path).value.s, env).Ok?
  }

  // ----- filling ------------------------------------------------------------

  lemma ChildIsSmaller(j: Json, i: nat)
    requires i < |Children(j)|
    ensures Children(j)[i] < j
  {
    if j.Obj? {
      assert j.fields[i] < j;
    }
  }

  /** The node with other children, keys and order kept. */
  function WithChildren(j: Json, cs: seq<Json>): (r: Json)
    requires |cs| == |Children(j)|
    ensures Children(r) == cs && Keys(r) == Keys(j)
    ensures !j.Arr? && !j.Obj? ==> r == j
  {
    match j
    case Arr(_) => Arr(cs)
    case Obj(fields) => Obj(seq(|fields|, i requires 0 <= i < |fields| => Field(fields[i].key, cs[i])))
    case _ => j
  }

  /** Every string leaf expanded; the first leaf that cannot be is the error. */
  function FillJson(j: Json, env: Env): Result<Json, SlotError>
    decreases j, |Children(j)| + 1
  {
    if j.Str? then (match Expand(j.s, env) case Ok(v) => Ok(Str(v)) case Err(e) => Err(e))
    else match FillFrom(j, 0, env)
         case Ok(cs) => Ok(WithChildren(j, cs))
         case Err(e) => Err(e)
  }

  function FillFrom(j: Json, i: nat, env: Env): (r: Result<seq<Json>, SlotError>)
    requires i <= |Children(j)|
    ensures r.Ok? ==> |r.value| == |Children(j)| - i
    decreases j, |Children(j)| - i
  {
    if i == |Children(j)| then Ok([])
    else
      ChildIsSmaller(j, i);
      Cons(FillJson(Children(j)[i], env), FillFrom(j, i + 1, env))
  }

  type JsonResult = Result<Json, SlotError>

  /** All of a list of results, or the first error. */
  function Collect(rs: seq<JsonResult>): (r: Result<seq<Json>, SlotError>)
    ensures r.Ok? ==> |r.value| == |rs|
  {
    if rs == [] then Ok([]) else Cons(rs[0], Collect(rs[1..]))
  }

  function Cons(v: JsonResult, rest: Result<seq<Json>, SlotError>): Result<seq<Json>, SlotError>
  {
    if v.Err? then Err(v.error) else if rest.Err? then rest else Ok([v.value] + rest.value)
  }

  lemma {:induction false} CollectAt(rs: seq<JsonResult>)
    ensures Collect(rs).Ok? <==> forall k :: 0 <= k < |rs| ==> rs[k].Ok?
    ensures Collect(rs).Ok? ==> forall k :: 0 <= k < |rs| ==> rs[k] == Ok(Collect(rs).value[k])
  {
    if rs != [] {
      CollectAt(rs[1..]);
      assert forall k :: 0 < k < |rs| ==> rs[k] == rs[1..][k - 1];
      assert forall k :: 0 <= k < |rs| - 1 ==> rs[1..][k] == rs[k + 1];
    }
  }

  lemma CollectCons(v: JsonResult, rest: seq<JsonResult>)
    ensures Collect([v] + rest) == Cons(v, Collect(rest))
  {
    assert ([v] + rest)[1..] == rest;
  }

  function ChildResults(j: Json, env: Env): seq<JsonResult>
  {
    seq(|Children(j)|, k requires 0 <= k < |Children(j)| => FillJson(Children(j)[k], env))
  }

  lemma {:induction false} FillFromIsCollect(j: Json, i: nat, rs: seq<JsonResult>, env: Env)
    requires i <= |Children(j)| && rs == ChildResults(j, env)
    ensures FillFrom(j, i, env) == Collect(rs[i..])
    decreases |Children(j)| - i
  {
    if i < |Children(j)| {
      FillFromIsCollect(j, i + 1, rs, env);
      CollectCons(rs[i], rs[i + 1..]);
      assert rs[i..] == [rs[i]] + rs[i + 1..];
    }
  }

  lemma FillChildren(j: Json, env: Env)
    ensures var r := FillFrom(j, 0, env);
            && (r.Ok? <==> forall k :: 0 <= k < |Children(j)| ==> FillJson(Children(j)[k], env).Ok?)
            && (r.Ok? ==> forall k :: 0 <= k < |Children(j)| ==> FillJson(Children(j)[k], env) == Ok(r.value[k]))
  {
    var rs := ChildResults(j, env);
    FillFromIsCollect(j, 0, rs, env);
    assert rs[0..] == rs;
    CollectAt(rs);
    assert forall k :: 0 <= k < |Children(j)| ==> rs[k] == FillJson(Children(j)[k], env);
  }

  lemma {:induction false} FillJsonIff(j: Json, env: Env)
    ensures FillJson(j, env).Ok? <==> AllFillable(j, env)
    ensures FillJson(j, env).Ok? ==> Filling(j, FillJson(j, env).value, env)
    decreases j
  {
    forall k | 0 <= k < |Children(j)|
      ensures ChildFilled(Children(j)[k], env)
    {
      ChildIsSmaller(j, k);
      FillJsonIff(Children(j)[k], env);
    }
    if j.Str? {
      StringLeaf(j, env);
    } else {
      InnerNode(j, env);
    }
  }

  ghost predicate ChildFilled(j: Json, env: Env)
  {
    && (FillJson(j, env).Ok? <==> AllFillable(j, env))
    && (FillJson(j, env).Ok? ==> Filling(j, FillJson(j, env).value, env))
  }

  lemma InnerNode(j: Json, env: Env)
    requires !j.Str?
    requires forall k :: 0 <= k < |Children(j)| ==> ChildFilled(Children(j)[k], env)
    ensures ChildFilled(j, env)
  {
    var cs := Children(j);
    FillChildren(j, env);
    FillableByChildren(j, env);
    assert forall k :: 0 <= k < |cs| ==> (FillJson(cs[k], env).Ok? <==> AllFillable(cs[k], env));
    if FillJson(j, env).Ok? {
      var ds := FillFrom(j, 0, env).value;
      var b := WithChildren(j, ds);
      forall k | 0 <= k < |cs|
        ensures Filling(cs[k], ds[k], env)
      {
        assert ChildFilled(cs[k], env) && FillJson(cs[k], env) == Ok(ds[k]);
      }
      FillingByChildren(j, b, env);
    }
  }

  lemma StringLeaf(j: Json, env: Env)
    requires j.Str?
    ensures FillJson(j, env).Ok? <==> AllFillable(j, env)
    ensures FillJson(j, env).Ok? ==> Filling(j, FillJson(j, env).value, env)
  {
    assert At(j, []) == Some(j);
  }

  lemma FillableByChildren(j: Json, env: Env)
    requires !j.Str?
    ensures AllFillable(j, env) <==> forall k :: 0 <= k < |Children(j)| ==> AllFillable(Children(j)[k], env)
  {
    var cs := Children(j);
    if forall k :: 0 <= k < |cs| ==> AllFillable(cs[k], env) {
      forall path: seq<nat> | At(j, path).Some? && At(j, path).value.Str?
        ensures Expand(At(j, path).value.s, env).Ok?
      {
        assert AllFillable(cs[path[0]], env) && At(j, path) == At(cs[path[0]], path[1..]);
      }
    }
    if AllFillable(j, env) {
      forall k, path: seq<nat> | 0 <= k < |cs| && At(cs[k], path).Some? && At(cs[k], path).value.Str?
        ensures Expand(At(cs[k], path).value.s, env).Ok?
      {
        var p := [k as nat] + path;
        assert p[1..] == path && At(j, p) == At(cs[k], path);
      }
    }
  }

  lemma FillingByChildren(a: Json, b: Json, env: Env)
    requires NodeFilled(a, b, env) && |Children(a)| == |Children(b)|
    requires forall k :: 0 <= k < |Children(a)| ==> Filling(Children(a)[k], Children(b)[k], env)
    ensures Filling(a, b, env)
  {
    forall path: seq<nat>
      ensures At(a, path).None? <==> At(b, path).None?
      ensures At(a, path).Some? ==> NodeFilled(At(a, path).value, At(b, path).value, env)
    {
      if path != [] && path[0] < |Children(a)| {
        assert Filling(Children(a)[path[0]], Children(b)[path[0]], env);
        assert At(a, path) == At(Children(a)[path[0]], path[1..]);
        assert At(b, path) == At(Children(b)[path[0]], path[1..]);
      }
    }
  }

  // ----- the connector's loops ----------------------------------------------

  /** Array items and object entries alike are filled in order and collected. */
  method SubstituteJson(j: Json, capability: string, validated: Env)
    returns (r: Result<Json, ConnectorError>)
    ensures r.Ok? <==> FillJson(j, validated).Ok?
    ensures r.Ok? ==> r.value == FillJson(j, validated).value
    ensures r.Err? ==> r.error == Reported(FillJson(j, validated).error, capability)
    decreases j
  {
    if j.Str? {
      var s := ConnectorSubstitute(j.s, capability, validated);
      if s.Err? { return Err(s.error); }
      return Ok(Str(s.value));
    }
    var cs := Children(j);
    var out: seq<Json> := [];
    var i := 0;
    AfterNothing(FillFrom(j, 0, validated));
    while i < |cs|
      invariant i == |out| <= |cs|
      invariant FillFrom(j, 0, validated) == After(out, FillFrom(j, i, validated))
    {
      ChildIsSmaller(j, i);
      var v := SubstituteJson(cs[i], capability, validated);
      if v.Err? { return Err(v.error); }
      AfterSnoc(out, v.value, FillFrom(j, i + 1, validated));
      out := out + [v.value];
      i := i + 1;
    }
    return Ok(WithChildren(j, out));
  }

  function After(done: seq<Json>, r: Result<seq<Json>, SlotError>): Result<seq<Json>, SlotError>
  {
    if r.Ok? then Ok(done + r.value) else r
  }

  lemma AfterNothing(r: Result<seq<Json>, SlotError>)
    ensures After([], r) == r
  {
    assert r.Ok? ==> [] + r.value == r.value;
  }

  lemma AfterSnoc(done: seq<Json>, v: Json, r: Result<seq<Json>, SlotError>)
    ensures After(done, if r.Ok? then Ok([v] + r.value) else r) == After(done + [v], r)
  {
    assert r.Ok? ==> done + ([v] + r.value) == done + [v] + r.value;
  }
}
