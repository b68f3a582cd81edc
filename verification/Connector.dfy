/** The declarative connector (daimon-driver connector.rs): grouping profiles into
    drivers, registering their capabilities, and turning a call into a request to
    the broker. */
module Connector {
  import opened Wrappers
  import opened Json
  import opened Params
  import opened Templates
  import opened JsonTemplates
  import opened Capabilities
  import opened Broker

  datatype TargetClass = Compute | Network | Storage | Orchestrator | Firewall

  datatype Transport = Rest | Ssh | Snmp

  datatype AuthScheme = Bearer | NoAuth | Header(header: string, value: string)

  datatype ProfileParam = ProfileParam(name: string, class_: ParamClass)

  datatype ProfileOp = ProfileOp(
    verb: string, path: string, body: Option<Json>, command: Option<string>,
    oid: Option<string>, walk: bool, timeoutSecs: Option<nat>)

  /** `params` is the parameter table in iteration order. */
  datatype ProfileCapability = ProfileCapability(
    name: string, version: string, description: Option<string>, compensating: Option<string>,
    irreversible: bool, readOnly: bool, params: seq<ProfileParam>, op: ProfileOp)

  datatype Profile = Profile(
    name: string, class_: TargetClass, transport: Transport, auth: AuthScheme, capabilities: seq<ProfileCapability>)

  // ----- projection ---------------------------------------------------------

  function SchemaType(class_: ParamClass): Json
  {
    Obj([Field("type", Str(if class_ == Int then "integer" else "string"))])
  }

  function Schema(params: seq<ProfileParam>): Json
  {
    Obj([
      Field("type", Str("object")),
      Field("required", Arr(seq(|params|, i requires 0 <= i < |params| => Str(params[i].name)))),
      Field("properties", Obj(seq(|params|, i requires 0 <= i < |params| =>
        Field(params[i].name, SchemaType(params[i].class_)))))])
  }

  /** The contract shown for a capability asks for every parameter, and for an integer
      exactly where the class is one. */
  lemma SchemaSays(params: seq<ProfileParam>, i: nat)
    requires i < |params| && forall k :: 0 <= k < i ==> params[k].name != params[i].name
    ensures var fields := Schema(params).fields;
            && fields[1] == Field("required", Arr(seq(|params|, k requires 0 <= k < |params| => Str(params[k].name))))
            && fields[2].key == "properties" && fields[2].value.Obj?
            && Lookup(fields[2].value.fields, params[i].name) ==
               Some(Obj([Field("type", Str(if params[i].class_ == Int then "integer" else "string"))]))
  {
    var properties := Schema(params).fields[2].value.fields;
    LookupFinds(properties, params[i].name, i);
  }

  /** An explicit `read_only` drops the write dispositions; it does not by itself
      make the capability a read. */
  function Project(c: ProfileCapability): (r: Capability)
    ensures r.name == c.name && r.version == c.version
    ensures r.compensating == if c.readOnly then None else c.compensating
    ensures r.irreversible == (!c.readOnly && c.irreversible)
    ensures IsRead(r) <==> NameIsRead(c.name) && (c.readOnly || (c.compensating.None? && !c.irreversible))
  {
    if c.readOnly then ReadOnly(c.name, c.version)
    else Capability(c.name, c.version, c.description, Some(Schema(c.params)), c.compensating, c.irreversible)
  }

  /** A capability with what its profile says about reaching the target. */
  datatype Declared = Declared(cap: ProfileCapability, auth: AuthScheme, transport: Transport)

  function DeclaredIn(p: Profile): seq<Declared>
  {
    seq(|p.capabilities|, i requires 0 <= i < |p.capabilities| => Declared(p.capabilities[i], p.auth, p.transport))
  }

  function ProjectAll(ds: seq<Declared>): seq<Capability>
  {
    seq(|ds|, i requires 0 <= i < |ds| => Project(ds[i].cap))
  }

  // ----- grouping -----------------------------------------------------------

  /** The profiles of one class, in order. */
  function OfClass(ps: seq<Profile>, c: TargetClass): (r: seq<Profile>)
    ensures forall p :: p in r <==> p in ps && p.class_ == c
  {
    if ps == [] then []
    else
      var last := ps[|ps| - 1];
      assert ps == ps[..|ps| - 1] + [last];
      OfClass(ps[..|ps| - 1], c) + if last.class_ == c then [last] else []
  }

  lemma OfClassSnoc(ps: seq<Profile>, p: Profile, c: TargetClass)
    ensures OfClass(ps + [p], c) == OfClass(ps, c) + if p.class_ == c then [p] else []
  {
    assert (ps + [p])[..|ps|] == ps;
  }

  datatype Group = Group(class_: TargetClass, members: seq<Profile>)

  /** A stable partition by class: one group per class that occurs, in which the
      profiles of that class stand in their order. */
  ghost predicate StablePartition(groups: seq<Group>, ps: seq<Profile>)
  {
    && (forall a, b :: 0 <= a < b < |groups| ==> groups[a].class_ != groups[b].class_)
    && (forall a :: 0 <= a < |groups| ==> groups[a].members == OfClass(ps, groups[a].class_) && groups[a].members != [])
    && (forall p :: p in ps ==> HasGroup(groups, p.class_))
  }

  predicate HasGroup(groups: seq<Group>, c: TargetClass)
  {
    exists a :: 0 <= a < |groups| && groups[a].class_ == c
  }

  function FindGroup(groups: seq<Group>, c: TargetClass): (k: nat)
    ensures k <= |groups|
    ensures k < |groups| ==> groups[k].class_ == c
    ensures k == |groups| <==> !HasGroup(groups, c)
  {
    if groups == [] then 0
    else if groups[0].class_ == c then 0
    else
      var k := 1 + FindGroup(groups[1..], c);
      assert forall a :: 0 < a < |groups| ==> groups[a] == groups[1..][a - 1];
      k
  }

  lemma AddToGroup(groups: seq<Group>, ps: seq<Profile>, p: Profile, k: nat)
    requires StablePartition(groups, ps) && k < |groups| && groups[k].class_ == p.class_
    ensures StablePartition(groups[k := Group(p.class_, groups[k].members + [p])], ps + [p])
  {
    var after := groups[k := Group(p.class_, groups[k].members + [p])];
    forall a | 0 <= a < |after|
      ensures after[a].members == OfClass(ps + [p], after[a].class_) && after[a].members != []
    {
      OfClassSnoc(ps, p, after[a].class_);
    }
    assert after[k].class_ == p.class_;
    forall q | q in ps + [p]
      ensures HasGroup(after, q.class_)
    {
      if q in ps {
        var a :| 0 <= a < |groups| && groups[a].class_ == q.class_;
        assert after[a].class_ == q.class_;
      }
    }
  }

  lemma NewGroup(groups: seq<Group>, ps: seq<Profile>, p: Profile)
    requires StablePartition(groups, ps) && !HasGroup(groups, p.class_)
    ensures StablePartition(groups + [Group(p.class_, [p])], ps + [p])
  {
    var after := groups + [Group(p.class_, [p])];
    if OfClass(ps, p.class_) != [] {
      assert OfClass(ps, p.class_)[0] in OfClass(ps, p.class_);
      assert false;
    }
    forall a | 0 <= a < |after|
      ensures after[a].members == OfClass(ps + [p], after[a].class_) && after[a].members != []
    {
      OfClassSnoc(ps, p, after[a].class_);
    }
    assert after[|groups|].class_ == p.class_;
    forall q | q in ps + [p]
      ensures HasGroup(after, q.class_)
    {
      if q in ps {
        var a :| 0 <= a < |groups| && groups[a].class_ == q.class_;
        assert after[a].class_ == q.class_;
      }
    }
  }

  method GroupByClass(profiles: seq<Profile>) returns (groups: seq<Group>)
    ensures StablePartition(groups, profiles)
  {
    groups := [];
    for i := 0 to |profiles|
      invariant StablePartition(groups, profiles[..i])
    {
      var p := profiles[i];
      var k := FindGroup(groups, p.class_);
      assert profiles[..i + 1] == profiles[..i] + [p];
      if k < |groups| {
        AddToGroup(groups, profiles[..i], p, k);
        groups := groups[k := Group(p.class_, groups[k].members + [p])];
      } else {
        NewGroup(groups, profiles[..i], p);
        groups := groups + [Group(p.class_, [p])];
      }
    }
    assert profiles[..|profiles|] == profiles;
  }

  // ----- registration -------------------------------------------------------

  datatype Driver = Driver(class_: TargetClass, capabilities: seq<Capability>, declared: map<string, Declared>)

  /** All declarations of the profiles of one class, in order. */
  function Declarations(ps: seq<Profile>, c: TargetClass): seq<Declared>
  {
    if ps == [] then []
    else
      var last := ps[|ps| - 1];
      Declarations(ps[..|ps| - 1], c) + if last.class_ == c then DeclaredIn(last) else []
  }

  predicate IsLast(ds: seq<Declared>, i: nat, n: string)
  {
    i < |ds| && ds[i].cap.name == n && forall j :: i < j < |ds| ==> ds[j].cap.name != n
  }

  /** The driver lists every declaration in order, and can look up exactly the
      listed names; of several declarations of one name the last is found. */
  ghost predicate Loaded(caps: seq<Capability>, declared: map<string, Declared>, ds: seq<Declared>)
  {
    && caps == ProjectAll(ds)
    && (forall i :: 0 <= i < |ds| ==> ds[i].cap.name in declared)
    && (forall n :: n in declared ==> exists i: nat :: IsLast(ds, i, n) && declared[n] == ds[i])
  }

  lemma LoadOne(caps: seq<Capability>, declared: map<string, Declared>, ds: seq<Declared>, d: Declared)
    requires Loaded(caps, declared, ds)
    ensures Loaded(caps + [Project(d.cap)], declared[d.cap.name := d], ds + [d])
  {
    var ds', declared' := ds + [d], declared[d.cap.name := d];
    assert ProjectAll(ds') == ProjectAll(ds) + [Project(d.cap)];
    forall n | n in declared'
      ensures exists i: nat :: IsLast(ds', i, n) && declared'[n] == ds'[i]
    {
      if n == d.cap.name {
        assert IsLast(ds', |ds|, n);
      } else {
        var i: nat :| IsLast(ds, i, n) && declared[n] == ds[i];
        assert IsLast(ds', i, n);
      }
    }
  }

  method FromProfiles(profiles: seq<Profile>) returns (driver: Driver)
    ensures driver.class_ == if profiles == [] then Compute else profiles[0].class_
    ensures Loaded(driver.capabilities, driver.declared, Declarations(profiles, driver.class_))
  {
    var class_ := if profiles == [] then Compute else profiles[0].class_;
    var capabilities: seq<Capability>, declared: map<string, Declared> := [], map[];
    for i := 0 to |profiles|
      invariant Loaded(capabilities, declared, Declarations(profiles[..i], class_))
    {
      var profile := profiles[i];
      ghost var before := Declarations(profiles[..i], class_);
      assert profiles[..i + 1][..i] == profiles[..i];
      if profile.class_ != class_ {
        assert Declarations(profiles[..i + 1], class_) == before;
        continue;
      }
      assert before + DeclaredIn(profile)[..0] == before;
      for j := 0 to |profile.capabilities|
        invariant Loaded(capabilities, declared, before + DeclaredIn(profile)[..j])
      {
        var cap := profile.capabilities[j];
        var d := Declared(cap, profile.auth, profile.transport);
        LoadOne(capabilities, declared, before + DeclaredIn(profile)[..j], d);
        assert before + DeclaredIn(profile)[..j] + [d] == before + DeclaredIn(profile)[..j + 1];
        capabilities := capabilities + [Project(cap)];
        declared := declared[cap.name := d];
      }
      assert before + DeclaredIn(profile)[..|profile.capabilities|] == before + DeclaredIn(profile);
    }
    assert profiles[..|profiles|] == profiles;
    driver := Driver(class_, capabilities, declared);
  }

  /** Nothing is skipped when all profiles are of the class. */
  lemma {:induction false} DeclarationsOfClass(ps: seq<Profile>, c: TargetClass)
    ensures Declarations(OfClass(ps, c), c) == Declarations(ps, c)
  {
    if ps != [] {
      var front, last := ps[..|ps| - 1], ps[|ps| - 1];
      DeclarationsOfClass(front, c);
      if last.class_ == c {
        assert (OfClass(front, c) + [last])[..|OfClass(front, c)|] == OfClass(front, c);
      } else {
        assert OfClass(ps, c) == OfClass(front, c);
      }
    }
  }

  ghost predicate LoadedWith(d: Driver, ps: seq<Profile>)
  {
    Loaded(d.capabilities, d.declared, Declarations(ps, d.class_))
  }

  /** One driver per class that occurs, holding the declarations of its class. */
  ghost predicate LoadedFrom(drivers: seq<Driver>, ps: seq<Profile>)
  {
    && (forall a, b :: 0 <= a < b < |drivers| ==> drivers[a].class_ != drivers[b].class_)
    && (forall a :: 0 <= a < |drivers| ==> LoadedWith(drivers[a], ps))
    && (forall p :: p in ps ==> p.class_ in Classes(drivers))
  }

  function Classes(drivers: seq<Driver>): seq<TargetClass>
  {
    seq(|drivers|, a requires 0 <= a < |drivers| => drivers[a].class_)
  }

  /** The driver of one group; the class test of `FromProfiles` never skips. */
  method FromGroup(profiles: seq<Profile>, g: Group) returns (driver: Driver)
    requires IsGroup(g, profiles)
    ensures DriverOf(driver, g, profiles)
  {
    driver := FromProfiles(g.members);
    assert g.members[0] in g.members;
    DeclarationsOfClass(profiles, g.class_);
  }

  ghost predicate DriverOf(d: Driver, g: Group, ps: seq<Profile>)
  {
    d.class_ == g.class_ && LoadedWith(d, ps)
  }

  lemma EveryClassHasDriver(drivers: seq<Driver>, groups: seq<Group>, ps: seq<Profile>)
    requires StablePartition(groups, ps) && |drivers| == |groups|
    requires forall a :: 0 <= a < |groups| ==> drivers[a].class_ == groups[a].class_
    ensures forall p :: p in ps ==> p.class_ in Classes(drivers)
  {
    forall p | p in ps
      ensures p.class_ in Classes(drivers)
    {
      var a :| 0 <= a < |groups| && groups[a].class_ == p.class_;
      assert Classes(drivers)[a] == p.class_;
    }
  }

  lemma GroupsMakeDrivers(drivers: seq<Driver>, groups: seq<Group>, ps: seq<Profile>)
    requires StablePartition(groups, ps) && |drivers| == |groups|
    requires forall a :: 0 <= a < |groups| ==> DriverOf(drivers[a], groups[a], ps)
    ensures LoadedFrom(drivers, ps)
  {
    assert forall a :: 0 <= a < |groups| ==> drivers[a].class_ == groups[a].class_;
    EveryClassHasDriver(drivers, groups, ps);
  }

  predicate IsGroup(g: Group, ps: seq<Profile>)
  {
    g.members == OfClass(ps, g.class_) && g.members != []
  }

  lemma GroupsAreGroups(groups: seq<Group>, ps: seq<Profile>)
    requires StablePartition(groups, ps)
    ensures forall a :: 0 <= a < |groups| ==> IsGroup(groups[a], ps)
  {
  }

  method FromGroups(groups: seq<Group>, profiles: seq<Profile>) returns (drivers: seq<Driver>)
    requires forall a :: 0 <= a < |groups| ==> IsGroup(groups[a], profiles)
    ensures |drivers| == |groups|
    ensures forall a :: 0 <= a < |groups| ==> DriverOf(drivers[a], groups[a], profiles)
  {
    drivers := [];
    for i := 0 to |groups|
      invariant |drivers| == i
      invariant forall a :: 0 <= a < i ==> DriverOf(drivers[a], groups[a], profiles)
    {
      var driver := FromGroup(profiles, groups[i]);
      drivers := drivers + [driver];
    }
  }

  /** Loading a directory: one driver per class. */
  method FromDir(profiles: seq<Profile>) returns (drivers: seq<Driver>)
    ensures LoadedFrom(drivers, profiles)
  {
    var groups := GroupByClass(profiles);
    GroupsAreGroups(groups, profiles);
    drivers := FromGroups(groups, profiles);
    GroupsMakeDrivers(drivers, groups, profiles);
  }

  // ----- what loading keeps -------------------------------------------------

  function Registered(drivers: seq<Driver>): seq<Capability>
  {
    if drivers == [] then [] else drivers[0].capabilities + Registered(drivers[1..])
  }

  function Offered(ps: seq<Profile>): seq<Capability>
  {
    if ps == [] then []
    else Offered(ps[..|ps| - 1]) + ProjectAll(DeclaredIn(ps[|ps| - 1]))
  }

  /** What drivers for the given classes register. */
  function RegisteredBy(cs: seq<TargetClass>, ps: seq<Profile>): seq<Capability>
  {
    if cs == [] then [] else ProjectAll(Declarations(ps, cs[0])) + RegisteredBy(cs[1..], ps)
  }

  lemma ProjectAllConcat(a: seq<Declared>, b: seq<Declared>)
    ensures ProjectAll(a + b) == ProjectAll(a) + ProjectAll(b)
  {
  }

  /** One more profile reaches exactly the driver of its class. */
  lemma {:induction false} OneMoreProfile(cs: seq<TargetClass>, ps: seq<Profile>, p: Profile)
    requires forall a, b :: 0 <= a < b < |cs| ==> cs[a] != cs[b]
    ensures multiset(RegisteredBy(cs, ps + [p])) ==
            multiset(RegisteredBy(cs, ps)) + if p.class_ in cs then multiset(ProjectAll(DeclaredIn(p))) else multiset{}
  {
    if cs != [] {
      OneMoreProfile(cs[1..], ps, p);
      assert (ps + [p])[..|ps|] == ps;
      assert cs == [cs[0]] + cs[1..];
      ProjectAllConcat(Declarations(ps, cs[0]), if p.class_ == cs[0] then DeclaredIn(p) else []);
    }
  }

  lemma {:induction false} ClassesShareOut(cs: seq<TargetClass>, ps: seq<Profile>)
    requires forall a, b :: 0 <= a < b < |cs| ==> cs[a] != cs[b]
    requires forall p :: p in ps ==> p.class_ in cs
    ensures multiset(RegisteredBy(cs, ps)) == multiset(Offered(ps))
  {
    if ps == [] {
      NothingRegistered(cs);
    } else {
      var front, last := ps[..|ps| - 1], ps[|ps| - 1];
      assert ps == front + [last];
      ClassesShareOut(cs, front);
      OneMoreProfile(cs, front, last);
    }
  }

  lemma {:induction false} NothingRegistered(cs: seq<TargetClass>)
    ensures RegisteredBy(cs, []) == []
  {
    if cs != [] {
      NothingRegistered(cs[1..]);
    }
  }

  lemma {:induction false} RegisteredIsByClass(drivers: seq<Driver>, ps: seq<Profile>)
    requires forall a :: 0 <= a < |drivers| ==>
               drivers[a].capabilities == ProjectAll(Declarations(ps, drivers[a].class_))
    ensures Registered(drivers) == RegisteredBy(Classes(drivers), ps)
  {
    if drivers != [] {
      RegisteredIsByClass(drivers[1..], ps);
      assert Classes(drivers)[1..] == Classes(drivers[1..]);
    }
  }

  /** Loading loses and invents no capability: what the drivers register together
      is what the profiles offer, with multiplicity. */
  lemma LoadingConserves(drivers: seq<Driver>, ps: seq<Profile>)
    requires LoadedFrom(drivers, ps)
    ensures multiset(Registered(drivers)) == multiset(Offered(ps))
  {
    RegisteredIsByClass(drivers, ps);
    ClassesShareOut(Classes(drivers), ps);
  }

  // ----- dispatch -----------------------------------------------------------

  /** The descriptor a dispatch attaches for a name. */
  function Attached(d: Driver, name: string): Option<Capability>
  {
    if name in d.declared then Some(Project(d.declared[name].cap)) else None
  }

  /** Every registered capability can be dispatched, and whatever descriptor a
      dispatch attaches is a registered one of that name. */
  lemma AttachedIsRegistered(d: Driver, ds: seq<Declared>, name: string)
    requires Loaded(d.capabilities, d.declared, ds)
    ensures Attached(d, name).Some? <==> exists c :: c in d.capabilities && c.name == name
    ensures Attached(d, name).Some? ==>
              Attached(d, name).value in d.capabilities && Attached(d, name).value.name == name
  {
    forall c | c in d.capabilities
      ensures c.name in d.declared
    {
      var i :| 0 <= i < |d.capabilities| && d.capabilities[i] == c;
      assert c == Project(ds[i].cap);
    }
    if name in d.declared {
      var i: nat :| IsLast(ds, i, name) && d.declared[name] == ds[i];
      assert d.capabilities[i] == Project(ds[i].cap);
    }
  }

  /** Each listed capability is the one a dispatch of its name attaches exactly when
      no two listed capabilities of one name differ. */
  lemma AttachedIsListedIff(d: Driver, ds: seq<Declared>)
    requires Loaded(d.capabilities, d.declared, ds)
    ensures (forall c :: c in d.capabilities ==> Attached(d, c.name) == Some(c)) <==>
            (forall a, b :: a in d.capabilities && b in d.capabilities && a.name == b.name ==> a == b)
  {
    forall c | c in d.capabilities
      ensures Attached(d, c.name).Some? && Attached(d, c.name).value in d.capabilities
      ensures Attached(d, c.name).value.name == c.name
    {
      AttachedIsRegistered(d, ds, c.name);
    }
  }

  datatype Op =
    | Http(verb: string, path: string, body: Option<Json>, auth: AuthScheme)
    | ShellCommand(command: string, timeoutSecs: nat)
    | SnmpGet(oid: string)
    | SnmpWalk(oidRoot: string)

  /** A scalar parameter as text. */
  function Extract(params: Json, name: string): Option<string>
  {
    if !params.Obj? then None
    else match Lookup(params.fields, name)
         case Some(Str(s)) => Some(s)
         case Some(Num(t)) => Some(t)
         case Some(Bool(b)) => Some(if b then "true" else "false")
         case _ => None
  }

  /** What is wrong with one parameter of a call, if anything. */
  function Fault(capability: string, params: Json, p: ProfileParam): Option<ConnectorError>
  {
    match Extract(params, p.name)
    case None => Some(MissingParam(capability, p.name))
    case Some(v) =>
      match Validate(v, p.class_)
      case Ok(_) => None
      case Err(e) => Some(BadValue(p.name, e))
  }

  /** A parameter is faultless exactly when it is there and of its class. */
  lemma FaultIs(capability: string, params: Json, p: ProfileParam)
    ensures Fault(capability, params, p).None? <==>
            Extract(params, p.name).Some? && Admits(p.class_, Extract(params, p.name).value)
    ensures Fault(capability, params, p) == Some(MissingParam(capability, p.name)) <==> Extract(params, p.name).None?
  {
  }

  /** The values a template may use: those of the declared parameters, each valid
      for its class. */
  ghost predicate Validated(env: Env, params: Json, ps: seq<ProfileParam>)
  {
    ValidatedTo(env, params, ps, |ps|)
  }

  predicate DeclaredName(ps: seq<ProfileParam>, n: nat, name: string)
    requires n <= |ps|
  {
    exists i :: 0 <= i < n && ps[i].name == name
  }

  predicate ValidFor(env: Env, params: Json, p: ProfileParam)
  {
    && p.name in env
    && Extract(params, p.name) == Some(env[p.name])
    && Validate(env[p.name], p.class_).Ok?
  }

  ghost predicate ValidatedTo(env: Env, params: Json, ps: seq<ProfileParam>, n: nat)
    requires n <= |ps|
  {
    && (forall name :: name in env ==> DeclaredName(ps, n, name))
    && (forall i :: 0 <= i < n ==> ValidFor(env, params, ps[i]))
  }

  ghost predicate FirstFault(e: ConnectorError, capability: string, params: Json, ps: seq<ProfileParam>)
  {
    exists i :: 0 <= i < |ps| && Fault(capability, params, ps[i]) == Some(e)
      && forall k :: 0 <= k < i ==> Fault(capability, params, ps[k]).None?
  }

  method ValidateAll(capability: string, params: Json, ps: seq<ProfileParam>) returns (r: Result<Env, ConnectorError>)
    ensures r.Ok? ==> Validated(r.value, params, ps)
    ensures r.Err? ==> FirstFault(r.error, capability, params, ps)
  {
    var env: Env := map[];
    for i := 0 to |ps|
      invariant ValidatedTo(env, params, ps, i)
      invariant forall k :: 0 <= k < i ==> Fault(capability, params, ps[k]).None?
    {
      var raw := Extract(params, ps[i].name);
      if raw.None? {
        assert Fault(capability, params, ps[i]) == Some(MissingParam(capability, ps[i].name));
        return Err(MissingParam(capability, ps[i].name));
      }
      var v := Validate(raw.value, ps[i].class_);
      if v.Err? {
        assert Fault(capability, params, ps[i]) == Some(BadValue(ps[i].name, v.error));
        return Err(BadValue(ps[i].name, v.error));
      }
      ValidateOne(env, params, ps, i, raw.value);
      env := env[ps[i].name := raw.value];
    }
    return Ok(env);
  }

  lemma ValidateOne(env: Env, params: Json, ps: seq<ProfileParam>, i: nat, v: string)
    requires i < |ps| && ValidatedTo(env, params, ps, i)
    requires Extract(params, ps[i].name) == Some(v) && Validate(v, ps[i].class_).Ok?
    ensures ValidatedTo(env[ps[i].name := v], params, ps, i + 1)
  {
    var env' := env[ps[i].name := v];
    forall n | n in env'
      ensures DeclaredName(ps, i + 1, n)
    {
      if n == ps[i].name {
        assert ps[i].name == n;
      } else {
        assert DeclaredName(ps, i, n);
      }
    }
    forall j | 0 <= j < i + 1
      ensures ValidFor(env', params, ps[j])
    {
      assert j < i ==> ValidFor(env, params, ps[j]);
    }
  }

  /** The operation a template denotes under given values. */
  function Rendered(d: Declared, capability: string, env: Env, timeoutSecs: nat): Result<Op, ConnectorError>
  {
    var op := d.cap.op;
    match d.transport
    case Rest =>
      (match Expand(op.path, env)
       case Err(e) => Err(Reported(e, capability))
       case Ok(path) =>
         if op.body.None? then Ok(Http(op.verb, path, None, d.auth))
         else match FillJson(op.body.value, env)
              case Err(e) => Err(Reported(e, capability))
              case Ok(body) => Ok(Http(op.verb, path, Some(body), d.auth)))
    case Ssh =>
      if op.command.None? then Err(BadProfile(capability))
      else (match Expand(op.command.value, env)
            case Err(e) => Err(Reported(e, capability))
            case Ok(c) => Ok(ShellCommand(c, if op.timeoutSecs.Some? then op.timeoutSecs.value else timeoutSecs)))
    case Snmp =>
      if op.oid.None? then Err(BadProfile(capability))
      else match Expand(op.oid.value, env)
           case Err(e) => Err(Reported(e, capability))
           case Ok(o) => Ok(if op.walk then SnmpWalk(o) else SnmpGet(o))
  }

  /** Each operation is of its transport's kind and is made of the declared texts, filled:
      a REST call with the declared verb, path, body and authentication; a shell command
      with the capability's own timeout or else the caller's; a walk or a get as declared. */
  lemma RenderedByKind(d: Declared, capability: string, env: Env, timeoutSecs: nat, op: Op)
    ensures Rendered(d, capability, env, timeoutSecs) == Ok(op) <==>
            match op
            case Http(verb, path, body, auth) =>
              && d.transport == Rest && verb == d.cap.op.verb && auth == d.auth
              && Expand(d.cap.op.path, env) == Ok(path)
              && (if body.Some? then d.cap.op.body.Some? && FillJson(d.cap.op.body.value, env) == Ok(body.value)
                  else d.cap.op.body.None?)
            case ShellCommand(command, timeout) =>
              && d.transport == Ssh && d.cap.op.command.Some? && Expand(d.cap.op.command.value, env) == Ok(command)
              && (d.cap.op.timeoutSecs.Some? ==> timeout == d.cap.op.timeoutSecs.value)
              && (d.cap.op.timeoutSecs.None? ==> timeout == timeoutSecs)
            case SnmpWalk(oid) =>
              d.transport == Snmp && d.cap.op.walk && d.cap.op.oid.Some? && Expand(d.cap.op.oid.value, env) == Ok(oid)
            case SnmpGet(oid) =>
              d.transport == Snmp && !d.cap.op.walk && d.cap.op.oid.Some? && Expand(d.cap.op.oid.value, env) == Ok(oid)
  {
  }

  /** A parameter is taken from the string, number or truth value under its name. */
  lemma ExtractedFrom(params: Json, name: string, v: string)
    ensures Extract(params, name) == Some(v) <==>
            && params.Obj?
            && (|| Lookup(params.fields, name) == Some(Str(v)) || Lookup(params.fields, name) == Some(Num(v))
                || (Lookup(params.fields, name) == Some(Bool(true)) && v == "true")
                || (Lookup(params.fields, name) == Some(Bool(false)) && v == "false"))
  {
  }

  method RenderOp(d: Declared, capability: string, env: Env, timeoutSecs: nat) returns (r: Result<Op, ConnectorError>)
    ensures r == Rendered(d, capability, env, timeoutSecs)
  {
    var op := d.cap.op;
    match d.transport
    case Rest =>
      var path := ConnectorSubstitute(op.path, capability, env);
      if path.Err? { return Err(path.error); }
      if op.body.None? { return Ok(Http(op.verb, path.value, None, d.auth)); }
      var body := SubstituteJson(op.body.value, capability, env);
      if body.Err? { return Err(body.error); }
      return Ok(Http(op.verb, path.value, Some(body.value), d.auth));
    case Ssh =>
      if op.command.None? { return Err(BadProfile(capability)); }
      var command := ConnectorSubstitute(op.command.value, capability, env);
      if command.Err? { return Err(command.error); }
      return Ok(ShellCommand(command.value, if op.timeoutSecs.Some? then op.timeoutSecs.value else timeoutSecs));
    case Snmp =>
      if op.oid.None? { return Err(BadProfile(capability)); }
      var oid := ConnectorSubstitute(op.oid.value, capability, env);
      if oid.Err? { return Err(oid.error); }
      return Ok(if op.walk then SnmpWalk(oid.value) else SnmpGet(oid.value));
  }

  /** Every driver comes out of `FromProfiles`. */
  ghost predicate ValidDriver(d: Driver)
  {
    exists ds :: Loaded(d.capabilities, d.declared, ds)
  }

  /** What a dispatch hands to the broker: the operation rendered from validated
      values only, under a descriptor the driver has registered. */
  ghost predicate Submits(d: Driver, req: ExecRequest, actor: string, capability: string, target: string,
                          params: Json, timeoutSecs: nat, show: Op -> string)
  {
    && capability in d.declared
    && req.actor == actor && req.target == target
    && req.meta == Attached(d, capability) && req.meta.value in d.capabilities
    && req.capability == Some(capability) && req.meta.value.name == capability
    && exists env: Env ::
         && Validated(env, params, d.declared[capability].cap.params)
         && Rendered(d.declared[capability], capability, env, timeoutSecs).Ok?
         && req.op == show(Rendered(d.declared[capability], capability, env, timeoutSecs).value)
  }

  /** Why a dispatch may fail: a faulty parameter, the first in order; a template
      that cannot be filled from the values; or a target that does not parse. */
  ghost predicate Rejects(d: Declared, e: ConnectorError, capability: string, target: string, parsed: Option<string>,
                          params: Json, timeoutSecs: nat)
  {
    || FirstFault(e, capability, params, d.cap.params)
    || exists env: Env ::
         && Validated(env, params, d.cap.params)
         && var op := Rendered(d, capability, env, timeoutSecs);
            op == Err(e) || (op.Ok? && parsed.None? && e == BadTarget(target))
  }

  /** Up to the broker.  `parsed` is the parsed form of `target`, if it has one;
      `show` is how the broker describes an operation. */
  method Dispatch(d: Driver, actor: string, capability: string, target: string, parsed: Option<string>,
                  params: Json, timeoutSecs: nat, show: Op -> string)
    returns (r: Result<ExecRequest, ConnectorError>)
    requires ValidDriver(d)
    ensures capability !in d.declared <==> r == Err(UnknownCapability(capability))
    ensures r.Ok? ==> parsed.Some? && Submits(d, r.value, actor, capability, parsed.value, params, timeoutSecs, show)
    ensures r.Err? && capability in d.declared ==>
              Rejects(d.declared[capability], r.error, capability, target, parsed, params, timeoutSecs)
  {
    if capability !in d.declared { return Err(UnknownCapability(capability)); }
    var decl := d.declared[capability];
    var env := ValidateAll(capability, params, decl.cap.params);
    if env.Err? { return Err(env.error); }
    var op := RenderOp(decl, capability, env.value, timeoutSecs);
    if op.Err? { return Err(op.error); }
    if parsed.None? { return Err(BadTarget(target)); }
    ghost var ds :| Loaded(d.capabilities, d.declared, ds);
    AttachedIsRegistered(d, ds, capability);
    var req := WithCapabilityMeta(NewRequest(actor, parsed.value, show(op.value)), Project(decl.cap));
    return Ok(req);
  }

  // ----- the shape of what is sent ------------------------------------------

  predicate PlainClasses(ps: seq<ProfileParam>)
  {
    forall i :: 0 <= i < |ps| ==> ps[i].class_ == Identifier || ps[i].class_ == Int
  }

  /** With identifier and integer parameters only, the path of the request has the
      template's segments one for one, each filled on its own, and the body is the
      template's tree with only its string leaves filled. */
  lemma RequestKeepsShape(d: Declared, capability: string, params: Json, env: Env, timeoutSecs: nat)
    requires d.transport == Rest && PlainClasses(d.cap.params) && Validated(env, params, d.cap.params)
    requires Rendered(d, capability, env, timeoutSecs).Ok?
    ensures var op := Rendered(d, capability, env, timeoutSecs).value;
            && SegmentWise(Tokenize(d.cap.op.path).tokens, op.path, env)
            && (op.body.Some? <==> d.cap.op.body.Some?)
            && (op.body.Some? ==> Filling(d.cap.op.body.value, op.body.value, env))
  {
    var t := d.cap.op.path;
    PathShapeKeptIff(t, env);
    forall tok | tok in Tokenize(t).tokens && tok.Slot?
      ensures '/' !in env[tok.name]
    {
      assert DeclaredName(d.cap.params, |d.cap.params|, tok.name);
      var i :| 0 <= i < |d.cap.params| && d.cap.params[i].name == tok.name;
      assert ValidFor(env, params, d.cap.params[i]);
      ClassExcludes(env[tok.name], d.cap.params[i].class_);
    }
    if d.cap.op.body.Some? {
      FillJsonIff(d.cap.op.body.value, env);
    }
  }

  /** Safe text is not enough: it may contain a slash, and then even the template
      that is one slot is not kept in shape. */
  lemma SafeTextAddsSegment(v: string)
    requires '/' in v
    ensures Expand("{p}", map["p" := v]) == Ok(v)
    ensures !SegmentWise(Tokenize("{p}").tokens, v, map["p" := v])
    ensures Validate("/", SafeText).Ok?
  {
    var env: Env := map["p" := v];
    var t := "{" + "p" + "}" + "";
    assert t == "{p}";
    TokenizeSlot("p", "");
    ExpandSlot("p", "", env);
    ExpandPlain("", env);
    assert v + "" == v;
    PathShapeKeptIff(t, env);
    assert Slot("p") in Tokenize(t).tokens;
  }
}

/** From profiles to the transport: the connector, the boot lint and the guard
    together. */
module ConnectorSafety {
  import opened Wrappers
  import opened Capabilities
  import opened Policy
  import opened Broker
  import opened GuardProtocol
  import opened GuardSafety
  import opened Connector
  import opened Json

  lemma {:induction false} DriverCapsAreRegistered(drivers: seq<Driver>, a: nat, c: Capability)
    requires a < |drivers| && c in drivers[a].capabilities
    ensures c in Registered(drivers)
  {
    if a > 0 {
      assert drivers[1..][a - 1] == drivers[a];
      DriverCapsAreRegistered(drivers[1..], a - 1, c);
    }
  }

  /** When the boot lint accepts what the drivers registered, together with
      everything else that is registered, no write declared in a profile reaches a
      target without an approval, in any run and with any duplicate names. */
  lemma ConnectorWritesNeedApproval(rules: seq<Rule>, drivers: seq<Driver>, others: seq<Capability>, a: nat,
                                    actor: string, capability: string, target: string, params: Json, timeoutSecs: nat,
                                    show: Op -> string, ss: seq<State>, steps: seq<Step>, i: nat, k: nat)
    requires a < |drivers|
    requires LintWriteCapabilities(Some(rules), Registered(drivers) + others).Ok?
    requires IsRun(Gates(rules), ss, steps) && i <= |steps| && k < |ss[i].log|
    requires Submits(drivers[a], ss[i].log[k].req, actor, capability, target, params, timeoutSecs, show)
    ensures IsRead(Attached(drivers[a], capability).value) || exists id :: ApprovalOf(ss[i], id, ss[i].log[k].call)
  {
    DriverCapsAreRegistered(drivers, a, Attached(drivers[a], capability).value);
    LintedWritesNeedApproval(rules, Registered(drivers) + others, ss, steps, i, k);
  }
}
