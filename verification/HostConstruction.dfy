/**
  The construction code of a generated host (compiler/src/application.cpp:2177-2237, 2274-2324,
  2549-2582, 2631-2682, 3633-3654, 4127-4140, 4177-4218): which services are built while the
  application starts, which actions take a scope, how names are chosen, and the bindings of
  `BuildFoundationApplication`, `NewScope` and the activation of an action.

  Generated text is modelled as statements: one `Bind` per emitted constructor call. Parameter
  markers, type names, error propagation, the packages behind import aliases and everything about
  web routes but the name of the route table are left out.
 */
module HostConstruction {
  import opened Decimals
  import opened Wrappers
  import opened ServicePlan

  // ---------- names ----------

  predicate IsUpper(c: char) { 'A' <= c <= 'Z' }

  predicate IsLower(c: char) { 'a' <= c <= 'z' }

  function ToUpper(c: char): char {
    if IsLower(c) then ((c as int) - 32) as char else c
  }

  function Capitalized(value: string, capitalize: bool): string {
    if value == [] then []
    else
      var c := value[0];
      if !IsUpper(c) && !IsLower(c) && !IsDigit(c) && c != '_' then Capitalized(value[1..], true)
      else [if capitalize then ToUpper(c) else c] + Capitalized(value[1..], false)
  }

  function HostIdentifier(value: string): string {
    var r := Capitalized(value, true);
    if r == [] || IsDigit(r[0]) then "Action" + r else r
  }

  const PREFIX := "foundation"

  function FieldName(shortName: string): string {
    PREFIX + HostIdentifier(shortName)
  }

  function InputName(shortName: string, parameter: string): string {
    FieldName(shortName) + HostIdentifier(parameter)
  }

  predicate IsWord(value: string) {
    forall i :: 0 <= i < |value| ==> IsUpper(value[i]) || IsLower(value[i]) || IsDigit(value[i])
  }

  lemma {:induction false} WordUnchanged(value: string)
    requires IsWord(value)
    ensures Capitalized(value, false) == value
  {
    if value != [] {
      WordUnchanged(value[1..]);
    }
  }

  lemma NameUnchanged(value: string)
    requires IsWord(value) && value != [] && IsUpper(value[0])
    ensures FieldName(value) == PREFIX + value
  {
    var rest := value[1..];
    assert IsWord(rest);
    WordUnchanged(rest);
    hide IsWord;
    assert Capitalized(value, true) == [value[0]] + Capitalized(rest, false);
    assert [value[0]] + rest == value;
  }

  /** Every name the generator invents begins like this; no name of the program's `self` does. */
  predicate Generated(name: string) {
    PREFIX <= name
  }

  lemma SuffixInjective(base: string, a: nat, b: nat)
    requires base + Decimal(a) == base + Decimal(b)
    ensures a == b
  {
    assert (base + Decimal(a))[|base|..] == Decimal(a);
    assert (base + Decimal(b))[|base|..] == Decimal(b);
    DecimalInjective(a, b);
  }

  ghost predicate IsFirstFreeSuffix(base: string, used: set<string>, r: string, k: nat) {
    k >= 2 && r == base + Decimal(k) && forall j: nat | 2 <= j < k :: base + Decimal(j) in used
  }

  /** The base name, or the base name with a number from 2 on when all before it are used. */
  ghost predicate Numbered(base: string, used: set<string>, r: string) {
    r == base || (base in used && exists k: nat :: IsFirstFreeSuffix(base, used, r, k))
  }

  ghost predicate IsFirstFree(base: string, used: set<string>, r: string) {
    r !in used && Numbered(base, used, r)
  }

  lemma NumberedGrows(base: string, used: set<string>, more: set<string>, r: string)
    requires Numbered(base, used, r) && used <= more
    ensures Numbered(base, more, r)
  {
    if r != base {
      var k: nat :| IsFirstFreeSuffix(base, used, r, k);
      assert IsFirstFreeSuffix(base, more, r, k);
    }
  }

  lemma NumberedShape(base: string, used: set<string>, r: string)
    requires Numbered(base, used, r)
    ensures base <= r && (r == base || (EndsInDigit(r) && base in used))
  {
    if r != base {
      var k: nat :| IsFirstFreeSuffix(base, used, r, k);
      DecimalNonEmpty(k);
    }
  }

  ghost predicate TriedBefore(base: string, suffix: nat, x: string) {
    suffix > 2 && (x == base || exists j: nat :: 2 <= j < suffix - 1 && x == base + Decimal(j))
  }

  function Candidate(base: string, suffix: nat): string {
    if suffix <= 2 then base else base + Decimal(suffix - 1)
  }

  lemma CandidateIsNew(base: string, suffix: nat)
    requires suffix >= 2
    ensures !TriedBefore(base, suffix, Candidate(base, suffix))
  {
    if suffix > 2 {
      DecimalNonEmpty(suffix - 1);
      if j: nat :| 2 <= j < suffix - 1 && Candidate(base, suffix) == base + Decimal(j) {
        SuffixInjective(base, j, suffix - 1);
      }
    }
  }

  lemma TriedNext(base: string, suffix: nat, x: string)
    requires suffix >= 2
    ensures TriedBefore(base, suffix + 1, x)
            <==> TriedBefore(base, suffix, x) || x == Candidate(base, suffix)
  {
  }

  lemma Shrinks(used: set<string>, tried: set<string>, r: string)
    requires r in used && r !in tried
    ensures |used - (tried + {r})| < |used - tried|
  {
    var less, more := used - (tried + {r}), used - tried;
    assert less + {r} == more;
  }

  lemma FirstFree(base: string, used: set<string>, suffix: nat)
    requires suffix >= 2 && Candidate(base, suffix) !in used
    requires forall x | TriedBefore(base, suffix, x) :: x in used
    ensures IsFirstFree(base, used, Candidate(base, suffix))
  {
    if suffix > 2 {
      assert TriedBefore(base, suffix, base);
      forall j: nat | 2 <= j < suffix - 1 ensures base + Decimal(j) in used {
        assert TriedBefore(base, suffix, base + Decimal(j));
      }
      assert IsFirstFreeSuffix(base, used, Candidate(base, suffix), suffix - 1);
    }
  }

  method UniqueName(base: string, used: set<string>) returns (r: string)
    ensures IsFirstFree(base, used, r)
  {
    hide TriedBefore, Decimal;
    r := base;
    var suffix := 2;
    ghost var tried: set<string> := {};
    assert forall x :: !TriedBefore(base, 2, x) by {
      NothingTried(base);
    }
    while r in used
      invariant suffix >= 2 && r == Candidate(base, suffix)
      invariant tried <= used
      invariant forall x :: x in tried <==> TriedBefore(base, suffix, x)
      decreases |used - tried|
    {
      CandidateIsNew(base, suffix);
      Shrinks(used, tried, r);
      forall x ensures x in tried + {r} <==> TriedBefore(base, suffix + 1, x) {
        TriedNext(base, suffix, x);
      }
      tried := tried + {r};
      r := base + Decimal(suffix);
      suffix := suffix + 1;
    }
    FirstFree(base, used, suffix);
  }

  lemma NothingTried(base: string)
    ensures forall x :: !TriedBefore(base, 2, x)
  {
  }

  // ---------- planned hosts ----------

  /** The plans that passed, in construction order, and the short name of every service. */
  datatype Host = Host(plans: map<nat, Plan>, order: seq<nat>, shortNames: map<nat, string>)

  ghost predicate Ready(h: Host) {
    && Resolved(h.plans) && Distinct(h.order) && ProvidersFirst(h.plans, h.order)
    && (forall s :: s in h.order <==> s in h.plans) && h.plans.Keys <= h.shortNames.Keys
  }

  predicate Has(h: Host, s: nat, lifetime: Lifetime) {
    s in h.plans && h.plans[s].lifetime == lifetime
  }

  lemma DistinctPrefixes(order: seq<nat>)
    requires Distinct(order)
    ensures forall i :: 0 <= i < |order| ==> order[i] !in order[..i]
  {
  }

  function Position(h: Host, s: nat): nat {
    Find(h.order, s)
  }

  lemma ProviderPrecedes(h: Host, s: nat, d: nat)
    requires Ready(h) && d in Next(h.plans, s)
    ensures Position(h, d) < Position(h, s)
  {
    hide Resolved, Next;
    assert s in h.plans by {
      NextIsPlanned(h.plans, s, d);
    }
    var at := Find(h.order, s);
    assert d in h.order[..at];
    var j :| 0 <= j < at && h.order[j] == d;
    var first := Find(h.order, d);
    forall k | 0 <= k < first ensures h.order[k] != d {
      assert h.order[..first][k] == h.order[k];
    }
  }

  lemma PositionIdentifies(h: Host, s: nat)
    requires s in h.order
    ensures Position(h, s) < |h.order|
    ensures forall x | Position(h, x) == Position(h, s) :: x == s
  {
    assert h.order[..|h.order|] == h.order;
  }

  lemma NextIsPlanned(plans: map<nat, Plan>, s: nat, d: nat)
    requires d in Next(plans, s)
    ensures s in plans && d in plans
  {
  }

  // ---------- field names ----------

  predicate EndsInDigit(x: string) {
    x != [] && IsDigit(x[|x| - 1])
  }

  predicate Injective(fields: map<nat, string>) {
    forall a, b | a in fields && b in fields && fields[a] == fields[b] :: a == b
  }

  /** The fields of those services of a lifetime that have been named so far. */
  ghost predicate Assigned(h: Host, lifetime: Lifetime, named: set<nat>,
                           fields: map<nat, string>, used: set<string>)
    requires h.plans.Keys <= h.shortNames.Keys
  {
    && (forall s :: s in fields <==> s in named && Has(h, s, lifetime))
    && Injective(fields)
    && (forall s | s in fields ::
          Generated(fields[s]) && fields[s] in used
          && Numbered(FieldName(h.shortNames[s]), used, fields[s]))
  }

  lemma NoneAssigned(h: Host, lifetime: Lifetime)
    requires h.plans.Keys <= h.shortNames.Keys
    ensures Assigned(h, lifetime, {}, map[], {})
  {
  }

  lemma AssignSkips(h: Host, lifetime: Lifetime, named: set<nat>, fields: map<nat, string>,
                    used: set<string>, service: nat)
    requires h.plans.Keys <= h.shortNames.Keys && Assigned(h, lifetime, named, fields, used)
    requires !Has(h, service, lifetime)
    ensures Assigned(h, lifetime, named + {service}, fields, used)
  {
    hide Generated, FieldName, Numbered;
  }

  lemma AssignNext(h: Host, lifetime: Lifetime, named: set<nat>, fields: map<nat, string>,
                   used: set<string>, service: nat, field: string)
    requires h.plans.Keys <= h.shortNames.Keys && Assigned(h, lifetime, named, fields, used)
    requires service !in named && Has(h, service, lifetime)
    requires IsFirstFree(FieldName(h.shortNames[service]), used, field)
    ensures Assigned(h, lifetime, named + {service}, fields[service := field], used + {field})
    ensures service !in fields
  {
    hide FieldName, EndsInDigit, Generated, Injective, Numbered;
    NumberedShape(FieldName(h.shortNames[service]), used, field);
    FieldNameIsGenerated(h.shortNames[service]);
    GeneratedExtends(FieldName(h.shortNames[service]), field);
    InjectiveExtends(fields, service, field);
    forall s | s in fields[service := field]
      ensures Numbered(FieldName(h.shortNames[s]), used + {field}, fields[service := field][s])
    {
      NumberedGrows(FieldName(h.shortNames[s]), used, used + {field},
                    fields[service := field][s]);
    }
  }

  lemma InjectiveExtends(fields: map<nat, string>, s: nat, field: string)
    requires Injective(fields) && s !in fields && forall a | a in fields :: fields[a] != field
    ensures Injective(fields[s := field])
  {
  }

  lemma GeneratedExtends(base: string, name: string)
    requires Generated(base) && base <= name
    ensures Generated(name)
  {
  }

  /** A field is the name its service asks for, or that name with the first free number. */
  ghost predicate FieldsNamed(h: Host, fields: map<nat, string>) {
    forall s | s in fields ::
      s in h.shortNames && Generated(fields[s])
      && Numbered(FieldName(h.shortNames[s]), fields.Values, fields[s])
  }

  lemma AllAssigned(h: Host, lifetime: Lifetime, fields: map<nat, string>)
    requires h.plans.Keys <= h.shortNames.Keys
    requires Assigned(h, lifetime, h.plans.Keys, fields, fields.Values)
    ensures Injective(fields) && FieldsNamed(h, fields)
    ensures forall s :: s in fields <==> Has(h, s, lifetime)
    ensures forall x | !EndsInDigit(x) ::
              x in fields.Values <==>
              exists s :: Has(h, s, lifetime) && FieldName(h.shortNames[s]) == x
  {
    hide FieldName, EndsInDigit, Injective, Numbered;
    forall s | s in fields
      ensures FieldName(h.shortNames[s]) in fields.Values
              && (fields[s] == FieldName(h.shortNames[s]) || EndsInDigit(fields[s]))
    {
      NumberedShape(FieldName(h.shortNames[s]), fields.Values, fields[s]);
    }
    forall x | !EndsInDigit(x)
      ensures x in fields.Values <==>
              exists s :: Has(h, s, lifetime) && FieldName(h.shortNames[s]) == x
    {
      if x in fields.Values {
        var s: nat :| s in fields && fields[s] == x;
        assert Has(h, s, lifetime) && FieldName(h.shortNames[s]) == x;
      }
    }
  }

  /**
    The fields of the services of one lifetime: distinct, and a name that ends in no digit is a
    field exactly when some service of that lifetime asks for it.
   */
  method AssignFields(h: Host, lifetime: Lifetime) returns (fields: map<nat, string>)
    requires Ready(h)
    ensures forall s :: s in fields <==> Has(h, s, lifetime)
    ensures Injective(fields) && FieldsNamed(h, fields)
    ensures forall x | !EndsInDigit(x) ::
              x in fields.Values <==>
              exists s :: Has(h, s, lifetime) && FieldName(h.shortNames[s]) == x
  {
    hide IsFirstFree, Resolved, ProvidersFirst, FieldName, EndsInDigit, Distinct, Assigned,
      Injective, Generated, FieldsNamed;
    NoneAssigned(h, lifetime);
    DistinctPrefixes(h.order);
    fields := map[];
    var used: set<string> := {};
    ghost var named: set<nat> := {};
    var i := 0;
    while i < |h.order|
      invariant 0 <= i <= |h.order| && used == fields.Values
      invariant forall s :: s in named <==> s in h.order[..i]
      invariant Assigned(h, lifetime, named, fields, used)
    {
      var service := h.order[i];
      assert service !in named;
      if h.plans[service].lifetime == lifetime {
        var field := UniqueName(FieldName(h.shortNames[service]), used);
        AssignNext(h, lifetime, named, fields, used, service, field);
        NewFieldValues(fields, service, field);
        used := used + {field};
        fields := fields[service := field];
      } else {
        AssignSkips(h, lifetime, named, fields, used, service);
      }
      named := named + {service};
      i := i + 1;
    }
    assert h.order[..i] == h.order;
    assert named == h.plans.Keys;
    AllAssigned(h, lifetime, fields);
  }

  lemma FieldNameIsGenerated(shortName: string)
    ensures Generated(FieldName(shortName))
  {
  }

  lemma NewFieldValues(fields: map<nat, string>, s: nat, field: string)
    requires s !in fields
    ensures fields[s := field].Values == fields.Values + {field}
  {
    var r := fields[s := field];
    forall x | x in fields.Values ensures x in r.Values {
      var k :| k in fields && fields[k] == x;
      assert r[k] == x;
    }
    assert r[s] == field;
  }

  // ---------- what application start builds ----------

  predicate Walk(plans: map<nat, Plan>, from: nat, to: nat, path: seq<nat>) {
    path != [] && IsPath(plans, path) && path[0] == from && path[|path| - 1] == to
  }

  ghost predicate Reaches(plans: map<nat, Plan>, from: nat, to: nat) {
    exists path: seq<nat> :: Walk(plans, from, to, path)
  }

  /** A service that constructing some singleton constructs, directly or not. */
  ghost predicate BuiltAtStart(plans: map<nat, Plan>, s: nat) {
    exists x :: x in plans && plans[x].lifetime == Singleton && Reaches(plans, x, s)
  }

  lemma ReachesSelf(plans: map<nat, Plan>, s: nat)
    ensures Reaches(plans, s, s)
  {
    assert Walk(plans, s, s, [s]);
  }

  lemma StepReaches(plans: map<nat, Plan>, s: nat, d: nat, to: nat)
    requires d in Next(plans, s) && Reaches(plans, d, to)
    ensures Reaches(plans, s, to)
  {
    var path: seq<nat> :| Walk(plans, d, to, path);
    var longer := [s] + path;
    forall i | 0 <= i < |longer| - 1 ensures longer[i + 1] in Next(plans, longer[i]) {
      if i > 0 {
        assert path[i - 1 + 1] in Next(plans, path[i - 1]);
      }
    }
    assert Walk(plans, s, to, longer);
  }

  lemma {:induction false} ClosedHoldsWalk(plans: map<nat, Plan>, closed: set<nat>, path: seq<nat>,
                                           k: nat)
    requires IsPath(plans, path) && k < |path| && path[0] in closed
    requires forall s | s in closed :: Next(plans, s) <= closed
    ensures path[k] in closed
    decreases k
  {
    if k > 0 {
      ClosedHoldsWalk(plans, closed, path, k - 1);
      assert path[k - 1 + 1] in Next(plans, path[k - 1]);
    }
  }

  class BuildCollector {
    const plans: map<nat, Plan>
    var built: set<nat>

    constructor (plans: map<nat, Plan>)
      ensures this.plans == plans && built == {}
    {
      this.plans, built := plans, {};
    }

    /** `open` are the services whose dependencies are still being followed. */
    method Collect(service: nat, ghost open: set<nat>)
      requires service in plans
      requires forall s | s in built - open :: Next(plans, s) <= built
      modifies this
      ensures old(built) <= built && service in built
      ensures forall s | s in built - open :: Next(plans, s) <= built
      ensures forall s | s in built - old(built) :: s in plans && Reaches(plans, service, s)
      decreases plans.Keys - built
    {
      hide Reaches;
      if service in built {
        return;
      }
      ReachesSelf(plans, service);
      built := built + {service};
      var dependencies := plans[service].dependencies;
      var i := 0;
      while i < |dependencies|
        invariant 0 <= i <= |dependencies|
        invariant old(built) + {service} <= built
        invariant forall s | s in built - open - {service} :: Next(plans, s) <= built
        invariant forall s | s in built - old(built) :: s in plans && Reaches(plans, service, s)
        invariant forall d | d in Providers(dependencies[..i]) && d in plans :: d in built
      {
        var d := dependencies[i];
        assert dependencies[..i + 1] == dependencies[..i] + [d];
        ProvidersAppend(dependencies[..i], d);
        if d.provider.Some? && d.provider.value in plans {
          assert d in dependencies;
          ghost var before := built;
          Collect(d.provider.value, open + {service});
          forall s | s in built - before ensures Reaches(plans, service, s) {
            StepReaches(plans, service, d.provider.value, s);
          }
        }
        i := i + 1;
      }
      assert dependencies[..i] == dependencies;
    }

    method BuildServices()
      requires built == {}
      modifies this
      ensures forall s :: s in built <==> BuiltAtStart(plans, s)
    {
      hide Reaches;
      var remaining := plans.Keys;
      while remaining != {}
        invariant remaining <= plans.Keys
        invariant forall s | s in built :: Next(plans, s) <= built
        invariant forall s | s in built :: BuiltAtStart(plans, s)
        invariant forall s | s in plans.Keys - remaining && plans[s].lifetime == Singleton ::
                    s in built
      {
        var s :| s in remaining;
        remaining := remaining - {s};
        if plans[s].lifetime == Singleton {
          ghost var before := built;
          Collect(s, {});
          forall x | x in built - before ensures BuiltAtStart(plans, x) {
            assert Reaches(plans, s, x);
          }
        }
      }
      forall s | BuiltAtStart(plans, s) ensures s in built {
        BuiltAreCollected(plans, built, s);
      }
    }
  }

  lemma BuiltAreCollected(plans: map<nat, Plan>, built: set<nat>, s: nat)
    requires forall x | x in built :: Next(plans, x) <= built
    requires forall x | x in plans && plans[x].lifetime == Singleton :: x in built
    requires BuiltAtStart(plans, s)
    ensures s in built
  {
    var x :| x in plans && plans[x].lifetime == Singleton && Reaches(plans, x, s);
    var path: seq<nat> :| Walk(plans, x, s, path);
    ClosedHoldsWalk(plans, built, path, |path| - 1);
  }

  /** No stored service is handed over by a transfer. */
  predicate TransfersAreTransient(plans: map<nat, Plan>) {
    forall s, d | s in plans && d in plans[s].dependencies
                  && d.mode == Transfer && d.provider.Some? && d.provider.value in plans ::
      plans[d.provider.value].lifetime == Transient
  }

  ghost predicate StartIsUnscoped(plans: map<nat, Plan>) {
    forall s | s in plans && BuiltAtStart(plans, s) :: plans[s].lifetime != Scoped
  }

  /** The lifetime diagnostics FDN2338 and FDN2333. */
  method LifetimesPass(plans: map<nat, Plan>) returns (ok: bool)
    requires Resolved(plans)
    ensures ok <==> StartIsUnscoped(plans) && TransfersAreTransient(plans)
  {
    hide BuiltAtStart, Resolved;
    var collector := new BuildCollector(plans);
    collector.BuildServices();
    ok := true;
    var remaining := plans.Keys;
    while remaining != {}
      invariant remaining <= plans.Keys
      invariant ok <==> forall s | s in plans.Keys - remaining ::
                  (plans[s].lifetime == Scoped ==> s !in collector.built)
                  && TransfersPass(plans, plans[s].dependencies)
    {
      var s :| s in remaining;
      remaining := remaining - {s};
      if plans[s].lifetime == Scoped && s in collector.built {
        ok := false;
      }
      if !TransfersPass(plans, plans[s].dependencies) {
        ok := false;
      }
    }
  }

  predicate TransfersPass(plans: map<nat, Plan>, dependencies: seq<Dependency>) {
    forall d | d in dependencies && d.mode == Transfer && d.provider.Some?
               && d.provider.value in plans :: plans[d.provider.value].lifetime == Transient
  }

  // ---------- which services need a scope ----------

  /** A scoped service at the end of a chain of transient ones. */
  predicate ScopeWalk(plans: map<nat, Plan>, s: nat, path: seq<nat>) {
    && path != [] && path[0] == s && IsPath(plans, path)
    && path[|path| - 1] in plans && plans[path[|path| - 1]].lifetime == Scoped
    && forall i :: 0 <= i < |path| - 1 ==>
         path[i] in plans && plans[path[i]].lifetime == Transient
  }

  ghost predicate ReachesScope(plans: map<nat, Plan>, s: nat) {
    exists path: seq<nat> :: ScopeWalk(plans, s, path)
  }

  lemma ReachesScopeStep(plans: map<nat, Plan>, s: nat)
    requires s in plans
    ensures plans[s].lifetime == Scoped ==> ReachesScope(plans, s)
    ensures plans[s].lifetime == Singleton ==> !ReachesScope(plans, s)
    ensures plans[s].lifetime == Transient ==>
              (ReachesScope(plans, s) <==>
               exists d :: d in Next(plans, s) && ReachesScope(plans, d))
  {
    if plans[s].lifetime == Scoped {
      assert ScopeWalk(plans, s, [s]);
    } else if plans[s].lifetime == Singleton {
      forall path: seq<nat> ensures !ScopeWalk(plans, s, path) {
      }
    } else {
      if ReachesScope(plans, s) {
        var path: seq<nat> :| ScopeWalk(plans, s, path);
        assert path[0 + 1] in Next(plans, path[0]);
        var rest := path[1..];
        forall i | 0 <= i < |rest| - 1 ensures rest[i + 1] in Next(plans, rest[i]) {
          assert path[i + 1 + 1] in Next(plans, path[i + 1]);
        }
        assert ScopeWalk(plans, rest[0], rest);
      }
      if d: nat :| d in Next(plans, s) && ReachesScope(plans, d) {
        var path: seq<nat> :| ScopeWalk(plans, d, path);
        var longer := [s] + path;
        forall i | 0 <= i < |longer| - 1 ensures longer[i + 1] in Next(plans, longer[i]) {
          if i > 0 {
            assert path[i - 1 + 1] in Next(plans, path[i - 1]);
          }
        }
        assert ScopeWalk(plans, s, longer);
      }
    }
  }

  class ScopeOracle {
    const host: Host
    var memo: map<nat, bool>

    constructor (host: Host)
      requires Ready(host)
      ensures this.host == host && memo == map[] && AllRight()
    {
      this.host, memo := host, map[];
    }

    /** Answers about services below a position are final; those above may be provisional. */
    ghost predicate Right(bound: nat)
      reads this
    {
      forall s | s in memo && Position(host, s) < bound ::
        memo[s] == ReachesScope(host.plans, s)
    }

    ghost predicate AllRight()
      reads this
    {
      forall s | s in memo :: memo[s] == ReachesScope(host.plans, s)
    }

    lemma AllRightBelow(service: nat)
      requires AllRight()
      ensures Right(Position(host, service) + 1)
    {
    }

    /** What a call left above its service was right before, so it is right after. */
    lemma StillAllRight(service: nat, before: map<nat, bool>)
      requires Right(Position(host, service) + 1)
      requires forall s | s in before :: before[s] == ReachesScope(host.plans, s)
      requires forall s | Position(host, s) > Position(host, service) ::
                 (s in memo <==> s in before) && (s in memo ==> memo[s] == before[s])
      ensures AllRight()
    {
      hide Position, ReachesScope;
    }

    method RequiresScope(service: nat) returns (r: bool)
      requires Ready(host) && service in host.plans && Right(Position(host, service) + 1)
      modifies this
      ensures r == ReachesScope(host.plans, service)
      ensures Right(Position(host, service) + 1)
      ensures forall s | Position(host, s) > Position(host, service) ::
                (s in memo <==> s in old(memo)) && (s in memo ==> memo[s] == old(memo)[s])
      decreases Position(host, service)
    {
      hide Position, ReachesScope, Next, Resolved, ProvidersFirst;
      if service in memo {
        return memo[service];
      }
      PositionIdentifies(host, service);
      ReachesScopeStep(host.plans, service);
      if host.plans[service].lifetime == Scoped {
        memo := memo[service := true];
        return true;
      }
      if host.plans[service].lifetime == Singleton {
        memo := memo[service := false];
        return false;
      }
      memo := memo[service := false];
      var dependencies := host.plans[service].dependencies;
      var i := 0;
      while i < |dependencies|
        invariant 0 <= i <= |dependencies|
        invariant Right(Position(host, service))
        invariant service in memo && !memo[service]
        invariant forall s | Position(host, s) > Position(host, service) ::
                    (s in memo <==> s in old(memo)) && (s in memo ==> memo[s] == old(memo)[s])
        invariant forall d | d in Providers(dependencies[..i]) :: !ReachesScope(host.plans, d)
      {
        var d := dependencies[i];
        assert dependencies[..i + 1] == dependencies[..i] + [d];
        ProvidersAppend(dependencies[..i], d);
        if d.provider.Some? {
          ProviderIsNext(host, service, d);
          ProviderPrecedes(host, service, d.provider.value);
          var found := RequiresScope(d.provider.value);
          if found {
            memo := memo[service := true];
            return true;
          }
        }
        i := i + 1;
      }
      assert dependencies[..i] == dependencies;
      NextAreProviders(host.plans, service);
      return false;
    }
  }

  lemma ProviderIsNext(h: Host, s: nat, d: Dependency)
    requires Ready(h) && s in h.plans && d in h.plans[s].dependencies && d.provider.Some?
    ensures d.provider.value in Next(h.plans, s) && d.provider.value in h.plans
  {
  }

  lemma NextAreProviders(plans: map<nat, Plan>, s: nat)
    requires s in plans
    ensures Next(plans, s) <= Providers(plans[s].dependencies)
  {
  }

  // ---------- emitted statements ----------

  datatype Argument =
    | Plain(name: string)
    | ApplicationField(field: string)
    | ScopeField(scope: string, field: string)

  /** `name = constructor of service(arguments)`, returning early when a fallible one fails. */
  datatype Statement = Bind(name: string, service: nat, arguments: seq<Argument>, mutable: bool,
                            fallible: bool)

  /** Where code is generated: the fields, the receivers in scope there, the reserved names. */
  datatype Site = Site(host: Host, fields: map<nat, string>, scopeFields: map<nat, string>,
                       applicationReceiver: bool, scopeReceiver: bool, scopeName: string,
                       reserved: set<string>)

  ghost predicate ReadySite(site: Site) {
    && Ready(site.host)
    && (forall s :: s in site.fields <==> Has(site.host, s, Singleton))
    && (forall s :: s in site.scopeFields <==> Has(site.host, s, Scoped))
  }

  datatype Emission = Emission(inputs: seq<string>, identifiers: set<string>,
                               body: seq<Statement>)

  predicate Binds(body: seq<Statement>, name: string, service: nat) {
    exists j :: 0 <= j < |body| && body[j].name == name && body[j].service == service
  }

  /** An argument denotes an input, or an instance of its provider that exists by then. */
  predicate Denotes(site: Site, inputs: seq<string>, before: seq<Statement>, d: Dependency,
                    a: Argument)
  {
    if d.input then a.Plain? && a.name in inputs
    else
      && d.provider.Some?
      && var p := d.provider.value;
         if p in site.fields then
           if site.applicationReceiver then a == ApplicationField(site.fields[p])
           else a == Plain(site.fields[p]) && Binds(before, site.fields[p], p)
         else if p in site.scopeFields then
           if site.scopeReceiver then a == ScopeField(site.scopeName, site.scopeFields[p])
           else a == Plain(site.scopeFields[p]) && Binds(before, site.scopeFields[p], p)
         else a.Plain? && Binds(before, a.name, p)
  }

  predicate AllDenote(site: Site, inputs: seq<string>, before: seq<Statement>,
                      dependencies: seq<Dependency>, arguments: seq<Argument>)
  {
    && |dependencies| == |arguments|
    && forall k :: 0 <= k < |arguments| ==>
         Denotes(site, inputs, before, dependencies[k], arguments[k])
  }

  predicate GoodStatement(site: Site, inputs: seq<string>, before: seq<Statement>, st: Statement) {
    && st.service in site.host.plans
    && st.fallible == site.host.plans[st.service].fallible
    && AllDenote(site, inputs, before, site.host.plans[st.service].dependencies, st.arguments)
  }

  /** Every name a statement uses is bound before it. */
  predicate BoundBeforeUse(site: Site, inputs: seq<string>, body: seq<Statement>) {
    forall i :: 0 <= i < |body| ==> GoodStatement(site, inputs, body[..i], body[i])
  }

  /** No two binders share a name, and no binder reuses a reserved identifier by accident. */
  predicate DistinctBinders(e: Emission) {
    && (forall i, j :: 0 <= i < j < |e.inputs| ==> e.inputs[i] != e.inputs[j])
    && (forall i, j :: 0 <= i < j < |e.body| ==> e.body[i].name != e.body[j].name)
    && (forall i, j :: 0 <= i < |e.inputs| && 0 <= j < |e.body| ==> e.inputs[i] != e.body[j].name)
    && (forall i :: 0 <= i < |e.inputs| ==>
          e.inputs[i] in e.identifiers && Generated(e.inputs[i]))
    && (forall j :: 0 <= j < |e.body| ==>
          e.body[j].name in e.identifiers && Generated(e.body[j].name))
  }

  predicate Unbound(e: Emission, name: string) {
    && (forall i :: 0 <= i < |e.inputs| ==> e.inputs[i] != name)
    && (forall j :: 0 <= j < |e.body| ==> e.body[j].name != name)
  }

  /** The name for an input of some service. */
  ghost predicate NamesInput(used: set<string>, name: string) {
    exists shortName, parameter :: Numbered(InputName(shortName, parameter), used, name)
  }

  /** The name for an instance of a service. */
  ghost predicate NamesService(h: Host, used: set<string>, s: nat, name: string) {
    s in h.shortNames && Numbered(FieldName(h.shortNames[s]), used, name)
  }

  /** Binders are named after what they stand for, and whatever is taken is reserved or bound. */
  ghost predicate NamesChosen(site: Site, e: Emission) {
    && (forall i :: 0 <= i < |e.inputs| ==> NamesInput(e.identifiers, e.inputs[i]))
    && (forall j :: 0 <= j < |e.body| ==>
          NamesService(site.host, e.identifiers, e.body[j].service, e.body[j].name))
    && (forall x | x in e.identifiers :: x in site.reserved || !Unbound(e, x))
  }

  // ---------- every input and transient instance is used exactly once ----------

  predicate Consumed(site: Site, d: Dependency) {
    d.input || (d.provider.Some? && Has(site.host, d.provider.value, Transient))
  }

  function Uses(site: Site, dependencies: seq<Dependency>, arguments: seq<Argument>)
    : multiset<string>
    requires |arguments| <= |dependencies|
  {
    if arguments == [] then multiset{}
    else
      var n := |arguments| - 1;
      Uses(site, dependencies, arguments[..n])
      + if Consumed(site, dependencies[n]) && arguments[n].Plain?
        then multiset{arguments[n].name} else multiset{}
  }

  function StatementUses(site: Site, st: Statement): multiset<string> {
    if st.service in site.host.plans
       && |st.arguments| <= |site.host.plans[st.service].dependencies|
    then Uses(site, site.host.plans[st.service].dependencies, st.arguments)
    else multiset{}
  }

  /** The names that the statements consume, with repetitions. */
  function BodyUses(site: Site, body: seq<Statement>): multiset<string> {
    if body == [] then multiset{}
    else BodyUses(site, body[..|body| - 1]) + StatementUses(site, body[|body| - 1])
  }

  /** The names of the transient instances that the statements construct. */
  function TransientNames(site: Site, body: seq<Statement>): multiset<string> {
    if body == [] then multiset{}
    else
      var last := body[|body| - 1];
      TransientNames(site, body[..|body| - 1])
      + if Has(site.host, last.service, Transient) then multiset{last.name} else multiset{}
  }

  /** What is bound is used once, but for the names in `pending`, which are still unused. */
  predicate Balanced(site: Site, e: Emission, pending: multiset<string>) {
    multiset(e.inputs) + TransientNames(site, e.body) == BodyUses(site, e.body) + pending
  }

  ghost predicate WellEmitted(site: Site, e: Emission) {
    DistinctBinders(e) && BoundBeforeUse(site, e.inputs, e.body) && NamesChosen(site, e)
  }

  // ---------- the steps of an emission ----------

  predicate Prefixed(a: Emission, b: Emission) {
    a.inputs <= b.inputs && a.body <= b.body && a.identifiers <= b.identifiers
  }

  /** New names are fresh, and the new statements construct transient services only. */
  predicate Grown(site: Site, a: Emission, b: Emission) {
    && Prefixed(a, b)
    && (forall i :: |a.inputs| <= i < |b.inputs| ==> b.inputs[i] !in a.identifiers)
    && (forall j :: |a.body| <= j < |b.body| ==>
          b.body[j].name !in a.identifiers && Has(site.host, b.body[j].service, Transient))
  }

  lemma GrownTransitive(site: Site, a: Emission, b: Emission, c: Emission)
    requires Grown(site, a, b) && Grown(site, b, c)
    ensures Grown(site, a, c)
  {
    forall i | |a.inputs| <= i < |c.inputs| ensures c.inputs[i] !in a.identifiers {
      if i < |b.inputs| {
        assert c.inputs[i] == b.inputs[i];
      }
    }
    forall j | |a.body| <= j < |c.body|
      ensures c.body[j].name !in a.identifiers && Has(site.host, c.body[j].service, Transient)
    {
      if j < |b.body| {
        assert c.body[j] == b.body[j];
      }
    }
  }

  lemma DenotesGrows(site: Site, a: Emission, b: Emission, d: Dependency, argument: Argument)
    requires Prefixed(a, b) && Denotes(site, a.inputs, a.body, d, argument)
    ensures Denotes(site, b.inputs, b.body, d, argument)
  {
    forall name, p | Binds(a.body, name, p) ensures Binds(b.body, name, p) {
      BindsGrows(a.body, b.body, name, p);
    }
  }

  lemma BindsGrows(a: seq<Statement>, b: seq<Statement>, name: string, p: nat)
    requires a <= b && Binds(a, name, p)
    ensures Binds(b, name, p)
  {
    var j :| 0 <= j < |a| && a[j].name == name && a[j].service == p;
    assert b[j] == a[j];
  }

  function AddInput(e: Emission, name: string): Emission {
    e.(inputs := e.inputs + [name], identifiers := e.identifiers + {name})
  }

  lemma AddInputDistinct(e: Emission, name: string)
    requires DistinctBinders(e) && name !in e.identifiers && Generated(name)
    ensures DistinctBinders(AddInput(e, name))
  {
    hide Generated;
    var r := AddInput(e, name);
    assert forall i :: 0 <= i < |e.inputs| ==> r.inputs[i] == e.inputs[i] && e.inputs[i] != name;
    assert forall j :: 0 <= j < |e.body| ==> r.body[j] == e.body[j] && e.body[j].name != name;
    assert r.inputs[|e.inputs|] == name;
  }

  lemma AddInputBound(site: Site, e: Emission, name: string)
    requires BoundBeforeUse(site, e.inputs, e.body)
    ensures BoundBeforeUse(site, AddInput(e, name).inputs, AddInput(e, name).body)
  {
    hide Denotes;
    var r := AddInput(e, name);
    forall i | 0 <= i < |r.body| ensures GoodStatement(site, r.inputs, r.body[..i], r.body[i]) {
      var st := e.body[i];
      assert GoodStatement(site, e.inputs, e.body[..i], st);
      var dependencies := site.host.plans[st.service].dependencies;
      forall k | 0 <= k < |st.arguments|
        ensures Denotes(site, r.inputs, r.body[..i], dependencies[k], st.arguments[k])
      {
        DenotesGrows(site, e.(body := e.body[..i]), r.(body := r.body[..i]), dependencies[k],
                     st.arguments[k]);
      }
    }
  }

  lemma AddInputNamed(site: Site, e: Emission, name: string)
    requires NamesChosen(site, e) && NamesInput(e.identifiers, name)
    ensures NamesChosen(site, AddInput(e, name))
  {
    hide NamesInput, NamesService;
    var r := AddInput(e, name);
    assert r.inputs[|e.inputs|] == name;
    forall i | 0 <= i < |r.inputs| ensures NamesInput(r.identifiers, r.inputs[i]) {
      NamesInputGrows(e.identifiers, r.identifiers, r.inputs[i]);
    }
    forall j | 0 <= j < |r.body|
      ensures NamesService(site.host, r.identifiers, r.body[j].service, r.body[j].name)
    {
      NamesServiceGrows(site.host, e.identifiers, r.identifiers, e.body[j].service,
                        e.body[j].name);
    }
    forall x | x in r.identifiers && x !in site.reserved ensures !Unbound(r, x) {
      if !Unbound(e, x) {
        StaysBound(e, r, x);
      }
    }
  }

  lemma NamesInputGrows(used: set<string>, more: set<string>, name: string)
    requires NamesInput(used, name) && used <= more
    ensures NamesInput(more, name)
  {
    hide InputName, Numbered;
    var shortName, parameter :| Numbered(InputName(shortName, parameter), used, name);
    NumberedGrows(InputName(shortName, parameter), used, more, name);
  }

  lemma NamesServiceGrows(h: Host, used: set<string>, more: set<string>, s: nat, name: string)
    requires NamesService(h, used, s, name) && used <= more
    ensures NamesService(h, more, s, name)
  {
    hide FieldName, Numbered;
    NumberedGrows(FieldName(h.shortNames[s]), used, more, name);
  }

  lemma StaysBound(a: Emission, b: Emission, name: string)
    requires a.inputs <= b.inputs && a.body <= b.body && !Unbound(a, name)
    ensures !Unbound(b, name)
  {
    assert forall i :: 0 <= i < |a.inputs| ==> a.inputs[i] == b.inputs[i];
    assert forall j :: 0 <= j < |a.body| ==> a.body[j] == b.body[j];
  }

  lemma AddInputGood(site: Site, e: Emission, name: string, pending: multiset<string>)
    requires WellEmitted(site, e) && Balanced(site, e, pending)
    requires name !in e.identifiers && Generated(name) && NamesInput(e.identifiers, name)
    ensures WellEmitted(site, AddInput(e, name))
    ensures Balanced(site, AddInput(e, name), pending + multiset{name})
    ensures Grown(site, e, AddInput(e, name))
  {
    hide DistinctBinders, BoundBeforeUse, Generated, NamesChosen, NamesInput;
    AddInputDistinct(e, name);
    AddInputBound(site, e, name);
    AddInputNamed(site, e, name);
    assert multiset(e.inputs + [name]) + TransientNames(site, e.body)
           == (multiset(e.inputs) + TransientNames(site, e.body)) + multiset{name};
    assert (BodyUses(site, e.body) + pending) + multiset{name}
           == BodyUses(site, e.body) + (pending + multiset{name});
  }

  function AddBind(e: Emission, st: Statement): Emission {
    e.(body := e.body + [st], identifiers := e.identifiers + {st.name})
  }

  lemma AddBindDistinct(e: Emission, st: Statement)
    requires DistinctBinders(e) && Unbound(e, st.name) && Generated(st.name)
    ensures DistinctBinders(AddBind(e, st))
  {
    hide Generated;
    var r := AddBind(e, st);
    assert forall j :: 0 <= j < |e.body| ==> r.body[j] == e.body[j] && e.body[j].name != st.name;
    assert forall i :: 0 <= i < |e.inputs| ==> e.inputs[i] != st.name;
    assert r.body[|e.body|] == st;
  }

  lemma AddBindBound(site: Site, e: Emission, st: Statement)
    requires BoundBeforeUse(site, e.inputs, e.body)
    requires GoodStatement(site, e.inputs, e.body, st)
    ensures BoundBeforeUse(site, e.inputs, e.body + [st])
  {
    hide GoodStatement;
    var body := e.body + [st];
    forall i | 0 <= i < |body| ensures GoodStatement(site, e.inputs, body[..i], body[i]) {
      if i < |e.body| {
        assert body[..i] == e.body[..i];
      } else {
        assert body[..i] == e.body;
      }
    }
  }

  lemma AddBindBalanced(site: Site, e: Emission, st: Statement, pending: multiset<string>)
    requires Balanced(site, e, pending + StatementUses(site, st))
    ensures Balanced(site, AddBind(e, st), pending
              + if Has(site.host, st.service, Transient) then multiset{st.name} else multiset{})
  {
    hide StatementUses;
    var r := AddBind(e, st);
    assert r.body[..|e.body|] == e.body;
    var bound := if Has(site.host, st.service, Transient) then multiset{st.name} else multiset{};
    var names, uses := TransientNames(site, e.body), BodyUses(site, e.body);
    assert TransientNames(site, r.body) == names + bound;
    assert BodyUses(site, r.body) == uses + StatementUses(site, st);
    assert multiset(e.inputs) + (names + bound) == (multiset(e.inputs) + names) + bound;
    assert (uses + (pending + StatementUses(site, st))) + bound
           == (uses + StatementUses(site, st)) + (pending + bound);
  }

  lemma AddBindNamed(site: Site, e: Emission, st: Statement)
    requires NamesChosen(site, e) && NamesService(site.host, e.identifiers, st.service, st.name)
    ensures NamesChosen(site, AddBind(e, st))
  {
    hide NamesInput, NamesService;
    var r := AddBind(e, st);
    assert r.body[|e.body|] == st;
    forall i | 0 <= i < |r.inputs| ensures NamesInput(r.identifiers, r.inputs[i]) {
      NamesInputGrows(e.identifiers, r.identifiers, e.inputs[i]);
    }
    forall j | 0 <= j < |r.body|
      ensures NamesService(site.host, r.identifiers, r.body[j].service, r.body[j].name)
    {
      NamesServiceGrows(site.host, e.identifiers, r.identifiers, r.body[j].service,
                        r.body[j].name);
    }
    forall x | x in r.identifiers && x !in site.reserved ensures !Unbound(r, x) {
      if !Unbound(e, x) {
        StaysBound(e, r, x);
      }
    }
  }

  lemma AddBindGood(site: Site, e: Emission, st: Statement, pending: multiset<string>)
    requires WellEmitted(site, e) && Unbound(e, st.name) && Generated(st.name)
    requires NamesService(site.host, e.identifiers, st.service, st.name)
    requires GoodStatement(site, e.inputs, e.body, st)
    requires Balanced(site, e, pending + StatementUses(site, st))
    ensures WellEmitted(site, AddBind(e, st))
    ensures Balanced(site, AddBind(e, st), pending
              + if Has(site.host, st.service, Transient) then multiset{st.name} else multiset{})
  {
    hide GoodStatement, StatementUses, Generated, DistinctBinders, BoundBeforeUse, Balanced,
      NamesChosen, NamesService;
    AddBindNamed(site, e, st);
    AddBindDistinct(e, st);
    AddBindBound(site, e, st);
    AddBindBalanced(site, e, st, pending);
  }

  // ---------- what an emission may rely on ----------

  /** `p` is used to construct `s`, directly or inside transient services only. */
  predicate NeedWalk(plans: map<nat, Plan>, s: nat, p: nat, path: seq<nat>) {
    && |path| > 1 && path[0] == s && path[|path| - 1] == p && IsPath(plans, path)
    && forall i :: 0 < i < |path| - 1 ==>
         path[i] in plans && plans[path[i]].lifetime == Transient
  }

  ghost predicate Needs(plans: map<nat, Plan>, s: nat, p: nat) {
    exists path: seq<nat> :: NeedWalk(plans, s, p, path)
  }

  lemma NeedsProviders(plans: map<nat, Plan>, s: nat, d: nat)
    requires d in Next(plans, s)
    ensures Needs(plans, s, d)
  {
    assert NeedWalk(plans, s, d, [s, d]);
  }

  lemma NeedsThrough(plans: map<nat, Plan>, s: nat, d: nat, p: nat)
    requires d in Next(plans, s) && d in plans && plans[d].lifetime == Transient
    requires Needs(plans, d, p)
    ensures Needs(plans, s, p)
  {
    var path: seq<nat> :| NeedWalk(plans, d, p, path);
    var longer := [s] + path;
    forall i | 0 <= i < |longer| - 1 ensures longer[i + 1] in Next(plans, longer[i]) {
      if i > 0 {
        assert path[i - 1 + 1] in Next(plans, path[i - 1]);
      }
    }
    assert NeedWalk(plans, s, p, longer);
  }

  lemma NeedsReaches(plans: map<nat, Plan>, s: nat, p: nat)
    requires Needs(plans, s, p)
    ensures Reaches(plans, s, p)
  {
    var path: seq<nat> :| NeedWalk(plans, s, p, path);
    assert Walk(plans, s, p, path);
  }

  lemma NeedsScope(plans: map<nat, Plan>, s: nat, p: nat)
    requires Needs(plans, s, p) && s in plans && plans[s].lifetime == Transient
    requires p in plans && plans[p].lifetime == Scoped
    ensures ReachesScope(plans, s)
  {
    var path: seq<nat> :| NeedWalk(plans, s, p, path);
    assert ScopeWalk(plans, s, path);
  }

  lemma {:induction false} WalkDescends(h: Host, path: seq<nat>, k: nat)
    requires Ready(h) && IsPath(h.plans, path) && k < |path|
    ensures k > 0 ==> Position(h, path[k]) < Position(h, path[0]) && path[k] in h.plans
    decreases k
  {
    hide Ready, Position;
    if k > 0 {
      WalkDescends(h, path, k - 1);
      assert path[k - 1 + 1] in Next(h.plans, path[k - 1]);
      ProviderPrecedes(h, path[k - 1], path[k]);
      NextIsPlanned(h.plans, path[k - 1], path[k]);
    }
  }

  lemma NeedsPrecede(h: Host, s: nat, p: nat)
    requires Ready(h) && Needs(h.plans, s, p)
    ensures Position(h, p) < Position(h, s) && p in h.plans
  {
    var path: seq<nat> :| NeedWalk(h.plans, s, p, path);
    WalkDescends(h, path, |path| - 1);
  }

  /** The stored services that constructing `s` uses are reachable from this site by now. */
  ghost predicate Served(site: Site, body: seq<Statement>, s: nat) {
    forall p | Needs(site.host.plans, s, p) ::
      && (p in site.fields ==> site.applicationReceiver || Binds(body, site.fields[p], p))
      && (p in site.scopeFields ==> site.scopeReceiver || Binds(body, site.scopeFields[p], p))
  }

  lemma ServedGrows(site: Site, a: seq<Statement>, b: seq<Statement>, s: nat)
    requires a <= b && Served(site, a, s)
    ensures Served(site, b, s)
  {
    hide Needs, Binds;
    forall p | Needs(site.host.plans, s, p)
      ensures p in site.fields ==> site.applicationReceiver || Binds(b, site.fields[p], p)
      ensures p in site.scopeFields ==> site.scopeReceiver || Binds(b, site.scopeFields[p], p)
    {
      if p in site.fields && Binds(a, site.fields[p], p) {
        BindsGrows(a, b, site.fields[p], p);
      }
      if p in site.scopeFields && Binds(a, site.scopeFields[p], p) {
        BindsGrows(a, b, site.scopeFields[p], p);
      }
    }
  }

  lemma ServedProvider(site: Site, body: seq<Statement>, s: nat, d: nat)
    requires Served(site, body, s) && d in Next(site.host.plans, s)
    requires d in site.host.plans && site.host.plans[d].lifetime == Transient
    ensures Served(site, body, d)
  {
    hide Needs, Binds, Next;
    forall p | Needs(site.host.plans, d, p)
      ensures p in site.fields ==> site.applicationReceiver || Binds(body, site.fields[p], p)
      ensures p in site.scopeFields ==> site.scopeReceiver || Binds(body, site.scopeFields[p], p)
    {
      NeedsThrough(site.host.plans, s, d, p);
    }
  }

  // ---------- what is constructed ----------

  /** The services that the statements construct, in order. */
  function Services(body: seq<Statement>): (r: seq<nat>)
    ensures |r| == |body|
  {
    seq(|body|, i requires 0 <= i < |body| => body[i].service)
  }

  lemma ServicesAppend(body: seq<Statement>, st: Statement)
    ensures Services(body + [st]) == Services(body) + [st.service]
  {
  }

  /** What constructing a service constructs, in order: its transient parts, and then itself. */
  ghost function Constructions(h: Host, s: nat): seq<nat>
    requires Ready(h) && s in h.plans
    decreases Position(h, s), 1, 0
  {
    FromDependencies(h, s, |h.plans[s].dependencies|) + [s]
  }

  /** What its first `count` dependencies take. */
  ghost function FromDependencies(h: Host, s: nat, count: nat): seq<nat>
    requires Ready(h) && s in h.plans && count <= |h.plans[s].dependencies|
    decreases Position(h, s), 0, count
  {
    if count == 0 then []
    else
      FromDependencies(h, s, count - 1) + ForDependency(h, s, h.plans[s].dependencies[count - 1])
  }

  ghost function ForDependency(h: Host, s: nat, d: Dependency): seq<nat>
    requires Ready(h) && s in h.plans && d in h.plans[s].dependencies
    decreases Position(h, s), 0, 0
  {
    if !d.input && d.provider.Some? && Has(h, d.provider.value, Transient) then
      ProviderIsNext(h, s, d);
      ProviderPrecedes(h, s, d.provider.value);
      Constructions(h, d.provider.value)
    else []
  }

  /** From one emission to the other, the statements construct these services in order. */
  ghost predicate Adds(a: Emission, b: Emission, services: seq<nat>) {
    Services(b.body) == Services(a.body) + services
  }

  lemma FromNoDependencies(h: Host, s: nat, a: Emission)
    requires Ready(h) && s in h.plans
    ensures Adds(a, a, FromDependencies(h, s, 0))
  {
  }

  lemma FromDependenciesNext(h: Host, s: nat, i: nat, a: Emission, b: Emission, c: Emission)
    requires Ready(h) && s in h.plans && i < |h.plans[s].dependencies|
    requires Adds(a, b, FromDependencies(h, s, i))
    requires Adds(b, c, ForDependency(h, s, h.plans[s].dependencies[i]))
    ensures Adds(a, c, FromDependencies(h, s, i + 1))
  {
    hide Ready, ForDependency, Services;
  }

  lemma ConstructionsEnd(h: Host, s: nat, a: Emission, b: Emission, st: Statement)
    requires Ready(h) && s in h.plans && st.service == s
    requires Adds(a, b, FromDependencies(h, s, |h.plans[s].dependencies|))
    ensures Adds(a, AddBind(b, st), Constructions(h, s))
  {
    hide Ready, FromDependencies;
    ServicesAppend(b.body, st);
  }

  /** What constructing those of the first services takes that have a lifetime. */
  ghost function Constructed(h: Host, lifetime: Lifetime, count: nat): seq<nat>
    requires Ready(h) && count <= |h.order|
  {
    if count == 0 then []
    else
      Constructed(h, lifetime, count - 1)
      + if Has(h, h.order[count - 1], lifetime) then Constructions(h, h.order[count - 1]) else []
  }

  /** What an action on a service constructs: stored services are there already. */
  ghost function ForAction(h: Host, s: nat): seq<nat>
    requires Ready(h) && s in h.plans
  {
    if Has(h, s, Transient) then Constructions(h, s) else []
  }

  ghost function AllConstructed(h: Host, lifetime: Lifetime): seq<nat>
    requires Ready(h)
  {
    Constructed(h, lifetime, |h.order|)
  }

  /** A transient service that is used to construct `s`, through transient ones only. */
  ghost predicate IsPart(h: Host, s: nat, x: nat) {
    Has(h, x, Transient) && Needs(h.plans, s, x)
  }

  lemma NeedsBehind(plans: map<nat, Plan>, s: nat, x: nat, d: nat)
    requires Needs(plans, s, x) && x in plans && plans[x].lifetime == Transient
    requires d in Next(plans, x)
    ensures Needs(plans, s, d)
  {
    var path: seq<nat> :| NeedWalk(plans, s, x, path);
    var longer := path + [d];
    forall i | 0 <= i < |longer| - 1 ensures longer[i + 1] in Next(plans, longer[i]) {
      if i < |path| - 1 {
        assert path[i + 1] in Next(plans, path[i]);
      }
    }
    assert NeedWalk(plans, s, d, longer);
  }

  /** The first step of a use. */
  lemma NeedsFirst(plans: map<nat, Plan>, s: nat, x: nat) returns (d: nat)
    requires Needs(plans, s, x)
    ensures d in Next(plans, s)
    ensures d == x || (d in plans && plans[d].lifetime == Transient && Needs(plans, d, x))
  {
    var path: seq<nat> :| NeedWalk(plans, s, x, path);
    d := path[1];
    assert path[0 + 1] in Next(plans, path[0]);
    if |path| > 2 {
      var rest := path[1..];
      forall i | 0 <= i < |rest| - 1 ensures rest[i + 1] in Next(plans, rest[i]) {
        assert path[i + 1 + 1] in Next(plans, path[i + 1]);
      }
      assert NeedWalk(plans, d, x, rest);
    }
  }

  /** Constructing a service constructs exactly itself and its transient parts. */
  lemma {:induction false} ConstructionsAre(h: Host, s: nat, x: nat)
    requires Ready(h) && s in h.plans
    ensures x in Constructions(h, s) <==> x == s || IsPart(h, s, x)
    decreases Position(h, s), 1, 0
  {
    hide Ready, Needs, Next, Position;
    var dependencies := h.plans[s].dependencies;
    FromDependenciesAre(h, s, |dependencies|, x);
    if IsPart(h, s, x) {
      var d := NeedsFirst(h.plans, s, x);
      var k := DependencyOn(h, s, d);
      assert TakesPart(h, s, k, x);
    }
    if k :| 0 <= k < |dependencies| && TakesPart(h, s, k, x) {
      var p := dependencies[k].provider.value;
      ProviderIsNext(h, s, dependencies[k]);
      if x == p {
        NeedsProviders(h.plans, s, p);
      } else {
        NeedsThrough(h.plans, s, p, x);
      }
    }
  }

  /** The k-th dependency is transient, and `x` it or a part of it. */
  ghost predicate TakesPart(h: Host, s: nat, k: nat, x: nat)
    requires s in h.plans && k < |h.plans[s].dependencies|
  {
    var d := h.plans[s].dependencies[k];
    && !d.input && d.provider.Some? && Has(h, d.provider.value, Transient)
    && (x == d.provider.value || IsPart(h, d.provider.value, x))
  }

  lemma DependencyOn(h: Host, s: nat, d: nat) returns (k: nat)
    requires Ready(h) && d in Next(h.plans, s)
    ensures s in h.plans && k < |h.plans[s].dependencies|
    ensures !h.plans[s].dependencies[k].input
    ensures h.plans[s].dependencies[k].provider == Some(d)
  {
    var e :| e in h.plans[s].dependencies && e.provider == Some(d);
    k :| k < |h.plans[s].dependencies| && h.plans[s].dependencies[k] == e;
  }

  lemma {:induction false} FromDependenciesAre(h: Host, s: nat, count: nat, x: nat)
    requires Ready(h) && s in h.plans && count <= |h.plans[s].dependencies|
    ensures x in FromDependencies(h, s, count) <==>
            exists k :: 0 <= k < count && TakesPart(h, s, k, x)
    decreases Position(h, s), 0, count
  {
    hide Ready, IsPart, Next, Position;
    if count > 0 {
      FromDependenciesAre(h, s, count - 1, x);
      var d := h.plans[s].dependencies[count - 1];
      if !d.input && d.provider.Some? && Has(h, d.provider.value, Transient) {
        ProviderIsNext(h, s, d);
        ProviderPrecedes(h, s, d.provider.value);
        ConstructionsAre(h, d.provider.value, x);
      }
      assert x in ForDependency(h, s, d) <==> TakesPart(h, s, count - 1, x);
    }
  }

  /** What is constructed for the services of a lifetime: these, and their transient parts. */
  ghost predicate IsConstructed(h: Host, lifetime: Lifetime, x: nat) {
    exists s :: Has(h, s, lifetime) && (x == s || IsPart(h, s, x))
  }

  lemma {:induction false} ConstructedAre(h: Host, lifetime: Lifetime, count: nat, x: nat)
    requires Ready(h) && count <= |h.order|
    ensures x in Constructed(h, lifetime, count) <==>
            exists i :: 0 <= i < count && Has(h, h.order[i], lifetime)
                        && (x == h.order[i] || IsPart(h, h.order[i], x))
  {
    hide Resolved, ProvidersFirst, Distinct, IsPart, Constructions;
    if count > 0 {
      ConstructedAre(h, lifetime, count - 1, x);
      if Has(h, h.order[count - 1], lifetime) {
        ConstructionsAre(h, h.order[count - 1], x);
      }
    }
  }

  lemma AllConstructedAre(h: Host, lifetime: Lifetime)
    requires Ready(h)
    ensures forall x :: x in AllConstructed(h, lifetime) <==> IsConstructed(h, lifetime, x)
  {
    hide Resolved, ProvidersFirst, Distinct, IsPart, Constructed;
    forall x ensures x in AllConstructed(h, lifetime) <==> IsConstructed(h, lifetime, x) {
      ConstructedAre(h, lifetime, |h.order|, x);
      if s :| Has(h, s, lifetime) && (x == s || IsPart(h, s, x)) {
        assert s in h.order;
      }
    }
  }

  lemma NeedsFrom(plans: map<nat, Plan>, path: seq<nat>, x: nat, to: nat)
    requires Walk(plans, x, to, path) && |path| > 1
    ensures var y := path[|path| - 2];
            Walk(plans, x, y, path[..|path| - 1]) && to in Next(plans, y)
  {
    var shorter := path[..|path| - 1];
    forall i | 0 <= i < |shorter| - 1 ensures shorter[i + 1] in Next(plans, shorter[i]) {
      assert path[i + 1] in Next(plans, path[i]);
    }
    assert path[|path| - 2 + 1] in Next(plans, path[|path| - 2]);
  }

  /** When nothing scoped is built at start, only transient ones stand behind a singleton. */
  lemma {:induction false} WalkConstructs(h: Host, path: seq<nat>, x: nat, to: nat)
    requires Ready(h) && StartIsUnscoped(h.plans) && Has(h, x, Singleton)
    requires Walk(h.plans, x, to, path)
    ensures IsConstructed(h, Singleton, to)
    decreases |path|
  {
    hide Ready, StartIsUnscoped, Needs, Next, BuiltAtStart;
    if |path| > 1 {
      var y := path[|path| - 2];
      NeedsFrom(h.plans, path, x, to);
      WalkConstructs(h, path[..|path| - 1], x, y);
      NextIsPlanned(h.plans, y, to);
      assert BuiltAtStart(h.plans, to) by {
        ReachedIsBuilt(h.plans, x, to, path);
      }
      BuiltIsUnscoped(h.plans, to);
      if Has(h, to, Singleton) {
        assert IsConstructed(h, Singleton, to);
      } else {
        var s :| Has(h, s, Singleton) && (y == s || IsPart(h, s, y));
        if y == s {
          NeedsProviders(h.plans, s, to);
        } else {
          NeedsBehind(h.plans, s, y, to);
        }
        assert IsPart(h, s, to);
      }
    }
  }

  lemma ReachedIsBuilt(plans: map<nat, Plan>, x: nat, to: nat, path: seq<nat>)
    requires x in plans && plans[x].lifetime == Singleton && Walk(plans, x, to, path)
    ensures BuiltAtStart(plans, to)
  {
    hide Walk;
  }

  lemma BuiltIsUnscoped(plans: map<nat, Plan>, s: nat)
    requires StartIsUnscoped(plans) && BuiltAtStart(plans, s) && s in plans
    ensures plans[s].lifetime != Scoped
  {
  }

  /** The services that application start constructs are those built for some singleton. */
  lemma ConstructedAtStart(h: Host)
    requires Ready(h) && StartIsUnscoped(h.plans)
    ensures forall x :: x in AllConstructed(h, Singleton) <==> BuiltAtStart(h.plans, x)
  {
    hide Ready, StartIsUnscoped, AllConstructed, Needs, Walk;
    AllConstructedAre(h, Singleton);
    forall x ensures IsConstructed(h, Singleton, x) <==> BuiltAtStart(h.plans, x) {
      if IsConstructed(h, Singleton, x) {
        var s :| Has(h, s, Singleton) && (x == s || IsPart(h, s, x));
        ReachesSelf(h.plans, s);
        if x != s {
          NeedsReaches(h.plans, s, x);
        }
      }
      if BuiltAtStart(h.plans, x) {
        var s :| s in h.plans && h.plans[s].lifetime == Singleton && Reaches(h.plans, s, x);
        var path: seq<nat> :| Walk(h.plans, s, x, path);
        WalkConstructs(h, path, s, x);
      }
    }
  }

  lemma FromTheStart(identifiers: set<string>, e: Emission, services: seq<nat>)
    requires Adds(Emission([], identifiers, []), e, services)
    ensures Services(e.body) == services
  {
    assert Services([]) == [];
  }

  lemma ForActionIs(h: Host, s: nat)
    requires Ready(h) && s in h.plans
    ensures Services([]) == []
    ensures ForAction(h, s) == if Has(h, s, Transient) then Constructions(h, s) else []
  {
    hide Ready, Constructions;
  }

  lemma ForActionAre(h: Host, s: nat)
    requires Ready(h) && s in h.plans
    ensures forall x :: x in ForAction(h, s) <==>
                        Has(h, s, Transient) && (x == s || IsPart(h, s, x))
  {
    hide Ready, IsPart, Constructions;
    forall x {
      ConstructionsAre(h, s, x);
    }
  }

  // ---------- emitting a construction ----------

  lemma BaseGenerated(base: string, used: set<string>, r: string)
    requires Generated(base) && IsFirstFree(base, used, r)
    ensures Generated(r) && r !in used
  {
    hide Numbered;
    NumberedShape(base, used, r);
    GeneratedExtends(base, r);
  }

  lemma InputNamed(shortName: string, parameter: string, used: set<string>, name: string)
    requires IsFirstFree(InputName(shortName, parameter), used, name)
    ensures NamesInput(used, name)
  {
    hide InputName, Numbered;
  }

  lemma ServiceNamed(h: Host, s: nat, used: set<string>, name: string)
    requires s in h.shortNames && IsFirstFree(FieldName(h.shortNames[s]), used, name)
    ensures NamesService(h, used, s, name)
  {
    hide FieldName, Numbered;
  }

  lemma InputNameIsGenerated(shortName: string, parameter: string)
    ensures Generated(InputName(shortName, parameter))
  {
  }

  /** A dependency on a stored service denotes it. */
  lemma StoredDenotes(site: Site, e: Emission, s: nat, d: Dependency, argument: Argument)
    requires ReadySite(site) && Served(site, e.body, s)
    requires s in site.host.plans && d in site.host.plans[s].dependencies && !d.input
    requires d.provider.Some? && d.provider.value in site.host.plans
    requires var p := d.provider.value;
             if p in site.fields then
               argument == if site.applicationReceiver then ApplicationField(site.fields[p])
                           else Plain(site.fields[p])
             else
               p in site.scopeFields
               && argument == if site.scopeReceiver
                              then ScopeField(site.scopeName, site.scopeFields[p])
                              else Plain(site.scopeFields[p])
    ensures Denotes(site, e.inputs, e.body, d, argument) && !Consumed(site, d)
  {
    hide Needs, Resolved, ProvidersFirst, Distinct, Binds;
    NeedsProviders(site.host.plans, s, d.provider.value);
  }

  lemma TransientDenotes(site: Site, e: Emission, d: Dependency, name: string)
    requires ReadySite(site) && !d.input && d.provider.Some?
    requires Has(site.host, d.provider.value, Transient) && Binds(e.body, name, d.provider.value)
    ensures Denotes(site, e.inputs, e.body, d, Plain(name)) && Consumed(site, d)
  {
  }

  lemma AllDenoteNext(site: Site, a: Emission, b: Emission, dependencies: seq<Dependency>,
                      i: nat, arguments: seq<Argument>, argument: Argument)
    requires i < |dependencies| && Prefixed(a, b)
    requires AllDenote(site, a.inputs, a.body, dependencies[..i], arguments)
    requires Denotes(site, b.inputs, b.body, dependencies[i], argument)
    ensures AllDenote(site, b.inputs, b.body, dependencies[..i + 1], arguments + [argument])
  {
    hide Denotes;
    forall k | 0 <= k < i ensures Denotes(site, b.inputs, b.body, dependencies[k], arguments[k]) {
      assert dependencies[..i][k] == dependencies[k];
      DenotesGrows(site, a, b, dependencies[k], arguments[k]);
    }
  }

  lemma UsesNext(site: Site, dependencies: seq<Dependency>, i: nat, arguments: seq<Argument>,
                 argument: Argument)
    requires |arguments| == i < |dependencies|
    ensures Uses(site, dependencies, arguments + [argument])
            == Uses(site, dependencies, arguments)
               + if Consumed(site, dependencies[i]) && argument.Plain?
                 then multiset{argument.name} else multiset{}
  {
    assert (arguments + [argument])[..i] == arguments;
  }

  lemma FreshIsUnbound(e: Emission, name: string)
    requires DistinctBinders(e) && name !in e.identifiers
    ensures Unbound(e, name)
  {
  }

  lemma StillUnbound(site: Site, a: Emission, b: Emission, name: string)
    requires Grown(site, a, b) && Unbound(a, name) && name in a.identifiers
    ensures Unbound(b, name)
  {
  }

  lemma GrownReflexive(site: Site, a: Emission)
    ensures Grown(site, a, a)
  {
  }

  class ConstructionContext {
    const site: Site
    var inputs: seq<string>
    var identifiers: set<string>
    var body: seq<Statement>

    function Current(): Emission
      reads this
    {
      Emission(inputs, identifiers, body)
    }

    constructor (site: Site, identifiers: set<string>)
      ensures this.site == site && Current() == Emission([], identifiers, [])
    {
      this.site, this.identifiers, inputs, body := site, identifiers, [], [];
    }

    method UniqueIdentifier(base: string) returns (r: string)
      requires Generated(base)
      modifies this
      ensures IsFirstFree(base, old(identifiers), r) && Generated(r) && r !in old(identifiers)
      ensures Current() == old(Current()).(identifiers := old(identifiers) + {r})
    {
      r := UniqueName(base, identifiers);
      BaseGenerated(base, identifiers, r);
      identifiers := identifiers + {r};
    }

    /** The argument for one dependency; emits what it takes to have it. */
    method EmitDependency(service: nat, d: Dependency, ghost pending: multiset<string>)
      returns (argument: Argument)
      requires ReadySite(site) && service in site.host.plans
      requires d in site.host.plans[service].dependencies
      requires Served(site, body, service)
      requires WellEmitted(site, Current()) && Balanced(site, Current(), pending)
      modifies this
      ensures WellEmitted(site, Current()) && Grown(site, old(Current()), Current())
      ensures Denotes(site, inputs, body, d, argument)
      ensures Adds(old(Current()), Current(), ForDependency(site.host, service, d))
      ensures Balanced(site, Current(), pending
                + if Consumed(site, d) && argument.Plain? then multiset{argument.name}
                  else multiset{})
      decreases Position(site.host, service), 0
    {
      hide WellEmitted, Balanced, Grown, Served, Denotes, Needs, ProvidersFirst, Distinct, Position,
        Next, Generated, IsFirstFree, NamesInput, InputName, Constructions;
      ghost var start := Current();
      GrownReflexive(site, start);
      assert pending + multiset{} == pending;
      if d.input {
        InputNameIsGenerated(site.host.shortNames[service], d.parameter);
        var value := UniqueIdentifier(InputName(site.host.shortNames[service], d.parameter));
        InputNamed(site.host.shortNames[service], d.parameter, start.identifiers, value);
        inputs := inputs + [value];
        assert Current() == AddInput(start, value);
        AddInputGood(site, start, value, pending);
        InputDenotes(site, Current(), d, value);
        return Plain(value);
      }
      ProviderIsNext(site.host, service, d);
      var p := d.provider.value;
      if site.host.plans[p].lifetime == Singleton {
        argument := if site.applicationReceiver then ApplicationField(site.fields[p])
                    else Plain(site.fields[p]);
        StoredDenotes(site, start, service, d, argument);
      } else if site.host.plans[p].lifetime == Scoped {
        argument := if site.scopeReceiver then ScopeField(site.scopeName, site.scopeFields[p])
                    else Plain(site.scopeFields[p]);
        StoredDenotes(site, start, service, d, argument);
      } else {
        ProviderPrecedes(site.host, service, p);
        ServedProvider(site, body, service, p);
        var local := EmitConstruction(p, None, false, pending);
        TransientDenotes(site, Current(), d, local);
        argument := Plain(local);
        EmittedTransient(site, start, Current(), p, None, local);
      }
    }

    /** The arguments for all dependencies, in order. */
    method EmitArguments(service: nat, ghost pending: multiset<string>)
      returns (arguments: seq<Argument>)
      requires ReadySite(site) && service in site.host.plans
      requires Served(site, body, service)
      requires WellEmitted(site, Current()) && Balanced(site, Current(), pending)
      modifies this
      ensures WellEmitted(site, Current()) && Grown(site, old(Current()), Current())
      ensures var dependencies := site.host.plans[service].dependencies;
              && AllDenote(site, inputs, body, dependencies, arguments)
              && Balanced(site, Current(), pending + Uses(site, dependencies, arguments))
              && Adds(old(Current()), Current(),
                      FromDependencies(site.host, service, |dependencies|))
      decreases Position(site.host, service), 1
    {
      hide WellEmitted, Balanced, Grown, Served, AllDenote, ReadySite, Position, Uses, Ready, Adds,
        FromDependencies, ForDependency, Consumed, Prefixed, Has, Services;
      SiteIsReady(site);
      ghost var start := Current();
      GrownReflexive(site, start);
      var dependencies := site.host.plans[service].dependencies;
      arguments := [];
      NoUses(site, dependencies);
      NoneDenote(site, start);
      FromNoDependencies(site.host, service, start);
      assert pending + multiset{} == pending;
      var i := 0;
      while i < |dependencies|
        invariant 0 <= i == |arguments| <= |dependencies|
        invariant WellEmitted(site, Current()) && Grown(site, start, Current())
        invariant AllDenote(site, inputs, body, dependencies[..i], arguments)
        invariant Adds(start, Current(), FromDependencies(site.host, service, i))
        invariant Balanced(site, Current(), pending + Uses(site, dependencies, arguments))
      {
        ghost var here := Current();
        GrownIsPrefixed(site, start, here);
        ServedGrows(site, start.body, here.body, service);
        ghost var owed := pending + Uses(site, dependencies, arguments);
        var argument := EmitDependency(service, dependencies[i], owed);
        GrownTransitive(site, start, here, Current());
        GrownIsPrefixed(site, here, Current());
        AllDenoteNext(site, here, Current(), dependencies, i, arguments, argument);
        UsesNext(site, dependencies, i, arguments, argument);
        FromDependenciesNext(site.host, service, i, start, here, Current());
        ghost var more := if Consumed(site, dependencies[i]) && argument.Plain?
                          then multiset{argument.name} else multiset{};
        assert owed + more == pending + (Uses(site, dependencies, arguments) + more);
        arguments := arguments + [argument];
        i := i + 1;
      }
      assert dependencies[..i] == dependencies;
    }

    /** Emits the construction of a service and everything transient it needs. */
    method EmitConstruction(service: nat, requested: Option<string>, mutable: bool,
                            ghost pending: multiset<string>)
      returns (local: string)
      requires ReadySite(site) && service in site.host.plans
      requires Served(site, body, service)
      requires WellEmitted(site, Current()) && Balanced(site, Current(), pending)
      requires requested.Some? ==>
                 Generated(requested.value) && requested.value in identifiers
                 && Unbound(Current(), requested.value)
                 && NamesService(site.host, identifiers, service, requested.value)
      modifies this
      ensures WellEmitted(site, Current())
      ensures Emitted(site, old(Current()), Current(), service, requested, local)
      ensures Binds(body, local, service)
      ensures Adds(old(Current()), Current(), Constructions(site.host, service))
      ensures Balanced(site, Current(), pending
                + if Has(site.host, service, Transient) then multiset{local} else multiset{})
      decreases Position(site.host, service), 2
    {
      hide WellEmitted, Balanced, Grown, Served, Denotes, ReadySite, Position, Generated,
        IsFirstFree, Unbound, Uses, NamesService, FieldName, Ready, Constructions, Adds,
        FromDependencies;
      SiteIsReady(site);
      ghost var start := Current();
      var arguments := EmitArguments(service, pending);
      ghost var ready := Current();
      if requested.Some? {
        local := requested.value;
        StillUnbound(site, start, ready, local);
        GrownIsPrefixed(site, start, ready);
        NamesServiceGrows(site.host, start.identifiers, identifiers, service, local);
      } else {
        HasShortName(site, service);
        FieldNameIsGenerated(site.host.shortNames[service]);
        local := UniqueIdentifier(FieldName(site.host.shortNames[service]));
        FreshLocal(site, start, ready, local);
        ServiceNamed(site.host, service, ready.identifiers, local);
      }
      ghost var st := Bind(local, service, arguments, mutable, site.host.plans[service].fallible);
      ConstructionsEnd(site.host, service, start, ready, st);
      identifiers := identifiers + {local};
      body := body + [Bind(local, service, arguments, mutable,
                           site.host.plans[service].fallible)];
      assert Current() == AddBind(ready, st);
      AddBindGood(site, ready, st, pending);
      BindEmitted(site, start, ready, st, requested);
    }
  }

  lemma SiteIsReady(site: Site)
    requires ReadySite(site)
    ensures Ready(site.host)
  {
  }

  lemma NoneDenote(site: Site, e: Emission)
    ensures AllDenote(site, e.inputs, e.body, [], [])
  {
  }

  lemma NoUses(site: Site, dependencies: seq<Dependency>)
    ensures Uses(site, dependencies, []) == multiset{}
  {
  }

  lemma HasShortName(site: Site, s: nat)
    requires ReadySite(site) && s in site.host.plans
    ensures s in site.host.shortNames
  {
  }

  lemma InputDenotes(site: Site, e: Emission, d: Dependency, value: string)
    requires d.input && value in e.inputs
    ensures Denotes(site, e.inputs, e.body, d, Plain(value)) && Consumed(site, d)
  {
  }

  lemma GrownIsPrefixed(site: Site, a: Emission, b: Emission)
    requires Grown(site, a, b)
    ensures Prefixed(a, b)
  {
  }

  lemma FreshLocal(site: Site, a: Emission, b: Emission, local: string)
    requires Grown(site, a, b) && WellEmitted(site, b) && local !in b.identifiers
    ensures Unbound(b, local) && local !in a.identifiers
  {
    FreshIsUnbound(b, local);
  }

  /** One construction was emitted last; everything before it grew the emission. */
  ghost predicate Emitted(site: Site, a: Emission, b: Emission, service: nat,
                          requested: Option<string>, local: string)
  {
    && |b.body| > 0
    && var st := b.body[|b.body| - 1];
       st.service == service && st.name == local
       && (if requested.Some? then local == requested.value else local !in a.identifiers)
       && local in b.identifiers
       && Grown(site, a, Emission(b.inputs, b.identifiers, b.body[..|b.body| - 1]))
  }

  lemma BindEmitted(site: Site, a: Emission, b: Emission, st: Statement,
                    requested: Option<string>)
    requires Grown(site, a, b)
    requires if requested.Some? then st.name == requested.value else st.name !in a.identifiers
    ensures Emitted(site, a, AddBind(b, st), st.service, requested, st.name)
    ensures Binds(AddBind(b, st).body, st.name, st.service)
  {
    var r := AddBind(b, st);
    assert r.body[..|r.body| - 1] == b.body;
    assert r.body[|b.body|] == st;
  }

  lemma EmittedTransient(site: Site, a: Emission, b: Emission, p: nat, requested: Option<string>,
                         local: string)
    requires Emitted(site, a, b, p, requested, local) && requested.None?
    requires Has(site.host, p, Transient)
    ensures Grown(site, a, b)
  {
    var n := |b.body| - 1;
    var less := Emission(b.inputs, b.identifiers, b.body[..n]);
    assert b.body == less.body + [b.body[n]];
    forall j | |a.body| <= j < |b.body|
      ensures b.body[j].name !in a.identifiers && Has(site.host, b.body[j].service, Transient)
    {
      if j < n {
        assert less.body[j] == b.body[j];
      }
    }
  }

  // ---------- the builder and `NewScope` ----------

  predicate StartsStored(stored: map<nat, string>, st: Statement) {
    st.service in stored && st.name == stored[st.service]
  }

  /** The services in `built` are bound to their fields, the others of `stored` not yet. */
  ghost predicate Building(site: Site, e: Emission, stored: map<nat, string>, built: set<nat>,
                           initial: set<string>)
  {
    && WellEmitted(site, e) && Balanced(site, e, multiset{}) && initial <= e.identifiers
    && (forall s | s in stored && s in built :: Binds(e.body, stored[s], s))
    && (forall s | s in stored && s !in built :: Unbound(e, stored[s]))
    && (forall i :: 0 <= i < |e.inputs| ==> e.inputs[i] !in initial)
    && (forall j :: 0 <= j < |e.body| ==>
          StartsStored(stored, e.body[j])
          || (Has(site.host, e.body[j].service, Transient) && e.body[j].name !in initial))
  }

  lemma BuildingNext(site: Site, a: Emission, b: Emission, stored: map<nat, string>,
                     built: set<nat>, initial: set<string>, s: nat)
    requires Building(site, a, stored, built, initial) && Injective(stored)
    requires s in stored && stored.Values <= initial && !Has(site.host, s, Transient)
    requires WellEmitted(site, b) && Balanced(site, b, multiset{})
    requires Emitted(site, a, b, s, Some(stored[s]), stored[s]) && Binds(b.body, stored[s], s)
    ensures Building(site, b, stored, built + {s}, initial)
  {
    hide WellEmitted, Balanced;
    var n := |b.body| - 1;
    assert b.body == b.body[..n] + [b.body[n]];
    assert forall j :: 0 <= j < n ==> b.body[..n][j] == b.body[j];
    assert a.body <= b.body;
    forall x | x in stored && x in built ensures Binds(b.body, stored[x], x) {
      BindsGrows(a.body, b.body, stored[x], x);
    }
    forall x | x in stored && x !in built + {s} ensures Unbound(b, stored[x]) {
      assert stored[x] in stored.Values && stored[x] != stored[s];
      UnboundStays(site, a, Emission(b.inputs, b.identifiers, b.body[..n]), stored[x]);
    }
    forall j | 0 <= j < |b.body|
      ensures StartsStored(stored, b.body[j])
              || (Has(site.host, b.body[j].service, Transient) && b.body[j].name !in initial)
    {
      if j < |a.body| {
        assert b.body[j] == a.body[j];
      } else if j < n {
        assert b.body[..n][j] == b.body[j];
      }
    }
  }

  lemma UnboundStays(site: Site, a: Emission, b: Emission, name: string)
    requires Grown(site, a, b) && Unbound(a, name) && name in a.identifiers
    ensures Unbound(b, name)
  {
    StillUnbound(site, a, b, name);
  }

  lemma BuildingSkips(site: Site, e: Emission, stored: map<nat, string>, built: set<nat>,
                      initial: set<string>, s: nat)
    requires Building(site, e, stored, built, initial) && s !in stored
    ensures Building(site, e, stored, built + {s}, initial)
  {
    hide WellEmitted, Balanced, Binds, Unbound;
  }

  lemma NothingBuilt(site: Site, stored: map<nat, string>, identifiers: set<string>)
    requires site.reserved == identifiers
    ensures Building(site, Emission([], identifiers, []), stored, {}, identifiers)
  {
  }

  /** What is built before a service serves it: at application start and in a new scope. */
  lemma ServedByOrder(site: Site, e: Emission, stored: map<nat, string>, built: set<nat>,
                      initial: set<string>, s: nat)
    requires ReadySite(site) && Building(site, e, stored, built, initial) && s in site.host.plans
    requires forall p | p in site.host.plans && Position(site.host, p) < Position(site.host, s) ::
               p in built
    requires (stored == site.fields && site.host.plans[s].lifetime == Singleton
              && StartIsUnscoped(site.host.plans))
             || (stored == site.scopeFields && site.applicationReceiver)
    ensures Served(site, e.body, s)
  {
    hide Needs, WellEmitted, Balanced, Position, Ready, Unbound, BuiltAtStart, Binds;
    forall p | Needs(site.host.plans, s, p)
      ensures p in site.fields ==> site.applicationReceiver || Binds(e.body, site.fields[p], p)
      ensures p in site.scopeFields ==>
                site.scopeReceiver || Binds(e.body, site.scopeFields[p], p)
    {
      NeedsPrecede(site.host, s, p);
      NeedsReaches(site.host.plans, s, p);
      if site.host.plans[s].lifetime == Singleton {
        StartBuilds(site.host.plans, s, p);
      }
    }
  }

  lemma StartBuilds(plans: map<nat, Plan>, s: nat, p: nat)
    requires s in plans && plans[s].lifetime == Singleton && Reaches(plans, s, p)
    ensures BuiltAtStart(plans, p)
  {
  }

  lemma EarlierAreBuilt(h: Host, i: nat, built: set<nat>)
    requires Ready(h) && i < |h.order| && forall s :: s in built <==> s in h.order[..i]
    ensures forall p | p in h.plans && Position(h, p) < Position(h, h.order[i]) :: p in built
  {
    hide Resolved, ProvidersFirst;
    PositionIdentifies(h, h.order[i]);
    assert h.order[..i + 1] == h.order[..i] + [h.order[i]];
    assert Position(h, h.order[i]) <= i by {
      var at := Find(h.order, h.order[i]);
      forall k | 0 <= k < at ensures h.order[k] != h.order[i] {
        assert h.order[..at][k] == h.order[k];
      }
    }
    forall p | p in h.plans && Position(h, p) < Position(h, h.order[i]) ensures p in built {
      PositionIdentifies(h, p);
      assert h.order[Position(h, p)] == p;
      assert h.order[..i][Position(h, p)] == p;
    }
  }

  /** What `stored` may be: the application's fields, or a scope's inside the application. */
  ghost predicate StoresLifetime(site: Site, stored: map<nat, string>, lifetime: Lifetime) {
    && ReadySite(site) && Injective(stored) && FieldsNamed(site.host, stored)
    && (forall s :: s in stored <==> Has(site.host, s, lifetime))
    && ((lifetime == Singleton && stored == site.fields && StartIsUnscoped(site.host.plans))
        || (lifetime == Scoped && stored == site.scopeFields && site.applicationReceiver))
  }

  lemma StoreFacts(site: Site, e: Emission, stored: map<nat, string>, lifetime: Lifetime,
                   i: nat, built: set<nat>, initial: set<string>)
    requires StoresLifetime(site, stored, lifetime) && stored.Values <= initial
    requires i < |site.host.order|
    requires forall s :: s in built <==> s in site.host.order[..i]
    requires Building(site, e, stored, built, initial)
    ensures var s := site.host.order[i];
            s in site.host.plans && (s in stored <==> Has(site.host, s, lifetime))
            && (s in stored ==>
                  Served(site, e.body, s) && WellEmitted(site, e)
                  && Balanced(site, e, multiset{}) && Unbound(e, stored[s])
                  && stored[s] in e.identifiers && Generated(stored[s])
                  && NamesService(site.host, e.identifiers, s, stored[s])
                  && !Has(site.host, s, Transient) && Injective(stored))
  {
    hide Building, Served, Generated, Injective, Position, Ready, StartIsUnscoped, WellEmitted,
      Balanced, Unbound, Numbered, FieldName;
    DistinctOrder(site.host);
    var s := site.host.order[i];
    if s in stored {
      assert NamesService(site.host, stored.Values, s, stored[s]);
      InitialIsKept(site, e, stored, built, initial);
      NamesServiceGrows(site.host, stored.Values, e.identifiers, s, stored[s]);
      EarlierAreBuilt(site.host, i, built);
      ServedByOrder(site, e, stored, built, initial, s);
      BuildingIsWell(site, e, stored, built, initial, s);
    }
  }

  lemma InitialIsKept(site: Site, e: Emission, stored: map<nat, string>, built: set<nat>,
                      initial: set<string>)
    requires Building(site, e, stored, built, initial)
    ensures initial <= e.identifiers
  {
    hide WellEmitted, Balanced, Unbound, Binds;
  }

  function Earlier(h: Host, count: nat): set<nat>
    requires count <= |h.order|
  {
    set s | s in h.order[..count]
  }

  /** The first services of the order are dealt with: those to store are bound to their fields. */
  ghost predicate StoredSoFar(site: Site, e: Emission, stored: map<nat, string>,
                              lifetime: Lifetime, count: nat, initial: set<string>)
  {
    && Ready(site.host) && count <= |site.host.order|
    && Building(site, e, stored, Earlier(site.host, count), initial)
    && Services(e.body) == Constructed(site.host, lifetime, count)
  }

  lemma NothingStored(site: Site, stored: map<nat, string>, lifetime: Lifetime,
                      identifiers: set<string>)
    requires Ready(site.host) && site.reserved == identifiers
    ensures StoredSoFar(site, Emission([], identifiers, []), stored, lifetime, 0, identifiers)
  {
    hide Building;
    NothingBuilt(site, stored, identifiers);
    assert Earlier(site.host, 0) == {};
  }

  lemma StoredNext(site: Site, a: Emission, b: Emission, stored: map<nat, string>,
                   lifetime: Lifetime, i: nat, initial: set<string>)
    requires StoredSoFar(site, a, stored, lifetime, i, initial) && i < |site.host.order|
    requires var s := site.host.order[i];
             && Building(site, b, stored, Earlier(site.host, i) + {s}, initial)
             && Adds(a, b, if Has(site.host, s, lifetime) then Constructions(site.host, s) else [])
    ensures StoredSoFar(site, b, stored, lifetime, i + 1, initial)
  {
    hide Building, Resolved, ProvidersFirst, Distinct, Constructions, Services;
    var order := site.host.order;
    assert order[..i + 1] == order[..i] + [order[i]];
    assert Earlier(site.host, i + 1) == Earlier(site.host, i) + {order[i]};
  }

  lemma AllStored(site: Site, e: Emission, stored: map<nat, string>, lifetime: Lifetime,
                  initial: set<string>)
    requires StoredSoFar(site, e, stored, lifetime, |site.host.order|, initial)
    ensures Building(site, e, stored, site.host.plans.Keys, initial)
    ensures Services(e.body) == AllConstructed(site.host, lifetime)
  {
    hide Building, Constructed, Services, Resolved, ProvidersFirst, Distinct;
    var order := site.host.order;
    assert order[..|order|] == order;
    assert Earlier(site.host, |order|) == site.host.plans.Keys;
  }

  /** Constructs the next service of the order if it is one to store. */
  method EmitStoredService(context: ConstructionContext, stored: map<nat, string>,
                           lifetime: Lifetime, i: nat, ghost initial: set<string>)
    requires StoresLifetime(context.site, stored, lifetime) && stored.Values <= initial
    requires i < |context.site.host.order|
    requires StoredSoFar(context.site, context.Current(), stored, lifetime, i, initial)
    modifies context
    ensures StoredSoFar(context.site, context.Current(), stored, lifetime, i + 1, initial)
  {
    hide Constructions, Constructed, Services, Adds;
    hide Building, Served, Generated, Injective, Ready, StartIsUnscoped, Distinct, WellEmitted,
      Balanced, Unbound, Emitted, Binds, NamesService, FieldsNamed;
    var site := context.site;
    var service := site.host.order[i];
    ghost var before, built := context.Current(), Earlier(site.host, i);
    StoreFacts(site, before, stored, lifetime, i, built, initial);
    if site.host.plans[service].lifetime == lifetime {
      var local := context.EmitConstruction(service, Some(stored[service]), false, multiset{});
      EmittedName(site, before, context.Current(), service, stored[service], local);
      ghost var none: multiset<string> := multiset{};
      assert none + none == none;
      BuildingNext(site, before, context.Current(), stored, built, initial, service);
    } else {
      BuildingSkips(site, before, stored, built, initial, service);
      AddsNothing(before);
    }
    StoredNext(site, before, context.Current(), stored, lifetime, i, initial);
  }

  lemma StoreIsReady(site: Site, stored: map<nat, string>, lifetime: Lifetime)
    requires StoresLifetime(site, stored, lifetime)
    ensures Ready(site.host)
  {
  }

  lemma AddsNothing(e: Emission)
    ensures Adds(e, e, [])
  {
  }

  /** Constructs every service of one lifetime into its field, in construction order. */
  method EmitStored(site: Site, stored: map<nat, string>, lifetime: Lifetime,
                    identifiers: set<string>)
    returns (context: ConstructionContext)
    requires StoresLifetime(site, stored, lifetime) && stored.Values <= identifiers
    requires site.reserved == identifiers
    ensures fresh(context) && context.site == site
    ensures Building(site, context.Current(), stored, site.host.plans.Keys, identifiers)
    ensures Services(context.body) == AllConstructed(site.host, lifetime)
  {
    hide StoredSoFar, StoresLifetime, Building, Ready, Services, AllConstructed, Generated,
      Injective;
    StoreIsReady(site, stored, lifetime);
    context := new ConstructionContext(site, identifiers);
    NothingStored(site, stored, lifetime, identifiers);
    var order := site.host.order;
    var i := 0;
    while i < |order|
      invariant 0 <= i <= |order| && context.site == site
      invariant StoredSoFar(site, context.Current(), stored, lifetime, i, identifiers)
    {
      EmitStoredService(context, stored, lifetime, i, identifiers);
      i := i + 1;
    }
    AllStored(site, context.Current(), stored, lifetime, identifiers);
  }

  lemma DistinctOrder(h: Host)
    requires Ready(h)
    ensures forall s :: s in h.order <==> s in h.plans
    ensures forall i :: 0 <= i < |h.order| ==> h.order[i] !in h.order[..i]
  {
    DistinctPrefixes(h.order);
  }

  lemma EmittedName(site: Site, a: Emission, b: Emission, s: nat, requested: string,
                    local: string)
    requires Emitted(site, a, b, s, Some(requested), local)
    ensures local == requested
  {
  }

  lemma BuildingIsWell(site: Site, e: Emission, stored: map<nat, string>, built: set<nat>,
                       initial: set<string>, s: nat)
    requires Building(site, e, stored, built, initial) && s in stored && s !in built
    requires stored.Values <= initial
    ensures WellEmitted(site, e) && Balanced(site, e, multiset{}) && Unbound(e, stored[s])
    ensures stored[s] in e.identifiers
  {
    hide WellEmitted, Balanced, Unbound;
    assert stored[s] in stored.Values;
  }

  const ROUTES := "foundationRoutes"

  /** Each stored service is constructed once, into its field, and no other stored service is. */
  ghost predicate ConstructsOnce(site: Site, e: Emission, stored: map<nat, string>) {
    && (forall s | s in stored ::
          exists j :: 0 <= j < |e.body| && e.body[j].service == s && e.body[j].name == stored[s]
                      && forall k | 0 <= k < |e.body| && e.body[k].service == s :: k == j)
    && (forall j :: 0 <= j < |e.body| && e.body[j].service !in stored ==>
          Has(site.host, e.body[j].service, Transient))
  }

  lemma BuiltOnce(site: Site, e: Emission, stored: map<nat, string>, built: set<nat>,
                  initial: set<string>)
    requires Building(site, e, stored, built, initial) && stored.Keys <= built
    requires forall s | s in stored :: !Has(site.host, s, Transient)
    ensures ConstructsOnce(site, e, stored)
  {
    hide Balanced, BoundBeforeUse;
    forall s | s in stored
      ensures exists j :: 0 <= j < |e.body| && e.body[j].service == s
                          && e.body[j].name == stored[s]
                          && forall k | 0 <= k < |e.body| && e.body[k].service == s :: k == j
    {
      assert Binds(e.body, stored[s], s);
      var j :| 0 <= j < |e.body| && e.body[j].name == stored[s] && e.body[j].service == s;
      forall k | 0 <= k < |e.body| && e.body[k].service == s ensures k == j {
        assert StartsStored(stored, e.body[k]);
      }
    }
  }

  // ---------- import aliases ----------

  const HOST := "foundationHost"

  /** The names that imported packages get, the first `n` of these. */
  ghost predicate IsAlias(n: nat, name: string) {
    exists k: nat :: k < n && name == HOST + Decimal(k)
  }

  /** `foundationHost`, followed by digits only. */
  predicate HostLike(name: string) {
    HOST <= name && forall i :: |HOST| <= i < |name| ==> IsDigit(name[i])
  }

  /** No binder of the emission hides one of `n` imports. */
  ghost predicate AvoidsAliases(e: Emission, n: nat) {
    forall k: nat | k < n :: Unbound(e, HOST + Decimal(k))
  }

  function Wanted(h: Host, s: nat): string {
    if s in h.shortNames then FieldName(h.shortNames[s]) else ""
  }

  /** How many of the constructions ask for a name. */
  function Askers(h: Host, services: seq<nat>, name: string): nat {
    if services == [] then 0
    else
      var n := |services| - 1;
      Askers(h, services[..n], name) + if Wanted(h, services[n]) == name then 1 else 0
  }

  /** One of the constructions asks for an alias, or two for `foundationHost`: one gets 2. */
  ghost predicate WantsAlias(h: Host, services: seq<nat>, n: nat) {
    || (exists s :: s in services && IsAlias(n, Wanted(h, s)))
    || (n > 2 && Askers(h, services, HOST) > 1)
  }

  lemma {:induction false} OneAsks(h: Host, services: seq<nat>, name: string)
    ensures Askers(h, services, name) > 0 <==>
            exists i :: 0 <= i < |services| && Wanted(h, services[i]) == name
  {
    hide Wanted;
    if services != [] {
      OneAsks(h, services[..|services| - 1], name);
      assert forall i :: 0 <= i < |services| - 1 ==>
               services[..|services| - 1][i] == services[i];
    }
  }

  lemma {:induction false} TwoAsk(h: Host, services: seq<nat>, name: string)
    ensures Askers(h, services, name) > 1 <==>
            exists i, j :: 0 <= i < j < |services|
                           && Wanted(h, services[i]) == name && Wanted(h, services[j]) == name
  {
    hide Wanted;
    if services != [] {
      var n := |services| - 1;
      OneAsks(h, services[..n], name);
      TwoAsk(h, services[..n], name);
      assert forall i :: 0 <= i < n ==> services[..n][i] == services[i];
    }
  }

  lemma HostHasNoDigit()
    ensures forall i :: 0 <= i < |HOST| ==> !IsDigit(HOST[i])
  {
  }

  lemma AliasIsHostLike(n: nat, name: string)
    requires IsAlias(n, name)
    ensures HostLike(name) && name != HOST
  {
    var k: nat :| k < n && name == HOST + Decimal(k);
    DecimalIsDigits(k);
    forall i | |HOST| <= i < |name| ensures IsDigit(name[i]) {
      assert name[i] == Decimal(k)[i - |HOST|];
    }
  }

  lemma {:induction false} DecimalPrefix(k: nat, length: nat) returns (less: nat)
    requires 0 < length <= |Decimal(k)|
    ensures less <= k && Decimal(k)[..length] == Decimal(less)
  {
    less := k;
    if length < |Decimal(k)| {
      assert Decimal(k)[..length] == Decimal(k / 10)[..length];
      less := DecimalPrefix(k / 10, length);
    } else {
      assert Decimal(k)[..length] == Decimal(k);
    }
  }

  /** A numbered name is an alias only if its base is one or the base is `foundationHost`. */
  lemma AliasBase(n: nat, base: string, j: nat)
    requires IsAlias(n, base + Decimal(j))
    ensures IsAlias(n, base) || (base == HOST && j < n)
  {
    var name := base + Decimal(j);
    var k: nat :| k < n && name == HOST + Decimal(k);
    DecimalIsDigits(j);
    HostHasNoDigit();
    assert name[|base|] == Decimal(j)[0];
    assert forall i :: 0 <= i < |HOST| ==> name[i] == HOST[i];
    if |base| == |HOST| {
      assert base == name[..|HOST|] == HOST;
      SuffixInjective(HOST, j, k);
    } else if |base| > |HOST| {
      var length := |base| - |HOST|;
      var less := DecimalPrefix(k, length);
      assert base == name[..|base|] == HOST + Decimal(k)[..length];
    }
  }

  lemma HostIdentifierStart(value: string)
    ensures var r := HostIdentifier(value);
            r != [] && !IsDigit(r[0]) && !IsLower(r[0])
  {
    CapitalizedStart(value);
  }

  lemma {:induction false} CapitalizedStart(value: string)
    ensures var r := Capitalized(value, true); r != [] ==> !IsLower(r[0])
  {
    if value != [] {
      CapitalizedStart(value[1..]);
    }
  }

  /** The name of an input is no alias: what follows its service begins with a capital or `_`. */
  lemma InputIsNotHostLike(shortName: string, parameter: string, used: set<string>, name: string)
    requires Numbered(InputName(shortName, parameter), used, name)
    ensures !HostLike(name)
  {
    hide Numbered, HostIdentifier, Decimal;
    NumberedShape(InputName(shortName, parameter), used, name);
    var a, b := HostIdentifier(shortName), HostIdentifier(parameter);
    HostIdentifierStart(shortName);
    HostIdentifierStart(parameter);
    var at := |PREFIX + a|;
    assert InputName(shortName, parameter)[at] == b[0];
    assert name[at] == b[0] && at > |PREFIX|;
    if HostLike(name) {
      HostLikeRest(name, at);
    }
  }

  lemma HostLikeRest(name: string, i: nat)
    requires HostLike(name) && |PREFIX| < i < |name|
    ensures IsDigit(name[i]) || IsLower(name[i])
  {
    if i < |HOST| {
      assert name[i] == HOST[i];
      assert IsLower(HOST[11]) && IsLower(HOST[12]) && IsLower(HOST[13]);
    }
  }

  predicate BindsName(body: seq<Statement>, j: int, name: string) {
    0 <= j < |body| && body[j].name == name
  }

  /** Whatever is reserved and looks like an alias is bound in the end. */
  ghost predicate ReservedIsBound(site: Site, e: Emission) {
    forall x | x in site.reserved && HostLike(x) :: !Unbound(e, x)
  }

  lemma HostLikeIsStatement(site: Site, e: Emission, name: string) returns (j: nat)
    requires NamesChosen(site, e) && HostLike(name) && !Unbound(e, name)
    ensures BindsName(e.body, j, name)
    ensures Numbered(Wanted(site.host, e.body[j].service), e.identifiers, name)
  {
    hide HostLike, Numbered, InputName, FieldName;
    forall i | 0 <= i < |e.inputs| ensures e.inputs[i] != name {
      var shortName, parameter :| Numbered(InputName(shortName, parameter), e.identifiers,
                                           e.inputs[i]);
      InputIsNotHostLike(shortName, parameter, e.identifiers, e.inputs[i]);
    }
    var m :| 0 <= m < |e.body| && e.body[m].name == name;
    j := m;
    assert NamesService(site.host, e.identifiers, e.body[j].service, e.body[j].name);
  }

  lemma WantedIsNumbered(site: Site, e: Emission, j: nat)
    requires NamesChosen(site, e) && j < |e.body|
    ensures Numbered(Wanted(site.host, e.body[j].service), e.identifiers, e.body[j].name)
    ensures !Unbound(e, e.body[j].name)
  {
    hide Numbered, FieldName;
    assert NamesService(site.host, e.identifiers, e.body[j].service, e.body[j].name);
  }

  lemma TakenIsBound(site: Site, e: Emission, name: string)
    requires NamesChosen(site, e) && ReservedIsBound(site, e)
    requires name in e.identifiers && HostLike(name)
    ensures !Unbound(e, name)
  {
    hide Unbound, HostLike;
  }

  lemma HostItself()
    ensures HostLike(HOST) && !EndsInDigit(HOST)
    ensures forall k: nat :: HostLike(HOST + Decimal(k))
  {
    forall k: nat ensures HostLike(HOST + Decimal(k)) {
      assert IsAlias(k + 1, HOST + Decimal(k));
      AliasIsHostLike(k + 1, HOST + Decimal(k));
    }
  }

  /** A statement that is numbered because `foundationHost` is taken is not the only one. */
  lemma AnotherWantsHost(site: Site, e: Emission, j: nat) returns (i: nat)
    requires NamesChosen(site, e) && ReservedIsBound(site, e)
    requires j < |e.body| && e.body[j].name != HOST && HOST in e.identifiers
    ensures i < |e.body| && i != j && Wanted(site.host, e.body[i].service) == HOST
  {
    hide NamesChosen, Unbound, Wanted, Numbered, HostLike;
    HostItself();
    TakenIsBound(site, e, HOST);
    i := HostLikeIsStatement(site, e, HOST);
    NumberedShape(Wanted(site.host, e.body[i].service), e.identifiers, HOST);
  }

  lemma ClashIsWanted(site: Site, e: Emission, n: nat, k: nat)
    requires NamesChosen(site, e) && ReservedIsBound(site, e)
    requires k < n && !Unbound(e, HOST + Decimal(k))
    ensures WantsAlias(site.host, Services(e.body), n)
  {
    hide NamesChosen, Unbound, Wanted, HostLike, Decimal;
    TwoAsk(site.host, Services(e.body), HOST);
    var name := HOST + Decimal(k);
    assert IsAlias(n, name);
    AliasIsHostLike(n, name);
    var j := HostLikeIsStatement(site, e, name);
    var base := Wanted(site.host, e.body[j].service);
    assert Services(e.body)[j] == e.body[j].service;
    if name != base {
      var i: nat :| IsFirstFreeSuffix(base, e.identifiers, name, i);
      AliasBase(n, base, i);
      if base == HOST && !IsAlias(n, base) {
        var other := AnotherWantsHost(site, e, j);
        assert Services(e.body)[other] == e.body[other].service;
        assert other < j || j < other;
      }
    }
  }

  lemma WantedIsClash(site: Site, e: Emission, n: nat, j: nat)
    requires NamesChosen(site, e) && ReservedIsBound(site, e)
    requires j < |e.body| && IsAlias(n, Wanted(site.host, e.body[j].service))
    ensures !AvoidsAliases(e, n)
  {
    hide NamesChosen, Unbound, Wanted, HostLike, Decimal, Numbered;
    var base := Wanted(site.host, e.body[j].service);
    AliasIsHostLike(n, base);
    WantedIsNumbered(site, e, j);
    NumberedShape(base, e.identifiers, e.body[j].name);
    if base in e.identifiers {
      TakenIsBound(site, e, base);
    }
    assert !Unbound(e, base);
  }

  lemma TwoWantHost(site: Site, e: Emission, n: nat, i: nat, j: nat)
    requires WellEmitted(site, e) && ReservedIsBound(site, e) && n > 2 && i < j < |e.body|
    requires Wanted(site.host, e.body[i].service) == HOST == Wanted(site.host, e.body[j].service)
    ensures !AvoidsAliases(e, n)
  {
    hide NamesChosen, Unbound, Wanted, HostLike, Decimal, BoundBeforeUse;
    var m := if e.body[i].name == HOST then j else i;
    assert e.body[m].name != HOST;
    WantedIsNumbered(site, e, m);
    var k: nat :| IsFirstFreeSuffix(HOST, e.identifiers, e.body[m].name, k);
    var two: nat := 2;
    HostItself();
    if k > two {
      TakenIsBound(site, e, HOST + Decimal(two));
    }
    assert !Unbound(e, HOST + Decimal(two));
  }

  /**
    The body hides none of `n` imports exactly when no constructed service asks for the name of
    one and, with three imports or more, at most one asks for `foundationHost`.
   */
  lemma AliasesAvoidedIff(site: Site, e: Emission, n: nat)
    requires WellEmitted(site, e) && ReservedIsBound(site, e)
    ensures AvoidsAliases(e, n) <==> !WantsAlias(site.host, Services(e.body), n)
  {
    hide NamesChosen, Unbound, Wanted, IsAlias, BoundBeforeUse, DistinctBinders, Decimal,
      ReservedIsBound;
    var services := Services(e.body);
    if !AvoidsAliases(e, n) {
      var k: nat :| k < n && !Unbound(e, HOST + Decimal(k));
      ClashIsWanted(site, e, n, k);
    }
    if s :| s in services && IsAlias(n, Wanted(site.host, s)) {
      var j :| 0 <= j < |services| && services[j] == s;
      WantedIsClash(site, e, n, j);
    } else if WantsAlias(site.host, services, n) {
      TwoAsk(site.host, services, HOST);
      var i, j :| 0 <= i < j < |services| && Wanted(site.host, services[i]) == HOST
                  && Wanted(site.host, services[j]) == HOST;
      TwoWantHost(site, e, n, i, j);
    }
  }

  /** Over the plans: what application start asks for. */
  lemma StartWantsAliasIff(h: Host, n: nat)
    requires Ready(h) && StartIsUnscoped(h.plans)
    ensures WantsAlias(h, AllConstructed(h, Singleton), n) <==>
            || (exists s :: BuiltAtStart(h.plans, s) && IsAlias(n, Wanted(h, s)))
            || (n > 2 && Askers(h, AllConstructed(h, Singleton), HOST) > 1)
  {
    hide BuiltAtStart, AllConstructed, Wanted, IsAlias, Ready, StartIsUnscoped;
    ConstructedAtStart(h);
  }

  lemma HostFields()
    ensures FieldName("Host0") == HOST + Decimal(0)
    ensures FieldName("Host") == HOST
  {
    NameUnchanged("Host0");
    NameUnchanged("Host");
    assert PREFIX + "Host0" == HOST + "0" && PREFIX + "Host" == HOST;
  }

  /** A service `Host0` that is built at start takes the name of the first import. */
  lemma HostServiceClashes(h: Host, s: nat, n: nat)
    requires Ready(h) && StartIsUnscoped(h.plans) && n > 0
    requires BuiltAtStart(h.plans, s) && s in h.shortNames && h.shortNames[s] == "Host0"
    ensures WantsAlias(h, AllConstructed(h, Singleton), n)
    ensures forall site: Site, e |
              site.host == h && WellEmitted(site, e) && ReservedIsBound(site, e)
              && Services(e.body) == AllConstructed(h, Singleton) :: !AvoidsAliases(e, n)
  {
    hide Ready, StartIsUnscoped, BuiltAtStart, WellEmitted, ReservedIsBound, AvoidsAliases,
      AllConstructed, Decimal, FieldName, Services;
    HostFields();
    StartWantsAliasIff(h, n);
    assert IsAlias(n, Wanted(h, s)) by {
      var zero: nat := 0;
      assert Wanted(h, s) == HOST + Decimal(zero);
    }
    forall site: Site, e | site.host == h && WellEmitted(site, e) && ReservedIsBound(site, e)
                           && Services(e.body) == AllConstructed(h, Singleton)
      ensures !AvoidsAliases(e, n)
    {
      AliasesAvoidedIff(site, e, n);
    }
  }

  /** The binders `foundationRoutes` and those of the emission are pairwise distinct. */
  predicate RoutesAreDistinct(e: Emission) {
    Unbound(e, ROUTES)
  }

  lemma RoutesClash(site: Site, e: Emission, stored: map<nat, string>, initial: set<string>)
    requires Building(site, e, stored, stored.Keys, initial) && ROUTES in initial
    ensures RoutesAreDistinct(e) <==> ROUTES !in stored.Values
  {
    hide WellEmitted, Balanced;
    if ROUTES in stored.Values {
      var s :| s in stored && stored[s] == ROUTES;
      assert Binds(e.body, stored[s], s);
    } else {
      forall j | 0 <= j < |e.body| ensures e.body[j].name != ROUTES {
        if StartsStored(stored, e.body[j]) {
          assert stored[e.body[j].service] in stored.Values;
        }
      }
    }
  }

  lemma StoredAreBound(site: Site, e: Emission, stored: map<nat, string>, initial: set<string>)
    requires Building(site, e, stored, stored.Keys, initial)
    requires forall x | x in site.reserved :: x in stored.Values || x == ROUTES
    ensures ReservedIsBound(site, e)
  {
    hide WellEmitted, Balanced;
    assert ROUTES[|PREFIX|] != HOST[|PREFIX|];
    forall x | x in site.reserved && HostLike(x) ensures !Unbound(e, x) {
      var s :| s in stored && stored[s] == x;
      assert Binds(e.body, stored[s], s);
    }
  }

  lemma BuildingFinished(site: Site, e: Emission, stored: map<nat, string>, built: set<nat>,
                         initial: set<string>)
    requires Building(site, e, stored, built, initial) && stored.Keys <= built
    ensures Building(site, e, stored, stored.Keys, initial)
    ensures WellEmitted(site, e) && Balanced(site, e, multiset{})
  {
    hide WellEmitted, Balanced, Binds, Unbound;
  }

  /**
    The body of `BuildFoundationApplication`. Its own binders are distinct and bound before use,
    each singleton is constructed once, and every input and transient instance is used once.
    With routes, the route table's binder is distinct from them exactly when no singleton asks
    for the field name `foundationRoutes`. No import is hidden exactly when no constructed
    service asks for its name.
   */
  method BuildApplication(h: Host, hasRoutes: bool)
    returns (site: Site, context: ConstructionContext)
    requires Ready(h) && StartIsUnscoped(h.plans)
    ensures site.host == h && !site.applicationReceiver && !site.scopeReceiver
    ensures context.site == site
    ensures forall s :: s in site.fields <==> Has(h, s, Singleton)
    ensures WellEmitted(site, context.Current())
    ensures ConstructsOnce(site, context.Current(), site.fields)
    ensures forall s :: s in Services(context.body) <==> BuiltAtStart(h.plans, s)
    ensures Balanced(site, context.Current(), multiset{})
    ensures hasRoutes ==>
              (RoutesAreDistinct(context.Current()) <==>
               !exists s :: Has(h, s, Singleton) && FieldName(h.shortNames[s]) == ROUTES)
    ensures Services(context.body) == AllConstructed(h, Singleton)
    ensures forall n ::
              AvoidsAliases(context.Current(), n)
              <==> !WantsAlias(h, AllConstructed(h, Singleton), n)
  {
    hide Building, WellEmitted, Balanced, ConstructsOnce, RoutesAreDistinct, Ready, FieldName,
      Injective, StartIsUnscoped, FieldsNamed, AvoidsAliases, WantsAlias, ReservedIsBound,
      Services, AllConstructed, BuiltAtStart;
    ConstructedAtStart(h);
    var fields := AssignFields(h, Singleton);
    var scopeFields := AssignFields(h, Scoped);
    var identifiers := if hasRoutes then {ROUTES} else {};
    identifiers := identifiers + fields.Values;
    ghost var all := identifiers;
    site := Site(h, fields, scopeFields, false, false, "scope", identifiers);
    context := EmitStored(site, fields, Singleton, identifiers);
    BuiltOnce(site, context.Current(), fields, h.plans.Keys, all);
    BuildingFinished(site, context.Current(), fields, h.plans.Keys, all);
    StoredAreBound(site, context.Current(), fields, all);
    forall n {
      AliasesAvoidedIff(site, context.Current(), n);
    }
    if hasRoutes {
      RoutesClash(site, context.Current(), fields, all);
      assert !EndsInDigit(ROUTES);
    }
  }

  /** A singleton service called `Routes` asks for the name of the route table. */
  lemma RoutesServiceClashes(h: Host, s: nat)
    requires Ready(h) && Has(h, s, Singleton) && h.shortNames[s] == "Routes"
    ensures exists x :: Has(h, x, Singleton) && FieldName(h.shortNames[x]) == ROUTES
  {
    hide FieldName, Ready;
    RoutesField();
  }

  lemma RoutesField()
    ensures FieldName("Routes") == ROUTES
  {
    NameUnchanged("Routes");
    hide FieldName;
    assert PREFIX + "Routes" == ROUTES;
  }

  /**
    The body of `NewScope`: each scoped service is constructed once, singletons are read from
    the application, and no binder is called `self`.
   */
  method NewScope(h: Host) returns (site: Site, context: ConstructionContext)
    requires Ready(h)
    ensures site.host == h && site.applicationReceiver && !site.scopeReceiver
    ensures context.site == site
    ensures forall s :: s in site.scopeFields <==> Has(h, s, Scoped)
    ensures WellEmitted(site, context.Current()) && Unbound(context.Current(), "self")
    ensures ConstructsOnce(site, context.Current(), site.scopeFields)
    ensures forall s :: s in Services(context.body) <==> IsConstructed(h, Scoped, s)
    ensures Balanced(site, context.Current(), multiset{})
    ensures Services(context.body) == AllConstructed(h, Scoped)
    ensures forall n ::
              AvoidsAliases(context.Current(), n)
              <==> !WantsAlias(h, AllConstructed(h, Scoped), n)
  {
    hide Building, WellEmitted, Balanced, ConstructsOnce, Ready, FieldName, Injective, Unbound,
      FieldsNamed, AvoidsAliases, WantsAlias, ReservedIsBound, Services, AllConstructed,
      IsConstructed;
    AllConstructedAre(h, Scoped);
    var fields := AssignFields(h, Singleton);
    var scopeFields := AssignFields(h, Scoped);
    site := Site(h, fields, scopeFields, true, false, "scope", scopeFields.Values);
    context := EmitStored(site, scopeFields, Scoped, scopeFields.Values);
    BuiltOnce(site, context.Current(), scopeFields, h.plans.Keys, scopeFields.Values);
    BuildingFinished(site, context.Current(), scopeFields, h.plans.Keys, scopeFields.Values);
    StoredAreBound(site, context.Current(), scopeFields, scopeFields.Values);
    forall n {
      AliasesAvoidedIff(site, context.Current(), n);
    }
    SelfIsUnbound(site, context.Current());
  }

  lemma SelfIsUnbound(site: Site, e: Emission)
    requires WellEmitted(site, e)
    ensures Unbound(e, "self")
  {
    hide BoundBeforeUse;
    assert "self"[0] != PREFIX[0];
  }

  // ---------- actions ----------

  /** Binders of an action: the emission's are new, and a scope parameter is new as well. */
  ghost predicate NewBinders(e: Emission, taken: set<string>) {
    forall name | name in taken :: Unbound(e, name)
  }

  /**
    The activation of an action. It takes a scope exactly when its service reaches a scoped one
    through transient services; it constructs transient services only, and uses each once.
   */
  method ActivateAction(h: Host, fields: map<nat, string>, scopeFields: map<nat, string>,
                        oracle: ScopeOracle, service: nat, parameters: seq<string>,
                        mutable: bool)
    returns (scope: Option<string>, target: Argument, context: ConstructionContext)
    requires Ready(h) && service in h.plans && oracle.host == h && oracle.AllRight()
    requires forall s :: s in fields <==> Has(h, s, Singleton)
    requires forall s :: s in scopeFields <==> Has(h, s, Scoped)
    modifies oracle
    ensures oracle.AllRight()
    ensures scope.Some? <==> ReachesScope(h.plans, service)
    ensures context.site == Site(h, fields, scopeFields, true, scope.Some?,
                                 if scope.Some? then scope.value else "scope",
                                 context.site.reserved)
    ensures scope.Some? ==> scope.value != "self" && scope.value !in parameters
    ensures var taken := {"self"} + (set x | x in parameters)
                         + if scope.Some? then {scope.value} else {};
            NewBinders(context.Current(), taken) && context.site.reserved == taken
    ensures WellEmitted(context.site, context.Current())
    ensures Services(context.body) == ForAction(h, service)
    ensures forall x :: x in Services(context.body) <==>
                        Has(h, service, Transient) && (x == service || IsPart(h, service, x))
    ensures (forall x | x in parameters :: !HostLike(x)) ==>
              forall n ::
                AvoidsAliases(context.Current(), n) <==> !WantsAlias(h, ForAction(h, service), n)
    ensures forall j :: 0 <= j < |context.body| ==> Has(h, context.body[j].service, Transient)
    ensures Has(h, service, Transient) ==>
              target.Plain? && Binds(context.body, target.name, service)
              && Balanced(context.site, context.Current(), multiset{target.name})
    ensures Has(h, service, Scoped) ==>
              scope.Some? && target == ScopeField(scope.value, scopeFields[service])
              && context.body == [] && context.inputs == []
    ensures Has(h, service, Singleton) ==>
              target == ApplicationField(fields[service])
              && context.body == [] && context.inputs == []
  {
    hide Ready, WellEmitted, Balanced, Generated, ReachesScope, Served, Binds, IsFirstFree,
      NewBinders, Emitted, HostLike, AvoidsAliases, WantsAlias, ReservedIsBound, Grown, Position,
      Next, Services, Adds, Constructions, ForAction, IsPart;
    ForActionAre(h, service);
    ForActionIs(h, service);
    ReachesScopeStep(h.plans, service);
    oracle.AllRightBelow(service);
    ghost var before := oracle.memo;
    var scoped := oracle.RequiresScope(service);
    oracle.StillAllRight(service, before);
    var identifiers := {"self"};
    var i := 0;
    while i < |parameters|
      invariant 0 <= i <= |parameters|
      invariant identifiers == {"self"} + set x | x in parameters[..i]
    {
      assert parameters[..i + 1] == parameters[..i] + [parameters[i]];
      identifiers := identifiers + {parameters[i]};
      i := i + 1;
    }
    assert parameters[..i] == parameters;
    scope := None;
    if scoped {
      var name := UniqueName("foundationScope", identifiers);
      ScopeNameIsGenerated();
      ScopeNameIsNotHostLike(identifiers, name);
      BaseGenerated("foundationScope", identifiers, name);
      identifiers := identifiers + {name};
      scope := Some(name);
    }
    var site := Site(h, fields, scopeFields, true, scope.Some?,
                     if scope.Some? then scope.value else "scope", identifiers);
    context := new ConstructionContext(site, identifiers);
    NothingEmitted(site, identifiers);
    assert identifiers == {"self"} + (set x | x in parameters)
                          + if scope.Some? then {scope.value} else {};
    ghost var start := context.Current();
    if h.plans[service].lifetime == Transient {
      ServedInAction(site, service);
      ghost var none: multiset<string> := multiset{};
      var local := context.EmitConstruction(service, None, mutable, multiset{});
      target := Plain(local);
      assert none + multiset{local} == multiset{local};
      EmittedTransient(site, start, context.Current(), service, None, local);
      FromTheStart(identifiers, context.Current(), Constructions(h, service));
      GrownBinders(site, start, context.Current());
    } else if scoped {
      target := ScopeField(scope.value, scopeFields[service]);
      GrownReflexive(site, start);
      GrownBinders(site, start, context.Current());
    } else {
      target := ApplicationField(fields[service]);
      GrownReflexive(site, start);
      GrownBinders(site, start, context.Current());
    }
    ActionAliases(site, context.Current(), parameters, scope);
  }

  lemma ActionAliases(site: Site, e: Emission, parameters: seq<string>, scope: Option<string>)
    requires WellEmitted(site, e) && (scope.Some? ==> !HostLike(scope.value))
    requires site.reserved == {"self"} + (set x | x in parameters)
                              + if scope.Some? then {scope.value} else {}
    ensures (forall x | x in parameters :: !HostLike(x)) ==>
              forall n ::
                AvoidsAliases(e, n) <==> !WantsAlias(site.host, Services(e.body), n)
  {
    hide HostLike, AvoidsAliases, WantsAlias, WellEmitted, Unbound;
    SelfIsNotHostLike();
    if forall x | x in parameters :: !HostLike(x) {
      forall n {
        AliasesAvoidedIff(site, e, n);
      }
    }
  }

  lemma ScopeNameIsNotHostLike(used: set<string>, name: string)
    requires IsFirstFree("foundationScope", used, name)
    ensures !HostLike(name)
  {
    hide Numbered;
    NumberedShape("foundationScope", used, name);
    assert name[|PREFIX|] == 'S' && HOST[|PREFIX|] == 'H';
  }

  lemma SelfIsNotHostLike()
    ensures !HostLike("self")
  {
    assert "self"[0] != HOST[0];
  }

  lemma ScopeNameIsGenerated()
    ensures Generated("foundationScope")
  {
  }

  lemma NothingEmitted(site: Site, identifiers: set<string>)
    requires site.reserved == identifiers
    ensures WellEmitted(site, Emission([], identifiers, []))
    ensures Balanced(site, Emission([], identifiers, []), multiset{})
  {
  }

  lemma GrownBinders(site: Site, a: Emission, b: Emission)
    requires Grown(site, a, b) && a.inputs == [] && a.body == []
    ensures NewBinders(b, a.identifiers)
    ensures forall j :: 0 <= j < |b.body| ==> Has(site.host, b.body[j].service, Transient)
  {
  }

  lemma ServedInAction(site: Site, service: nat)
    requires ReadySite(site) && Has(site.host, service, Transient) && site.applicationReceiver
    requires site.scopeReceiver <==> ReachesScope(site.host.plans, service)
    ensures Served(site, [], service)
  {
    hide Needs, ReachesScope, Ready, Binds;
    forall p | Needs(site.host.plans, service, p)
      ensures p in site.scopeFields ==> site.scopeReceiver
    {
      if p in site.scopeFields {
        NeedsScope(site.host.plans, service, p);
      }
    }
  }

  // ---------- balance means one use each ----------

  predicate BindsTransient(site: Site, body: seq<Statement>, name: string) {
    exists j :: 0 <= j < |body| && body[j].name == name
                && Has(site.host, body[j].service, Transient)
  }

  lemma BindsTransientAppend(site: Site, body: seq<Statement>, last: Statement, name: string)
    ensures BindsTransient(site, body + [last], name)
            <==> BindsTransient(site, body, name)
                 || (last.name == name && Has(site.host, last.service, Transient))
  {
    hide Has;
    var all := body + [last];
    assert all[|body|] == last && forall j :: 0 <= j < |body| ==> all[j] == body[j];
  }

  lemma {:induction false} TransientCount(site: Site, body: seq<Statement>, name: string)
    requires forall i, j :: 0 <= i < j < |body| ==> body[i].name != body[j].name
    ensures TransientNames(site, body)[name] == if BindsTransient(site, body, name) then 1 else 0
  {
    hide Has;
    if body != [] {
      var rest, last := body[..|body| - 1], body[|body| - 1];
      assert body == rest + [last];
      BindsTransientAppend(site, rest, last, name);
      TransientCount(site, rest, name);
      if BindsTransient(site, rest, name) {
        var j :| 0 <= j < |rest| && rest[j].name == name
                 && Has(site.host, rest[j].service, Transient);
        assert body[j].name != last.name;
      }
    }
  }

  lemma {:induction false} InputCount(inputs: seq<string>, name: string)
    requires forall i, j :: 0 <= i < j < |inputs| ==> inputs[i] != inputs[j]
    ensures multiset(inputs)[name] == if name in inputs then 1 else 0
  {
    if inputs != [] {
      var rest, last := inputs[..|inputs| - 1], inputs[|inputs| - 1];
      assert inputs == rest + [last];
      InputCount(rest, name);
    }
  }

  /** In a balanced body every input and every transient instance is used exactly once. */
  lemma UsedExactlyOnce(site: Site, e: Emission, name: string)
    requires WellEmitted(site, e) && Balanced(site, e, multiset{})
    ensures BodyUses(site, e.body)[name]
            == if name in e.inputs || BindsTransient(site, e.body, name) then 1 else 0
  {
    hide BoundBeforeUse, BodyUses, TransientNames, Has;
    TransientCount(site, e.body, name);
    InputCount(e.inputs, name);
    if name in e.inputs {
      var i :| 0 <= i < |e.inputs| && e.inputs[i] == name;
      assert forall j :: 0 <= j < |e.body| ==> e.body[j].name != e.inputs[i];
      assert !BindsTransient(site, e.body, name);
    }
    assert (multiset(e.inputs) + TransientNames(site, e.body))[name]
           == (BodyUses(site, e.body) + multiset{})[name];
  }
}
