/**
  Planning of dependency injection (compiler/src/application.cpp:5349-5449, 5547-5605): the
  worklist that gathers every service the host needs, and the depth-first search that orders
  the services and reports dependency cycles.

  A service is named by its index. The candidates of a parameter are what `providerCandidates`
  finds for its type and selector; `returnsService` and `fallible` are what `returnsService`
  finds out about a constructor. Errors are a sequence of codes without a cap.
 */
module ServicePlan {
  import opened Wrappers

  datatype Lifetime = Transient | Scoped | Singleton

  datatype Mode = Read | Edit | Transfer

  datatype Parameter = Parameter(name: string, mode: Mode, input: bool, selector: Option<string>,
                                 candidates: seq<nat>)

  datatype Constructor = Constructor(isNew: bool, receiver: bool, generic: bool,
                                     returnsService: bool, fallible: bool,
                                     parameters: seq<Parameter>)

  datatype Service = Service(name: string, generic: bool, providerName: Option<string>,
                             lifetime: Lifetime, constructors: seq<Constructor>)

  type Program = seq<Service>

  datatype Dependency = Dependency(parameter: string, mode: Mode, provider: Option<nat>,
                                   input: bool)

  datatype Plan = Plan(selected: nat, lifetime: Lifetime, fallible: bool,
                       dependencies: seq<Dependency>)

  predicate WellFormed(program: Program) {
    forall s, c, p, k | s in program && c in s.constructors && p in c.parameters
                        && k in p.candidates :: k < |program|
  }

  // ---------- what a single service asks for ----------

  function FirstNew(constructors: seq<Constructor>): Option<nat> {
    if constructors == [] then None
    else if constructors[0].isNew then Some(0)
    else
      var rest := FirstNew(constructors[1..]);
      if rest.None? then None else Some(rest.value + 1)
  }

  lemma {:induction false} FirstNewIsFirst(constructors: seq<Constructor>)
    ensures var k := FirstNew(constructors);
            if k.None? then forall c | c in constructors :: !c.isNew
            else k.value < |constructors| && constructors[k.value].isNew
                 && forall c | c in constructors[..k.value] :: !c.isNew
  {
    if constructors != [] && !constructors[0].isNew {
      FirstNewIsFirst(constructors[1..]);
      var rest := FirstNew(constructors[1..]);
      if rest.Some? {
        assert constructors[..rest.value + 1]
               == [constructors[0]] + constructors[1..][..rest.value];
      }
    }
  }

  /** The constructor a service is built with: its only one, or else the one called New. */
  function Selected(s: Service): (r: Option<nat>)
    ensures r.Some? ==> r.value < |s.constructors|
  {
    if s.generic || s.constructors == [] then None
    else if |s.constructors| == 1 then Some(0)
    else
      FirstNewIsFirst(s.constructors);
      FirstNew(s.constructors)
  }

  function Resolve(p: Parameter): Option<nat> {
    if !p.input && p.selector != Some("") && |p.candidates| == 1 then Some(p.candidates[0])
    else None
  }

  function PlanOf(s: Service): Plan
    requires Selected(s).Some?
  {
    var c := s.constructors[Selected(s).value];
    Plan(Selected(s).value, s.lifetime, c.fallible,
         seq(|c.parameters|, i requires 0 <= i < |c.parameters| =>
             Dependency(c.parameters[i].name, c.parameters[i].mode, Resolve(c.parameters[i]),
                        c.parameters[i].input)))
  }

  /** A parameter that raises no diagnostic. */
  predicate CleanParameter(p: Parameter) {
    && p.selector != Some("") && p.mode != Edit
    && (if p.input then p.selector.None? else |p.candidates| == 1)
  }

  /** A service that raises no diagnostic. */
  predicate Clean(s: Service) {
    && s.providerName != Some("") && Selected(s).Some?
    && var c := s.constructors[Selected(s).value];
       !c.receiver && !c.generic && c.returnsService
       && forall p | p in c.parameters :: CleanParameter(p)
  }

  function Providers(dependencies: seq<Dependency>): set<nat> {
    set d | d in dependencies && d.provider.Some? :: d.provider.value
  }

  method PlanParameter(p: Parameter) returns (d: Dependency, codes: seq<string>)
    ensures d == Dependency(p.name, p.mode, Resolve(p), p.input)
    ensures codes == [] <==> CleanParameter(p)
  {
    codes := [];
    var provider := None;
    if p.selector == Some("") {
      codes := ["FDN2346"];
    } else if p.input && p.selector.Some? {
      codes := ["FDN2306"];
    } else if !p.input {
      if p.candidates == [] {
        codes := ["FDN2307"];
      } else if |p.candidates| != 1 {
        codes := ["FDN2308"];
      } else {
        provider := Some(p.candidates[0]);
      }
    }
    if p.mode == Edit {
      codes := codes + ["FDN2309"];
    }
    d := Dependency(p.name, p.mode, provider, p.input);
  }

  method PlanParameters(parameters: seq<Parameter>)
    returns (dependencies: seq<Dependency>, found: set<nat>, codes: seq<string>)
    ensures |dependencies| == |parameters|
    ensures forall i :: 0 <= i < |parameters| ==>
              var p := parameters[i];
              dependencies[i] == Dependency(p.name, p.mode, Resolve(p), p.input)
    ensures found == Providers(dependencies)
    ensures codes == [] <==> forall p | p in parameters :: CleanParameter(p)
  {
    hide CleanParameter, Resolve;
    dependencies, found, codes := [], {}, [];
    var i := 0;
    while i < |parameters|
      invariant 0 <= i <= |parameters| && |dependencies| == i
      invariant forall j :: 0 <= j < i ==>
                  var p := parameters[j];
                  dependencies[j] == Dependency(p.name, p.mode, Resolve(p), p.input)
      invariant found == Providers(dependencies)
      invariant codes == [] <==> forall p | p in parameters[..i] :: CleanParameter(p)
    {
      var dependency, more := PlanParameter(parameters[i]);
      codes := codes + more;
      if dependency.provider.Some? {
        found := found + {dependency.provider.value};
      }
      ProvidersAppend(dependencies, dependency);
      assert parameters[..i + 1] == parameters[..i] + [parameters[i]];
      dependencies := dependencies + [dependency];
      i := i + 1;
    }
    assert parameters[..i] == parameters;
  }

  method PlanService(s: Service) returns (plan: Option<Plan>, found: set<nat>, codes: seq<string>)
    ensures plan.Some? <==> Selected(s).Some?
    ensures plan.Some? ==> plan.value == PlanOf(s) && found == Providers(plan.value.dependencies)
    ensures plan.None? ==> found == {}
    ensures codes == [] <==> Clean(s)
  {
    hide CleanParameter, Resolve, Providers;
    plan, found, codes := None, {}, [];
    if s.generic {
      return None, {}, ["FDN2300"];
    }
    if s.providerName == Some("") {
      codes := codes + ["FDN2345"];
    }
    if s.constructors == [] {
      return None, {}, codes + ["FDN2301"];
    }
    var selected := 0;
    if |s.constructors| != 1 {
      var canonical := FirstNew(s.constructors);
      if canonical.None? {
        return None, {}, codes + ["FDN2302"];
      }
      selected := canonical.value;
    }
    assert Selected(s) == Some(selected);
    var c := s.constructors[selected];
    if c.receiver {
      codes := codes + ["FDN2303"];
    }
    if c.generic {
      codes := codes + ["FDN2304"];
    }
    if !c.returnsService {
      codes := codes + ["FDN2305"];
    }
    var dependencies, more;
    dependencies, found, more := PlanParameters(c.parameters);
    codes := codes + more;
    assert dependencies == PlanOf(s).dependencies;
    plan := Some(Plan(selected, s.lifetime, c.fallible, dependencies));
  }

  lemma ProvidersAppend(dependencies: seq<Dependency>, d: Dependency)
    ensures Providers(dependencies + [d])
            == Providers(dependencies) + if d.provider.Some? then {d.provider.value} else {}
  {
    var all := dependencies + [d];
    assert d in all;
    assert forall x :: x in all <==> x in dependencies || x == d;
  }

  // ---------- the services reachable from the roots ----------

  /** The providers that the plan of a service asks for; none when the service is refused. */
  function Asked(program: Program, s: nat): set<nat> {
    if s < |program| && Selected(program[s]).Some? then Providers(PlanOf(program[s]).dependencies)
    else {}
  }

  predicate Leads(program: Program, roots: set<nat>, path: seq<nat>, s: nat) {
    && path != [] && path[0] in roots && path[|path| - 1] == s
    && forall i :: 0 <= i < |path| - 1 ==> path[i + 1] in Asked(program, path[i])
  }

  /** The services the host needs, stated without any worklist. */
  ghost predicate Reachable(program: Program, roots: set<nat>, s: nat) {
    exists path: seq<nat> :: Leads(program, roots, path, s)
  }

  lemma RootsAreReachable(program: Program, roots: set<nat>, s: nat)
    requires s in roots
    ensures Reachable(program, roots, s)
  {
    assert Leads(program, roots, [s], s);
  }

  lemma AskedAreReachable(program: Program, roots: set<nat>, s: nat, d: nat)
    requires Reachable(program, roots, s) && d in Asked(program, s)
    ensures Reachable(program, roots, d)
  {
    var path: seq<nat> :| Leads(program, roots, path, s);
    assert Leads(program, roots, path + [d], d);
  }

  lemma {:induction false} ClosedCoversPath(program: Program, roots: set<nat>, closed: set<nat>,
                                            path: seq<nat>, s: nat)
    requires roots <= closed && Leads(program, roots, path, s)
    requires forall x | x in closed :: Asked(program, x) <= closed
    ensures s in closed
    decreases |path|
  {
    if |path| > 1 {
      var prefix := path[..|path| - 1];
      assert Leads(program, roots, prefix, prefix[|prefix| - 1]);
      ClosedCoversPath(program, roots, closed, prefix, prefix[|prefix| - 1]);
      assert path[|path| - 2 + 1] in Asked(program, path[|path| - 2]);
    }
  }

  lemma ClosedCovers(program: Program, roots: set<nat>, closed: set<nat>)
    requires roots <= closed
    requires forall x | x in closed :: Asked(program, x) <= closed
    ensures forall s: nat | Reachable(program, roots, s) :: s in closed
  {
    forall s: nat | Reachable(program, roots, s) ensures s in closed {
      var path: seq<nat> :| Leads(program, roots, path, s);
      ClosedCoversPath(program, roots, closed, path, s);
    }
  }

  lemma AskedAreDeclared(program: Program, s: nat)
    requires WellFormed(program)
    ensures forall d | d in Asked(program, s) :: d < |program|
  {
    if s < |program| && Selected(program[s]).Some? {
      var c := program[s].constructors[Selected(program[s]).value];
      forall d | d in Asked(program, s) ensures d < |program| {
        var dependency :| dependency in PlanOf(program[s]).dependencies
                          && dependency.provider == Some(d);
        var i :| 0 <= i < |c.parameters| && dependency == PlanOf(program[s]).dependencies[i];
        assert c.parameters[i] in c.parameters && d in c.parameters[i].candidates;
        assert program[s] in program;
      }
    }
  }

  /** Every service a plan names is planned, and only application inputs have no provider. */
  predicate Resolved(plans: map<nat, Plan>) {
    forall s, d | s in plans && d in plans[s].dependencies ::
      (d.input <==> d.provider.None?) && (d.provider.Some? ==> d.provider.value in plans)
  }

  lemma CleanResolves(s: Service, d: Dependency)
    requires Clean(s) && d in PlanOf(s).dependencies
    ensures d.input <==> d.provider.None?
    ensures d.provider.Some? ==> d.provider.value in Providers(PlanOf(s).dependencies)
  {
    var c := s.constructors[Selected(s).value];
    var i :| 0 <= i < |c.parameters| && d == PlanOf(s).dependencies[i];
    assert CleanParameter(c.parameters[i]);
  }

  predicate IsLeast(r: nat, pending: set<nat>) {
    r in pending && forall x | x in pending :: r <= x
  }

  lemma {:induction false} LeastExists(pending: set<nat>)
    requires pending != {}
    ensures exists r: nat :: IsLeast(r, pending)
    decreases |pending|
  {
    var some :| some in pending;
    var rest := pending - {some};
    if rest == {} {
      assert forall x | x in pending :: x == some || x in rest;
      assert IsLeast(some, pending);
    } else {
      LeastExists(rest);
      var least: nat :| IsLeast(least, rest);
      assert forall x | x in pending :: x == some || x in rest;
      assert IsLeast(if some < least then some else least, pending);
    }
  }

  function Unplanned(program: Program, plans: map<nat, Plan>): set<nat> {
    set s: nat | s < |program| && s !in plans
  }

  /**
    The worklist terminates, plans exactly the acceptable services among those reachable from
    the roots, and stays silent exactly when every reachable service is clean.
   */
  method BuildPlans(program: Program, roots: set<nat>)
    returns (plans: map<nat, Plan>, errors: seq<string>)
    requires WellFormed(program) && forall s | s in roots :: s < |program|
    ensures forall s: nat :: s in plans <==>
              Reachable(program, roots, s) && s < |program| && Selected(program[s]).Some?
    ensures forall s | s in plans :: plans[s] == PlanOf(program[s])
    ensures errors == [] <==>
            forall s: nat | Reachable(program, roots, s) :: s < |program| && Clean(program[s])
    ensures errors == [] ==>
              Resolved(plans) && forall s: nat :: s in plans <==> Reachable(program, roots, s)
  {
    hide PlanOf, Selected, Clean, Providers, WellFormed, Leads, Reachable;
    plans, errors := map[], [];
    var pending := roots;
    ghost var refused: set<nat> := {};
    forall s | s in roots ensures Reachable(program, roots, s) {
      RootsAreReachable(program, roots, s);
    }
    while pending != {}
      invariant forall s: nat | s in pending + plans.Keys + refused ::
                  s < |program| && Reachable(program, roots, s)
      invariant roots <= pending + plans.Keys + refused
      invariant forall s: nat | s in plans ::
                  Selected(program[s]).Some? && plans[s] == PlanOf(program[s])
                  && Asked(program, s) <= pending + plans.Keys + refused
      invariant forall s: nat | s in refused :: Selected(program[s]).None?
      invariant errors == [] <==> forall s: nat | s in plans.Keys + refused :: Clean(program[s])
      decreases Unplanned(program, plans), pending
    {
      LeastExists(pending);
      var service: nat :| IsLeast(service, pending);
      pending := pending - {service};
      if service in plans {
        continue;
      }
      var plan, found, codes := PlanService(program[service]);
      errors := errors + codes;
      if plan.None? {
        refused := refused + {service};
        continue;
      }
      AskedAreDeclared(program, service);
      forall d | d in found ensures d < |program| && Reachable(program, roots, d) {
        AskedAreReachable(program, roots, service, d);
      }
      pending := pending + found;
      assert service in Unplanned(program, plans);
      plans := plans[service := plan.value];
    }
    ClosedCovers(program, roots, plans.Keys + refused);
    if errors == [] {
      forall s | s in refused ensures false {
        CleanIsSelected(program[s]);
      }
      forall s, d | s in plans && d in plans[s].dependencies
        ensures (d.input <==> d.provider.None?)
                && (d.provider.Some? ==> d.provider.value in plans)
      {
        CleanResolves(program[s], d);
      }
    }
  }

  lemma CleanIsSelected(s: Service)
    requires Clean(s)
    ensures Selected(s).Some?
  {
  }

  // ---------- the dependency graph of the plans ----------

  /** The planned providers of a service: the edges that the ordering follows. */
  function Next(plans: map<nat, Plan>, s: nat): set<nat> {
    if s in plans then (set d | d in Providers(plans[s].dependencies) && d in plans) else {}
  }

  predicate IsPath(plans: map<nat, Plan>, path: seq<nat>) {
    forall i :: 0 <= i < |path| - 1 ==> path[i + 1] in Next(plans, path[i])
  }

  /** A closed walk along dependencies. */
  predicate IsCycle(plans: map<nat, Plan>, path: seq<nat>) {
    |path| > 1 && path[0] == path[|path| - 1] && IsPath(plans, path)
  }

  /** Every provider stands before its dependents. */
  predicate ProvidersFirst(plans: map<nat, Plan>, order: seq<nat>) {
    forall i, d | 0 <= i < |order| && d in Next(plans, order[i]) :: d in order[..i]
  }

  lemma {:induction false} PathDescends(plans: map<nat, Plan>, order: seq<nat>, path: seq<nat>,
                                        at: nat, k: nat) returns (j: nat)
    requires Distinct(order) && ProvidersFirst(plans, order) && IsPath(plans, path)
    requires k < |path| && at < |order| && path[0] == order[at]
    ensures j <= at && (k > 0 ==> j < at) && path[k] == order[j]
    decreases k
  {
    if k == 0 {
      j := at;
    } else {
      var i := PathDescends(plans, order, path, at, k - 1);
      assert path[k - 1 + 1] in Next(plans, path[k - 1]);
      assert path[k] in order[..i];
      j :| 0 <= j < i && order[j] == path[k];
    }
  }

  /** A service order that lists every provider first rules out dependency cycles. */
  lemma OrderedIsAcyclic(plans: map<nat, Plan>, order: seq<nat>)
    requires Distinct(order) && ProvidersFirst(plans, order)
    requires forall s :: s in plans ==> s in order
    ensures !exists path: seq<nat> :: IsCycle(plans, path)
  {
    forall path: seq<nat> ensures !IsCycle(plans, path) {
      if IsCycle(plans, path) {
        assert path[0 + 1] in Next(plans, path[0]);
        var at :| 0 <= at < |order| && order[at] == path[0];
        var j := PathDescends(plans, order, path, at, |path| - 1);
      }
    }
  }

  lemma NextArePlanned(plans: map<nat, Plan>, s: nat)
    ensures forall d | d in Next(plans, s) :: d in plans
  {
  }

  // ---------- the depth-first ordering ----------

  /** The variables of the search; `state` holds 0 for a service it does not mention. */
  datatype Search = Search(state: map<nat, nat>, stack: seq<nat>, order: seq<nat>,
                           reported: set<(nat, nat)>, cycles: seq<seq<nat>>)
  {
    function Mark(s: nat): nat {
      if s in state then state[s] else UNSEEN
    }
  }

  ghost predicate Marked(plans: map<nat, Plan>, q: Search) {
    && Distinct(q.stack) && Distinct(q.order)
    && (forall s: nat :: q.Mark(s) == ACTIVE <==> s in q.stack)
    && (forall s: nat :: q.Mark(s) == DONE <==> s in q.order)
    && (forall s: nat :: q.Mark(s) <= DONE && (q.Mark(s) > UNSEEN ==> s in plans))
  }

  /** A finished service has each provider before it, or a reported edge to it. */
  ghost predicate Settled(plans: map<nat, Plan>, q: Search) {
    forall i, d | 0 <= i < |q.order| && d in Next(plans, q.order[i]) ::
      d in q.order[..i] || (q.order[i], d) in q.reported
  }

  predicate Closes(c: seq<nat>, edge: (nat, nat)) {
    |c| > 1 && c[|c| - 2] == edge.0 && c[|c| - 1] == edge.1
  }

  /** Reports and reported edges match, and every report is a real cycle through its edge. */
  ghost predicate Reported(plans: map<nat, Plan>, q: Search) {
    && (forall c | c in q.cycles ::
          IsCycle(plans, c) && (c[|c| - 2], c[|c| - 1]) in q.reported)
    && (forall e | e in q.reported :: exists c :: c in q.cycles && Closes(c, e))
    && |q.cycles| == |q.reported|
  }

  ghost predicate Valid(plans: map<nat, Plan>, q: Search) {
    Marked(plans, q) && IsPath(plans, q.stack) && Settled(plans, q) && Reported(plans, q)
  }

  /** Later searches keep what is finished, the reports, and the state of the active services. */
  ghost predicate Extends(before: Search, after: Search) {
    && before.order <= after.order && before.reported <= after.reported
    && (forall s: nat :: before.Mark(s) > UNSEEN ==> after.Mark(s) >= before.Mark(s))
  }

  function Enter(q: Search, s: nat): Search {
    q.(state := q.state[s := ACTIVE], stack := q.stack + [s])
  }

  lemma EnterValid(plans: map<nat, Plan>, q: Search, s: nat)
    requires Valid(plans, q) && q.Mark(s) == UNSEEN && s in plans
    requires q.stack != [] ==> s in Next(plans, q.stack[|q.stack| - 1])
    ensures Valid(plans, Enter(q, s))
  {
    hide Next, IsCycle;
    assert forall x: nat :: Enter(q, s).Mark(x) == if x == s then ACTIVE else q.Mark(x);
  }

  lemma SeenFacts(plans: map<nat, Plan>, q: Search, s: nat)
    requires Valid(plans, q)
    ensures Extends(q, q) && (q.Mark(s) == DONE ==> s in q.order) && q.Mark(s) <= DONE
  {
  }

  lemma EnterExtends(plans: map<nat, Plan>, q: Search, s: nat)
    requires q.Mark(s) == UNSEEN && s in plans
    ensures Extends(q, Enter(q, s)) && Unseen(plans, Enter(q, s)) < Unseen(plans, q)
  {
    assert s in Unseen(plans, q);
    assert forall x: nat :: Enter(q, s).Mark(x) == if x == s then ACTIVE else q.Mark(x);
  }

  function Unseen(plans: map<nat, Plan>, q: Search): set<nat> {
    set s | s in plans && q.Mark(s) == UNSEEN
  }

  lemma ExtendsShrinks(plans: map<nat, Plan>, a: Search, b: Search)
    requires Extends(a, b)
    ensures Unseen(plans, b) <= Unseen(plans, a)
  {
  }

  lemma ExtendsTransitive(a: Search, b: Search, c: Search)
    requires Extends(a, b) && Extends(b, c)
    ensures Extends(a, c)
    ensures forall d | d in b.order :: d in c.order
    ensures b.reported <= c.reported
  {
  }

  function Leave(q: Search, s: nat): Search
    requires q.stack != []
  {
    q.(state := q.state[s := DONE], stack := q.stack[..|q.stack| - 1], order := q.order + [s])
  }

  lemma LeaveMarked(plans: map<nat, Plan>, q: Search, s: nat)
    requires Marked(plans, q) && q.stack != [] && q.stack[|q.stack| - 1] == s
    ensures Marked(plans, Leave(q, s)) && Extends(q, Leave(q, s))
  {
    var r := Leave(q, s);
    assert q.stack == r.stack + [s];
    assert forall x: nat :: r.Mark(x) == if x == s then DONE else q.Mark(x);
    assert q.Mark(s) == ACTIVE && s !in q.order;
  }

  lemma LeaveSettled(plans: map<nat, Plan>, q: Search, s: nat)
    requires Settled(plans, q) && q.stack != []
    requires forall d | d in Next(plans, s) :: d in q.order || (s, d) in q.reported
    ensures Settled(plans, Leave(q, s))
  {
    hide Next;
    var r := Leave(q, s);
    forall i, d | 0 <= i < |r.order| && d in Next(plans, r.order[i])
      ensures d in r.order[..i] || (r.order[i], d) in r.reported
    {
      if i < |q.order| {
        assert r.order[..i] == q.order[..i];
      } else {
        assert r.order[..i] == q.order;
      }
    }
  }

  lemma LeaveValid(plans: map<nat, Plan>, q: Search, s: nat)
    requires Valid(plans, q) && q.stack != [] && q.stack[|q.stack| - 1] == s
    requires forall d | d in Next(plans, s) :: d in q.order || (s, d) in q.reported
    ensures Valid(plans, Leave(q, s)) && Extends(q, Leave(q, s))
  {
    hide Next, IsCycle, Marked, Settled, Extends;
    LeaveMarked(plans, q, s);
    LeaveSettled(plans, q, s);
  }

  function Find(stack: seq<nat>, s: nat): (r: nat)
    ensures r <= |stack| && (r < |stack| ==> stack[r] == s) && s !in stack[..r]
  {
    if stack == [] || stack[0] == s then 0
    else
      var r := Find(stack[1..], s) + 1;
      assert stack[..r] == [stack[0]] + stack[1..][..r - 1];
      r
  }

  /** The report for an edge back into the stack: the stack from its target on, and the target. */
  function Report(q: Search, service: nat, d: nat): Search {
    q.(reported := q.reported + {(service, d)},
       cycles := q.cycles + [q.stack[Find(q.stack, d)..] + [d]])
  }

  lemma SuffixIsPath(plans: map<nat, Plan>, path: seq<nat>, at: nat, d: nat)
    requires IsPath(plans, path) && at < |path| && d in Next(plans, path[|path| - 1])
    ensures IsPath(plans, path[at..] + [d])
  {
    hide Next;
    var c := path[at..] + [d];
    forall i | 0 <= i < |c| - 1 ensures c[i + 1] in Next(plans, c[i]) {
      if i < |c| - 2 {
        assert path[at + i + 1] in Next(plans, path[at + i]);
      }
    }
  }

  lemma ReportIsCycle(plans: map<nat, Plan>, stack: seq<nat>, d: nat)
    requires IsPath(plans, stack) && d in stack && d in Next(plans, stack[|stack| - 1])
    ensures var c := stack[Find(stack, d)..] + [d];
            IsCycle(plans, c) && Closes(c, (stack[|stack| - 1], d))
  {
    hide Next, IsPath;
    var at := Find(stack, d);
    assert stack[..|stack|] == stack;
    SuffixIsPath(plans, stack, at, d);
  }

  lemma ReportValid(plans: map<nat, Plan>, q: Search, service: nat, d: nat)
    requires Valid(plans, q) && q.stack != [] && q.stack[|q.stack| - 1] == service
    requires d in Next(plans, service) && q.Mark(d) == ACTIVE && (service, d) !in q.reported
    ensures Valid(plans, Report(q, service, d)) && Extends(q, Report(q, service, d))
  {
    hide Next, IsCycle, IsPath, Find;
    ReportIsCycle(plans, q.stack, d);
    var c := q.stack[Find(q.stack, d)..] + [d];
    var r := Report(q, service, d);
    assert forall x: nat :: r.Mark(x) == q.Mark(x);
    assert c in r.cycles;
    forall e | e in r.reported ensures exists k :: k in r.cycles && Closes(k, e) {
      if e in q.reported {
        var k :| k in q.cycles && Closes(k, e);
        assert k in r.cycles;
      }
    }
  }

  // ---------- sorting by name ----------

  /** `rank` is the position of a service's name among all names; names are unique. */
  predicate Ranked(services: set<nat>, rank: map<nat, nat>) {
    && services <= rank.Keys
    && forall a, b | a in services && b in services :: rank[a] == rank[b] ==> a == b
  }

  predicate ByName(xs: seq<nat>, rank: map<nat, nat>)
    requires forall x | x in xs :: x in rank
  {
    forall i :: 0 <= i < |xs| - 1 ==> rank[xs[i]] <= rank[xs[i + 1]]
  }

  function Insert(x: nat, xs: seq<nat>, rank: map<nat, nat>): (r: seq<nat>)
    requires x in rank && forall y | y in xs :: y in rank
    requires ByName(xs, rank)
    ensures forall y :: y in r <==> y == x || y in xs
    ensures ByName(r, rank) && r != [] && (r[0] == x || (xs != [] && r[0] == xs[0]))
  {
    if xs == [] then [x]
    else if rank[x] <= rank[xs[0]] then [x] + xs
    else
      [xs[0]] + Insert(x, xs[1..], rank)
  }

  /** Stands for `std::sort` by name. */
  function SortByName(xs: seq<nat>, rank: map<nat, nat>): (r: seq<nat>)
    requires forall y | y in xs :: y in rank
    ensures forall y :: y in r <==> y in xs
    ensures ByName(r, rank)
  {
    if xs == [] then [] else Insert(xs[0], SortByName(xs[1..], rank), rank)
  }

  predicate StrictlyByName(xs: seq<nat>, rank: map<nat, nat>) {
    && (forall x | x in xs :: x in rank)
    && forall i :: 0 <= i < |xs| - 1 ==> rank[xs[i]] < rank[xs[i + 1]]
  }

  /** Stands for `std::unique` and the erasure after it. */
  function Unique(xs: seq<nat>, services: set<nat>, rank: map<nat, nat>): (r: seq<nat>)
    requires Ranked(services, rank) && (forall y | y in xs :: y in services) && ByName(xs, rank)
    ensures forall y :: y in r <==> y in xs
    ensures StrictlyByName(r, rank)
    ensures xs != [] ==> r != [] && r[0] == xs[0]
  {
    if |xs| <= 1 then xs
    else
      assert xs[0 + 1] == xs[1];
      var rest := Unique(xs[1..], services, rank);
      if xs[0] == xs[1] then rest
      else
        assert rank[xs[0]] < rank[xs[1]];
        [xs[0]] + rest
  }

  class Orderer {
    const plans: map<nat, Plan>
    const rank: map<nat, nat>
    var state: map<nat, nat>
    var stack: seq<nat>
    var order: seq<nat>
    var reported: set<(nat, nat)>
    var cycles: seq<seq<nat>>

    ghost function Current(): Search
      reads this
    {
      Search(state, stack, order, reported, cycles)
    }

    constructor (plans: map<nat, Plan>, rank: map<nat, nat>)
      ensures this.plans == plans && this.rank == rank
      ensures Current() == Search(map[], [], [], {}, [])
      ensures Valid(plans, Current())
    {
      this.plans, this.rank := plans, rank;
      state, stack, order, reported, cycles := map[], [], [], {}, [];
    }

    method PlannedProviders(service: nat) returns (r: seq<nat>)
      requires service in plans
      ensures forall d :: d in r <==> d in Next(plans, service)
    {
      r := [];
      var dependencies := plans[service].dependencies;
      var i := 0;
      while i < |dependencies|
        invariant 0 <= i <= |dependencies|
        invariant forall d :: d in r <==> d in Providers(dependencies[..i]) && d in plans
      {
        var d := dependencies[i];
        assert dependencies[..i + 1] == dependencies[..i] + [d];
        ProvidersAppend(dependencies[..i], d);
        if d.provider.Some? && d.provider.value in plans {
          r := r + [d.provider.value];
        }
        i := i + 1;
      }
      assert dependencies[..i] == dependencies;
    }

    /** The planned providers of a service, by name, each once. */
    method SortedProviders(service: nat) returns (r: seq<nat>)
      requires service in plans && Ranked(plans.Keys, rank)
      ensures forall d :: d in r <==> d in Next(plans, service)
      ensures StrictlyByName(r, rank)
    {
      hide Next, ByName, StrictlyByName;
      var wanted := PlannedProviders(service);
      NextArePlanned(plans, service);
      r := Unique(SortByName(wanted, rank), plans.Keys, rank);
    }

    /** Reports the edge from the top of the stack to an active service, once. */
    method ReportCycle(service: nat, d: nat)
      requires Valid(plans, Current()) && stack != [] && stack[|stack| - 1] == service
      requires d in Next(plans, service) && Current().Mark(d) == ACTIVE
      modifies this`reported, this`cycles
      ensures Valid(plans, Current()) && Extends(old(Current()), Current())
      ensures reported == old(reported) + {(service, d)}
      ensures cycles == if (service, d) in old(reported) then old(cycles)
                        else old(cycles) + [stack[Find(stack, d)..] + [d]]
    {
      hide Valid, Next, Extends, Find;
      ghost var here := Current();
      SeenFacts(plans, here, d);
      if (service, d) !in reported {
        ReportValid(plans, here, service, d);
        reported := reported + {(service, d)};
        cycles := cycles + [stack[Find(stack, d)..] + [d]];
        assert Current() == Report(here, service, d);
      }
    }

    method Visit(service: nat)
      requires Valid(plans, Current()) && service in plans && Ranked(plans.Keys, rank)
      requires stack != [] ==> service in Next(plans, stack[|stack| - 1])
      modifies this
      ensures Valid(plans, Current()) && Extends(old(Current()), Current())
      ensures stack == old(stack)
      ensures old(Current()).Mark(service) != ACTIVE ==> service in order
      decreases Unseen(plans, Current())
    {
      hide Valid, Next, Extends, Ranked, StrictlyByName, Unseen, Find;
      SeenFacts(plans, Current(), service);
      if service in state && state[service] == DONE {
        return;
      }
      if service in state && state[service] == ACTIVE {
        return;
      }
      ghost var before := Current();
      EnterValid(plans, before, service);
      state := state[service := ACTIVE];
      stack := stack + [service];
      assert Current() == Enter(before, service);
      var dependencies := SortedProviders(service);
      var i := 0;
      ghost var entered := Current();
      EnterExtends(plans, before, service);
      SeenFacts(plans, entered, service);
      NextArePlanned(plans, service);
      while i < |dependencies|
        invariant 0 <= i <= |dependencies|
        invariant Valid(plans, Current()) && Extends(entered, Current())
        invariant stack == before.stack + [service]
        invariant forall d | d in dependencies[..i] :: d in order || (service, d) in reported
      {
        var d := dependencies[i];
        ghost var here := Current();
        ExtendsShrinks(plans, entered, here);
        SeenFacts(plans, here, d);
        if d in state && state[d] == ACTIVE {
          ReportCycle(service, d);
        } else {
          Visit(d);
        }
        ExtendsTransitive(entered, here, Current());
        i := i + 1;
      }
      ghost var there := Current();
      assert dependencies[..i] == dependencies;
      LeaveValid(plans, Current(), service);
      stack := stack[..|stack| - 1];
      state := state[service := DONE];
      order := order + [service];
      assert Current() == Leave(there, service);
      ExtendsTransitive(entered, there, Current());
      ExtendsTransitive(before, entered, Current());
    }

    /**
      Orders all plans. A cycle is reported exactly when the dependencies have one; without
      one, the order lists every plan once, each after all its providers.
     */
    method OrderServices() returns (result: seq<nat>, reports: seq<seq<nat>>)
      requires Ranked(plans.Keys, rank) && Current() == Search(map[], [], [], {}, [])
      modifies this
      ensures Distinct(result) && forall s :: s in result <==> s in plans
      ensures forall c | c in reports :: IsCycle(plans, c)
      ensures reports == [] <==> !exists path: seq<nat> :: IsCycle(plans, path)
      ensures reports == [] ==> ProvidersFirst(plans, result)
      ensures forall i, d | 0 <= i < |result| && d in Next(plans, result[i]) && d !in result[..i] ::
                exists c :: c in reports && Closes(c, (result[i], d))
    {
      hide Next, IsCycle, Extends, Reported, Marked;
      var services := plans.Keys;
      var roots := [];
      EmptyValid(plans);
      while services != {}
        invariant services <= plans.Keys
        invariant forall s :: s in roots <==> s in plans.Keys - services
      {
        var s :| s in services;
        roots := roots + [s];
        services := services - {s};
      }
      roots := SortByName(roots, rank);
      var i := 0;
      while i < |roots|
        invariant 0 <= i <= |roots| && Valid(plans, Current()) && stack == []
        invariant forall s | s in roots[..i] :: s in order
      {
        ghost var before := Current();
        SeenFacts(plans, before, roots[i]);
        NothingActive(plans, before, roots[i]);
        assert roots[i] in roots;
        Visit(roots[i]);
        ExtendsTransitive(before, before, Current());
        i := i + 1;
      }
      assert roots[..i] == roots;
      Conclude(plans, Current());
      return order, cycles;
    }
  }

  lemma EmptyValid(plans: map<nat, Plan>)
    ensures Valid(plans, Search(map[], [], [], {}, []))
  {
  }

  lemma NothingActive(plans: map<nat, Plan>, q: Search, s: nat)
    requires Valid(plans, q) && q.stack == []
    ensures q.Mark(s) != ACTIVE
  {
  }

  lemma Conclude(plans: map<nat, Plan>, q: Search)
    requires Valid(plans, q) && forall s | s in plans :: s in q.order
    ensures Distinct(q.order) && forall s :: s in q.order <==> s in plans
    ensures forall c | c in q.cycles :: IsCycle(plans, c)
    ensures q.cycles == [] <==> !exists path: seq<nat> :: IsCycle(plans, path)
    ensures q.cycles == [] ==> ProvidersFirst(plans, q.order)
    ensures forall i, d | 0 <= i < |q.order| && d in Next(plans, q.order[i])
                          && d !in q.order[..i] ::
              exists c :: c in q.cycles && Closes(c, (q.order[i], d))
  {
    hide Next, IsCycle;
    if q.cycles == [] {
      assert ProvidersFirst(plans, q.order);
      OrderedIsAcyclic(plans, q.order);
    } else {
      assert q.cycles[0] in q.cycles;
      assert IsCycle(plans, q.cycles[0]);
    }
  }
}
