/**
  The order in which C definitions of structs, enums and arrays are emitted
  (compiler/src/codegen.cpp:4879-4893, 6031-6091): a type comes after every type it contains
  inline. The queue counts containments with their repetitions.
 */
module InlineTypes {
  import opened Wrappers
  import opened FirTypes

  /** Field types, payload types, and the array types collected for emission. */
  datatype Program = Program(structs: seq<seq<Type>>, enums: seq<seq<Option<Type>>>,
                             arrays: seq<Type>)
  {
    function Count(): nat {
      |structs| + |enums| + |arrays|
    }
  }

  predicate InRange(p: Program, t: Type) {
    && (t.kind == Struct ==> t.declaration < |p.structs|)
    && (t.kind == Enum ==> t.declaration < |p.enums|)
  }

  /** Declarations exist, and array types are collected once each, with one element type. */
  predicate WellFormed(p: Program) {
    && (forall s, f :: 0 <= s < |p.structs| && 0 <= f < |p.structs[s]| ==>
          InRange(p, p.structs[s][f]))
    && (forall e, v :: 0 <= e < |p.enums| && 0 <= v < |p.enums[e]| && p.enums[e][v].Some? ==>
          InRange(p, p.enums[e][v].value))
    && (forall a :: 0 <= a < |p.arrays| ==>
          |p.arrays[a].arguments| == 1 && InRange(p, p.arrays[a].arguments[0]))
    && (forall a, b :: 0 <= a < b < |p.arrays| ==> p.arrays[a] != p.arrays[b])
  }

  function IndexOf(arrays: seq<Type>, t: Type): (r: Option<nat>)
    ensures r.Some? ==> r.value < |arrays| && arrays[r.value] == t
    ensures r.None? ==> t !in arrays
  {
    if arrays == [] then None
    else if arrays[0] == t then Some(0)
    else
      var r := IndexOf(arrays[1..], t);
      if r.None? then None else Some(r.value + 1)
  }

  /** The node of a type that is emitted by definition; others need no order. */
  function TypeNode(p: Program, t: Type): (r: Option<nat>)
    requires InRange(p, t)
    ensures r.Some? ==> r.value < p.Count()
  {
    if t.kind == Struct then Some(t.declaration)
    else if t.kind == Enum then Some(|p.structs| + t.declaration)
    else if t.kind == Array then
      var a := IndexOf(p.arrays, t);
      if a.None? then None else Some(|p.structs| + |p.enums| + a.value)
    else None
  }

  function Payloads(variants: seq<Option<Type>>): seq<Type> {
    if variants == [] then []
    else (if variants[0].Some? then [variants[0].value] else []) + Payloads(variants[1..])
  }

  lemma {:induction false} PayloadsInRange(p: Program, variants: seq<Option<Type>>)
    requires forall v :: 0 <= v < |variants| && variants[v].Some? ==> InRange(p, variants[v].value)
    ensures AllInRange(p, Payloads(variants))
  {
    if variants != [] {
      PayloadsInRange(p, variants[1..]);
    }
  }

  predicate AllInRange(p: Program, ts: seq<Type>) {
    forall i :: 0 <= i < |ts| ==> InRange(p, ts[i])
  }

  /** The types a node contains inline. */
  function Parts(p: Program, n: nat): (ts: seq<Type>)
    requires WellFormed(p) && n < p.Count()
    ensures AllInRange(p, ts)
  {
    if n < |p.structs| then p.structs[n]
    else if n < |p.structs| + |p.enums| then
      PayloadsInRange(p, p.enums[n - |p.structs|]);
      Payloads(p.enums[n - |p.structs|])
    else [p.arrays[n - |p.structs| - |p.enums|].arguments[0]]
  }

  function Targets(p: Program, ts: seq<Type>): (r: seq<nat>)
    requires AllInRange(p, ts)
    ensures forall i :: 0 <= i < |r| ==> r[i] < p.Count()
  {
    if ts == [] then []
    else
      var last := TypeNode(p, ts[|ts| - 1]);
      Targets(p, ts[..|ts| - 1]) + if last.Some? then [last.value] else []
  }

  /** The nodes a node contains inline, as often as it contains them. */
  function Inline(p: Program, n: nat): (r: seq<nat>)
    requires WellFormed(p) && n < p.Count()
    ensures forall i :: 0 <= i < |r| ==> r[i] < p.Count()
  {
    Targets(p, Parts(p, n))
  }

  // ---------- cycles of containment ----------

  predicate IsWalk(p: Program, path: seq<nat>)
    requires WellFormed(p)
  {
    && (forall i :: 0 <= i < |path| ==> path[i] < p.Count())
    && forall i :: 0 <= i < |path| - 1 ==> path[i + 1] in Inline(p, path[i])
  }

  /** A type that contains itself inline, through the types on the path. */
  predicate IsCycle(p: Program, path: seq<nat>)
    requires WellFormed(p)
  {
    |path| > 1 && IsWalk(p, path) && path[0] == path[|path| - 1]
  }

  /** Everything a listed type contains inline is listed before it. */
  predicate PartsFirst(p: Program, order: seq<nat>)
    requires WellFormed(p)
  {
    && (forall i :: 0 <= i < |order| ==> order[i] < p.Count())
    && forall i, m :: 0 <= i < |order| && m in Inline(p, order[i]) ==> m in order[..i]
  }

  lemma {:induction false} WalkDescends(p: Program, order: seq<nat>, path: seq<nat>, at: nat,
                                        k: nat)
    returns (j: nat)
    requires WellFormed(p) && Distinct(order) && PartsFirst(p, order) && IsWalk(p, path)
    requires k < |path| && at < |order| && path[0] == order[at]
    ensures j <= at && (k > 0 ==> j < at) && path[k] == order[j]
    decreases k
  {
    if k == 0 {
      j := at;
    } else {
      var i := WalkDescends(p, order, path, at, k - 1);
      assert path[k - 1 + 1] in Inline(p, path[k - 1]);
      var earlier := order[..i];
      assert path[k] in earlier;
      var before: nat :| before < |earlier| && earlier[before] == path[k];
      j := before;
    }
  }

  lemma CompleteOrderHasNoCycle(p: Program, order: seq<nat>)
    requires WellFormed(p) && Distinct(order) && PartsFirst(p, order)
    requires forall n: nat :: n < p.Count() ==> n in order
    ensures !exists path: seq<nat> :: IsCycle(p, path)
  {
    hide WellFormed, Inline, PartsFirst;
    forall path: seq<nat> ensures !IsCycle(p, path) {
      if IsCycle(p, path) {
        assert path[0] < p.Count() && path[0] in order;
        var at :| 0 <= at < |order| && order[at] == path[0];
        var j := WalkDescends(p, order, path, at, |path| - 1);
      }
    }
  }

  /** Among more entries than there are numbers below a bound, one repeats. */
  lemma {:induction false} Pigeonhole(s: seq<nat>, bound: nat) returns (i: nat, j: nat)
    requires |s| > bound && forall k :: 0 <= k < |s| ==> s[k] < bound
    ensures i < j < |s| && s[i] == s[j]
    decreases bound
  {
    var last := |s| - 1;
    if k: nat :| k < last && s[k] == s[last] {
      i, j := k, last;
    } else {
      var top := bound - 1;
      var rest := seq(last, k requires 0 <= k < last => if s[k] == top then s[last] else s[k]);
      i, j := Pigeonhole(rest, top);
    }
  }

  ghost predicate ContainsOneOf(p: Program, stuck: set<nat>, n: nat)
    requires WellFormed(p)
  {
    n < p.Count() && exists m :: m in Inline(p, n) && m in stuck
  }

  lemma ExtendWalk(p: Program, path: seq<nat>, m: nat)
    requires WellFormed(p) && path != [] && IsWalk(p, path)
    requires m in Inline(p, path[|path| - 1])
    ensures IsWalk(p, path + [m])
  {
    hide WellFormed, Inline;
    var contained := Inline(p, path[|path| - 1]);
    var i :| 0 <= i < |contained| && contained[i] == m;
  }

  /** If every node of a set contains a node of the set, containment has long walks. */
  lemma {:induction false} Descend(p: Program, stuck: set<nat>, path: seq<nat>, length: nat)
    returns (longer: seq<nat>)
    requires WellFormed(p) && path != [] && IsWalk(p, path) && path[|path| - 1] in stuck
    requires forall n | n in stuck :: ContainsOneOf(p, stuck, n)
    ensures IsWalk(p, longer) && |longer| == |path| + length
    decreases length
  {
    hide WellFormed, Inline, IsWalk;
    longer := path;
    if length > 0 {
      var n := path[|path| - 1];
      assert ContainsOneOf(p, stuck, n);
      var m :| m in Inline(p, n) && m in stuck;
      ExtendWalk(p, path, m);
      longer := Descend(p, stuck, path + [m], length - 1);
    }
  }

  lemma WalkPart(p: Program, walk: seq<nat>, i: nat, j: nat)
    requires WellFormed(p) && IsWalk(p, walk) && i < j < |walk|
    ensures IsWalk(p, walk[i..j + 1])
  {
    hide WellFormed, Inline;
    var path := walk[i..j + 1];
    forall k | 0 <= k < |path| - 1 ensures path[k + 1] in Inline(p, path[k]) {
      assert walk[i + k + 1] in Inline(p, walk[i + k]);
    }
  }

  lemma StuckMeansCycle(p: Program, stuck: set<nat>) returns (path: seq<nat>)
    requires WellFormed(p) && stuck != {}
    requires forall n | n in stuck :: ContainsOneOf(p, stuck, n)
    ensures IsCycle(p, path)
  {
    hide WellFormed, Inline;
    var n :| n in stuck;
    assert ContainsOneOf(p, stuck, n);
    assert IsWalk(p, [n]);
    var walk := Descend(p, stuck, [n], p.Count());
    var i, j := Pigeonhole(walk, p.Count());
    WalkPart(p, walk, i, j);
    path := walk[i..j + 1];
  }

  // ---------- building the counts ----------

  /** `lists[n]` are the targets counted for node `n`; the arrays hold their numbers. */
  predicate Counts(lists: seq<seq<nat>>, dependencies: seq<nat>, dependents: seq<seq<nat>>) {
    && |lists| == |dependencies| == |dependents|
    && (forall n :: 0 <= n < |lists| ==> dependencies[n] == |lists[n]|)
    && (forall m, n :: 0 <= m < |lists| && 0 <= n < |lists| ==>
          multiset(dependents[m])[n] == multiset(lists[n])[m])
    && (forall m, k :: 0 <= m < |lists| && 0 <= k < |dependents[m]| ==>
          dependents[m][k] < |lists|)
  }

  lemma AppendCounts(s: seq<nat>, x: nat, y: nat)
    ensures multiset(s + [x])[y] == multiset(s)[y] + if x == y then 1 else 0
  {
    assert multiset(s + [x]) == multiset(s) + multiset{x};
  }

  lemma CountsAdd(lists: seq<seq<nat>>, dependencies: seq<nat>, dependents: seq<seq<nat>>,
                  node: nat, target: nat)
    requires Counts(lists, dependencies, dependents)
    requires node < |lists| && target < |lists|
    ensures Counts(lists[node := lists[node] + [target]],
                   dependencies[node := dependencies[node] + 1],
                   dependents[target := dependents[target] + [node]])
  {
    var after := dependents[target := dependents[target] + [node]];
    var more := lists[node := lists[node] + [target]];
    forall m, n | 0 <= m < |lists| && 0 <= n < |lists|
      ensures multiset(after[m])[n] == multiset(more[n])[m]
    {
      AppendCounts(dependents[target], node, n);
      AppendCounts(lists[node], target, m);
      assert multiset(dependents[m])[n] == multiset(lists[n])[m];
    }
  }

  lemma CountsNothing(lists: seq<seq<nat>>, dependencies: seq<nat>, dependents: seq<seq<nat>>)
    requires |lists| == |dependencies| == |dependents|
    requires forall n :: 0 <= n < |lists| ==>
               lists[n] == [] && dependencies[n] == 0 && dependents[n] == []
    ensures Counts(lists, dependencies, dependents)
  {
  }

  lemma NoTargets(p: Program)
    ensures AllInRange(p, []) && Targets(p, []) == []
  {
  }

  lemma TargetsNext(p: Program, ts: seq<Type>, i: nat)
    requires AllInRange(p, ts) && i < |ts|
    ensures AllInRange(p, ts[..i]) && AllInRange(p, ts[..i + 1]) && InRange(p, ts[i])
    ensures Targets(p, ts[..i + 1])
            == if TypeNode(p, ts[i]).Some? then Targets(p, ts[..i]) + [TypeNode(p, ts[i]).value]
               else Targets(p, ts[..i])
  {
    assert ts[..i + 1][..i] == ts[..i];
  }

  method CountEdge(dependencies: array<nat>, dependents: array<seq<nat>>, node: nat, target: nat)
    requires node < dependencies.Length && target < dependents.Length
    modifies dependencies, dependents
    ensures dependencies[..]
            == old(dependencies[..])[node := old(dependencies[node]) + 1]
    ensures dependents[..]
            == old(dependents[..])[target := old(dependents[target]) + [node]]
  {
    dependencies[node] := dependencies[node] + 1;
    dependents[target] := dependents[target] + [node];
  }

  /** Counts the contained types of one node. */
  method AddParts(p: Program, node: nat, ts: seq<Type>, dependencies: array<nat>,
                  dependents: array<seq<nat>>, ghost lists: seq<seq<nat>>)
    requires AllInRange(p, ts) && node < p.Count() == |lists| && lists[node] == []
    requires Counts(lists, dependencies[..], dependents[..])
    modifies dependencies, dependents
    ensures Counts(lists[node := Targets(p, ts)], dependencies[..], dependents[..])
  {
    hide Counts, TypeNode, InRange, AllInRange, Targets;
    var i := 0;
    ghost var counted := lists;
    NoTargets(p);
    assert lists[node := []] == lists && ts[..0] == [];
    CountsLengths(lists, dependencies[..], dependents[..]);
    while i < |ts|
      invariant 0 <= i <= |ts| && AllInRange(p, ts[..i])
      invariant counted == lists[node := Targets(p, ts[..i])]
      invariant dependencies.Length == dependents.Length == |lists|
      invariant Counts(counted, dependencies[..], dependents[..])
    {
      TargetsNext(p, ts, i);
      var target := TypeNode(p, ts[i]);
      if target.Some? {
        CountsAdd(counted, dependencies[..], dependents[..], node, target.value);
        CountEdge(dependencies, dependents, node, target.value);
        counted := counted[node := counted[node] + [target.value]];
      }
      i := i + 1;
    }
    assert ts[..i] == ts;
  }

  lemma CountsLengths(lists: seq<seq<nat>>, dependencies: seq<nat>, dependents: seq<seq<nat>>)
    requires Counts(lists, dependencies, dependents)
    ensures |lists| == |dependencies| == |dependents|
  {
  }

  /** The containments of the first `n` nodes, and none of the others. */
  function Counted(p: Program, n: nat): (lists: seq<seq<nat>>)
    requires WellFormed(p) && n <= p.Count()
    ensures |lists| == p.Count()
  {
    seq(p.Count(), k requires 0 <= k < p.Count() => if k < n then Inline(p, k) else [])
  }

  lemma CountedNext(p: Program, n: nat)
    requires WellFormed(p) && n < p.Count()
    ensures Counted(p, n)[n] == []
    ensures Counted(p, n)[n := Targets(p, Parts(p, n))] == Counted(p, n + 1)
  {
  }

  /** Structs, enums and arrays in turn, in the order of their nodes. */
  method CountAll(p: Program, dependencies: array<nat>, dependents: array<seq<nat>>)
    requires WellFormed(p) && dependencies.Length == dependents.Length == p.Count()
    requires forall n :: 0 <= n < p.Count() ==> dependencies[n] == 0 && dependents[n] == []
    modifies dependencies, dependents
    ensures Counts(Counted(p, p.Count()), dependencies[..], dependents[..])
  {
    hide Counts, Counted, WellFormed, Parts, AllInRange;
    NothingCounted(p);
    CountsNothing(Counted(p, 0), dependencies[..], dependents[..]);
    var s := 0;
    while s < |p.structs|
      invariant 0 <= s <= |p.structs|
      invariant Counts(Counted(p, s), dependencies[..], dependents[..])
    {
      StructParts(p, s);
      CountedNext(p, s);
      AddParts(p, s, p.structs[s], dependencies, dependents, Counted(p, s));
      s := s + 1;
    }
    var e := 0;
    while e < |p.enums|
      invariant 0 <= e <= |p.enums|
      invariant Counts(Counted(p, |p.structs| + e), dependencies[..], dependents[..])
    {
      EnumParts(p, e);
      CountedNext(p, |p.structs| + e);
      AddParts(p, |p.structs| + e, Payloads(p.enums[e]), dependencies, dependents,
               Counted(p, |p.structs| + e));
      e := e + 1;
    }
    var a := 0;
    while a < |p.arrays|
      invariant 0 <= a <= |p.arrays|
      invariant Counts(Counted(p, |p.structs| + |p.enums| + a), dependencies[..], dependents[..])
    {
      ArrayParts(p, a);
      CountedNext(p, |p.structs| + |p.enums| + a);
      AddParts(p, |p.structs| + |p.enums| + a, [p.arrays[a].arguments[0]], dependencies,
               dependents, Counted(p, |p.structs| + |p.enums| + a));
      a := a + 1;
    }
  }

  lemma NothingCounted(p: Program)
    requires WellFormed(p)
    ensures forall n :: 0 <= n < p.Count() ==> Counted(p, 0)[n] == []
  {
  }

  lemma StructParts(p: Program, s: nat)
    requires WellFormed(p) && s < |p.structs|
    ensures Parts(p, s) == p.structs[s] && AllInRange(p, p.structs[s])
  {
  }

  lemma EnumParts(p: Program, e: nat)
    requires WellFormed(p) && e < |p.enums|
    ensures Parts(p, |p.structs| + e) == Payloads(p.enums[e])
            && AllInRange(p, Payloads(p.enums[e]))
  {
    PayloadsInRange(p, p.enums[e]);
  }

  lemma ArrayParts(p: Program, a: nat)
    requires WellFormed(p) && a < |p.arrays|
    ensures |p.arrays[a].arguments| == 1
    ensures Parts(p, |p.structs| + |p.enums| + a) == [p.arrays[a].arguments[0]]
            && AllInRange(p, [p.arrays[a].arguments[0]])
  {
  }

  // ---------- the queue ----------

  /** How many entries of a list are not done, with repetitions. */
  function Pending(list: seq<nat>, done: set<nat>): nat {
    if list == [] then 0
    else Pending(list[..|list| - 1], done) + if list[|list| - 1] in done then 0 else 1
  }

  lemma {:induction false} PendingNone(list: seq<nat>)
    ensures Pending(list, {}) == |list|
  {
    if list != [] {
      PendingNone(list[..|list| - 1]);
    }
  }

  lemma {:induction false} PendingWithout(list: seq<nat>, done: set<nat>, m: nat)
    requires m !in done
    ensures Pending(list, done) == Pending(list, done + {m}) + multiset(list)[m]
  {
    if list != [] {
      assert list == list[..|list| - 1] + [list[|list| - 1]];
      PendingWithout(list[..|list| - 1], done, m);
    }
  }

  lemma {:induction false} PendingZero(list: seq<nat>, done: set<nat>)
    ensures Pending(list, done) == 0 <==> forall m | m in list :: m in done
  {
    if list != [] {
      assert list == list[..|list| - 1] + [list[|list| - 1]];
      PendingZero(list[..|list| - 1], done);
    }
  }

  /**
    Between two rounds: counts are what is pending, and the queue holds what has nothing
    pending, each once, behind everything it contains.
   */
  ghost predicate Queued(p: Program, lists: seq<seq<nat>>, dependencies: seq<nat>,
                         ready: seq<nat>, done: set<nat>)
  {
    && |lists| == |dependencies| == p.Count() && Distinct(ready)
    && (forall n :: 0 <= n < |lists| ==> dependencies[n] == Pending(lists[n], done))
    && (forall n: nat :: n in ready <==> n < |lists| && dependencies[n] == 0)
  }

  /** Between two decrements for node `m`: `seen` of its dependents have been visited. */
  ghost predicate Releasing(lists: seq<seq<nat>>, dependencies: seq<nat>, ready: seq<nat>,
                            done: set<nat>, seen: seq<nat>)
  {
    && |lists| == |dependencies| && Distinct(ready)
    && (forall n :: 0 <= n < |lists| ==>
          dependencies[n] + multiset(seen)[n] == Pending(lists[n], done))
    && (forall n: nat :: n in ready <==> n < |lists| && dependencies[n] == 0)
  }

  lemma ReleaseOne(lists: seq<seq<nat>>, dependencies: seq<nat>, ready: seq<nat>,
                   done: set<nat>, all: seq<nat>, k: nat, m: nat)
    requires k < |all| && Releasing(lists, dependencies, ready, done, all[..k])
    requires m !in done && m < |lists| && all[k] < |lists|
    requires forall n :: 0 <= n < |lists| ==> multiset(all)[n] == multiset(lists[n])[m]
    ensures dependencies[all[k]] > 0
    ensures var fewer := dependencies[all[k] := dependencies[all[k]] - 1];
            Releasing(lists, fewer, if fewer[all[k]] == 0 then ready + [all[k]] else ready, done,
                      all[..k + 1])
  {
    var n := all[k];
    assert all[..k + 1] == all[..k] + [n];
    AppendIsWithin(all, k);
    PendingWithout(lists[n], done, m);
    assert multiset(all)[n] == multiset(lists[n])[m];
    assert dependencies[n] > 0;
    forall x | 0 <= x < |lists|
      ensures multiset(all[..k + 1])[x] == multiset(all[..k])[x] + if x == n then 1 else 0
    {
      AppendCounts(all[..k], n, x);
    }
  }

  lemma AppendIsWithin(all: seq<nat>, k: nat)
    requires k < |all|
    ensures multiset(all[..k])[all[k]] < multiset(all)[all[k]]
  {
    assert all == all[..k] + [all[k]] + all[k + 1..];
  }

  lemma Released(p: Program, lists: seq<seq<nat>>, dependencies: seq<nat>, ready: seq<nat>,
                 done: set<nat>, all: seq<nat>, m: nat)
    requires Releasing(lists, dependencies, ready, done, all) && m !in done
    requires |lists| == p.Count()
    requires forall n :: 0 <= n < |lists| ==> multiset(all)[n] == multiset(lists[n])[m]
    ensures Queued(p, lists, dependencies, ready, done + {m})
  {
    hide Pending;
    forall n | 0 <= n < |lists| ensures dependencies[n] == Pending(lists[n], done + {m}) {
      PendingWithout(lists[n], done, m);
    }
  }

  function Elements(s: seq<nat>): set<nat> {
    set x | x in s
  }

  /** The nodes that contain nothing start the queue. */
  method InitialQueue(p: Program, dependencies: array<nat>, ghost lists: seq<seq<nat>>)
    returns (ready: seq<nat>)
    requires dependencies.Length == |lists| == p.Count()
    requires forall n :: 0 <= n < |lists| ==> dependencies[n] == |lists[n]|
    ensures Queued(p, lists, dependencies[..], ready, {})
  {
    ready := [];
    var n := 0;
    while n < dependencies.Length
      invariant 0 <= n <= dependencies.Length
      invariant Distinct(ready)
      invariant forall x: nat :: x in ready <==> x < n && dependencies[x] == 0
    {
      if dependencies[n] == 0 {
        ready := ready + [n];
      }
      n := n + 1;
    }
    forall n | 0 <= n < |lists| ensures dependencies[n] == Pending(lists[n], {}) {
      PendingNone(lists[n]);
    }
  }

  lemma CountsFacts(lists: seq<seq<nat>>, dependencies: seq<nat>, dependents: seq<seq<nat>>)
    requires Counts(lists, dependencies, dependents)
    ensures |lists| == |dependencies| == |dependents|
    ensures forall n :: 0 <= n < |lists| ==> dependencies[n] == |lists[n]|
  {
  }

  /** `all` are the nodes that contain `m`, as often as they contain it. */
  predicate AreDependents(lists: seq<seq<nat>>, m: nat, all: seq<nat>) {
    && (forall n :: 0 <= n < |lists| ==> multiset(all)[n] == multiset(lists[n])[m])
    && (forall k :: 0 <= k < |all| ==> all[k] < |lists|)
  }

  /** Takes a finished node out of the counts of the nodes that contain it. */
  method Release(p: Program, dependencies: array<nat>, all: seq<nat>, before: seq<nat>,
                 ghost m: nat, ghost lists: seq<seq<nat>>, ghost done: set<nat>)
    returns (ready: seq<nat>)
    requires Queued(p, lists, dependencies[..], before, done)
    requires m !in done && m < |lists| && AreDependents(lists, m, all)
    modifies dependencies
    ensures Queued(p, lists, dependencies[..], ready, done + {m}) && before <= ready
  {
    hide Pending, Releasing, Queued;
    ready := before;
    var k := 0;
    StartRelease(p, lists, dependencies[..], ready, done);
    assert all[..0] == [];
    while k < |all|
      invariant 0 <= k <= |all| && before <= ready
      invariant dependencies.Length == |lists|
      invariant Releasing(lists, dependencies[..], ready, done, all[..k])
    {
      hide AreDependents;
      DependentFacts(lists, m, all);
      ReleaseOne(lists, dependencies[..], ready, done, all, k, m);
      ghost var numbers := dependencies[..];
      dependencies[all[k]] := dependencies[all[k]] - 1;
      assert dependencies[..] == numbers[all[k] := numbers[all[k]] - 1];
      if dependencies[all[k]] == 0 {
        ready := ready + [all[k]];
      }
      k := k + 1;
    }
    assert all[..k] == all;
    Released(p, lists, dependencies[..], ready, done, all, m);
  }

  lemma StartRelease(p: Program, lists: seq<seq<nat>>, dependencies: seq<nat>, ready: seq<nat>,
                     done: set<nat>)
    requires Queued(p, lists, dependencies, ready, done)
    ensures Releasing(lists, dependencies, ready, done, [])
    ensures |lists| == |dependencies| == p.Count()
  {
  }

  lemma DependentFacts(lists: seq<seq<nat>>, m: nat, all: seq<nat>)
    requires AreDependents(lists, m, all)
    ensures forall n :: 0 <= n < |lists| ==> multiset(all)[n] == multiset(lists[n])[m]
    ensures forall k :: 0 <= k < |all| ==> all[k] < |lists|
  {
  }

  /** The node at the front contains only what is done; it is new, and the queue is bounded. */
  lemma FrontIsPlaced(p: Program, dependencies: seq<nat>, ready: seq<nat>, done: set<nat>,
                      current: nat)
    requires WellFormed(p) && current < |ready| && done == Elements(ready[..current])
    requires Queued(p, Counted(p, p.Count()), dependencies, ready, done)
    requires PartsFirst(p, ready[..current])
    ensures PartsFirst(p, ready[..current + 1])
    ensures ready[current] !in done && ready[current] < p.Count()
    ensures done + {ready[current]} == Elements(ready[..current + 1])
    ensures current < p.Count()
  {
    hide WellFormed, Inline, Pending;
    var n := ready[current];
    assert ready[..current + 1] == ready[..current] + [n];
    assert n in ready;
    PendingZero(Counted(p, p.Count())[n], done);
    var order := ready[..current + 1];
    forall i, m | 0 <= i < |order| && m in Inline(p, order[i]) ensures m in order[..i] {
      if i < current {
        assert order[..i] == ready[..current][..i] && order[i] == ready[..current][i];
      } else {
        assert order[..i] == ready[..current];
      }
    }
    if current >= p.Count() {
      var i, j := Pigeonhole(order, p.Count());
    }
  }

  /** The emission stops short exactly when containment has a cycle. */
  lemma Finish(p: Program, dependencies: seq<nat>, ready: seq<nat>)
    requires WellFormed(p) && PartsFirst(p, ready)
    requires Queued(p, Counted(p, p.Count()), dependencies, ready, Elements(ready))
    ensures |ready| == p.Count() <==> !exists path: seq<nat> :: IsCycle(p, path)
    ensures |ready| == p.Count() ==> forall n: nat :: n < p.Count() ==> n in ready
  {
    hide WellFormed, Inline, Pending, PartsFirst;
    var stuck := set n: nat | n < p.Count() && n !in ready;
    if stuck == {} {
      forall n: nat | n < p.Count() ensures n in ready {
        assert n !in stuck;
      }
      CompleteOrderHasNoCycle(p, ready);
      AllAreCounted(ready, p.Count());
    } else {
      forall n | n in stuck ensures ContainsOneOf(p, stuck, n) {
        PendingZero(Counted(p, p.Count())[n], Elements(ready));
        var m :| m in Inline(p, n) && m !in Elements(ready);
        InlineInRange(p, n, m);
      }
      var path := StuckMeansCycle(p, stuck);
      FewerThanAll(ready, stuck, p.Count());
    }
  }

  lemma InlineInRange(p: Program, n: nat, m: nat)
    requires WellFormed(p) && n < p.Count() && m in Inline(p, n)
    ensures m < p.Count()
  {
    hide WellFormed, Inline;
    var i :| 0 <= i < |Inline(p, n)| && Inline(p, n)[i] == m;
  }

  lemma {:induction false} DistinctSize(s: seq<nat>)
    requires Distinct(s)
    ensures |Elements(s)| == |s|
  {
    if s != [] {
      var rest := s[..|s| - 1];
      assert s == rest + [s[|s| - 1]];
      DistinctSize(rest);
      assert Elements(s) == Elements(rest) + {s[|s| - 1]};
    }
  }

  lemma AllAreCounted(ready: seq<nat>, bound: nat)
    requires Distinct(ready) && forall n: nat :: n in ready <==> n < bound
    ensures |ready| == bound
  {
    DistinctSize(ready);
    assert Elements(ready) == Below(bound);
  }

  lemma FewerThanAll(ready: seq<nat>, stuck: set<nat>, bound: nat)
    requires Distinct(ready) && stuck != {}
    requires forall n | n in ready :: n < bound
    requires forall n: nat :: n in stuck <==> n < bound && n !in ready
    ensures |ready| < bound
  {
    DistinctSize(ready);
    assert Elements(ready) + stuck == Below(bound) && Elements(ready) !! stuck;
  }

  /**
    Emits each definition once, behind all it contains inline; some type is left over exactly
    when a type contains itself, which is when the emitter aborts.
   */
  method EmitOrder(p: Program) returns (ready: seq<nat>)
    requires WellFormed(p)
    ensures Distinct(ready) && PartsFirst(p, ready)
    ensures |ready| == p.Count() <==> !exists path: seq<nat> :: IsCycle(p, path)
    ensures |ready| == p.Count() ==> forall n: nat :: n < p.Count() ==> n in ready
  {
    hide Counts, Counted, Inline, WellFormed, Pending, Queued, PartsFirst;
    var dependencies := new nat[p.Count()](i => 0);
    var dependents := new seq<nat>[p.Count()](i => []);
    CountAll(p, dependencies, dependents);
    ghost var lists := Counted(p, p.Count());
    CountsFacts(lists, dependencies[..], dependents[..]);
    DependentsAre(lists, dependencies[..], dependents[..]);
    ready := InitialQueue(p, dependencies, lists);
    NothingPlaced(p);
    var current := 0;
    ghost var done: set<nat> := {};
    assert ready[..0] == [];
    while current < |ready|
      invariant 0 <= current <= |ready|
      invariant done == Elements(ready[..current])
      invariant Queued(p, lists, dependencies[..], ready, done)
      invariant PartsFirst(p, ready[..current])
      invariant dependents.Length == p.Count()
      invariant forall m :: 0 <= m < p.Count() ==> AreDependents(lists, m, dependents[m])
      invariant current <= p.Count()
      decreases p.Count() - current
    {
      hide Elements, AreDependents;
      FrontIsPlaced(p, dependencies[..], ready, done, current);
      ghost var before := ready;
      ready := Release(p, dependencies, dependents[ready[current]], ready, ready[current], lists,
                       done);
      assert ready[..current + 1] == before[..current + 1];
      done := done + {ready[current]};
      current := current + 1;
    }
    assert ready[..current] == ready;
    Finish(p, dependencies[..], ready);
    QueuedIsDistinct(p, lists, dependencies[..], ready, done);
  }

  lemma QueuedIsDistinct(p: Program, lists: seq<seq<nat>>, dependencies: seq<nat>,
                         ready: seq<nat>, done: set<nat>)
    requires Queued(p, lists, dependencies, ready, done)
    ensures Distinct(ready)
  {
  }

  lemma NothingPlaced(p: Program)
    requires WellFormed(p)
    ensures PartsFirst(p, [])
  {
  }

  lemma DependentsAre(lists: seq<seq<nat>>, dependencies: seq<nat>, dependents: seq<seq<nat>>)
    requires Counts(lists, dependencies, dependents)
    ensures forall m :: 0 <= m < |lists| ==> AreDependents(lists, m, dependents[m])
  {
  }

  // ---------- what the order means for the types ----------

  lemma {:induction false} TargetsHold(p: Program, ts: seq<Type>, k: nat)
    requires AllInRange(p, ts) && k < |ts| && TypeNode(p, ts[k]).Some?
    ensures TypeNode(p, ts[k]).value in Targets(p, ts)
  {
    var n := |ts| - 1;
    if k < n {
      TargetsHold(p, ts[..n], k);
    }
  }

  /** Each field, payload or element type that has a definition is defined before its container. */
  lemma DefinedBeforeUse(p: Program, order: seq<nat>, i: nat, k: nat)
    requires WellFormed(p) && PartsFirst(p, order) && i < |order|
    requires k < |Parts(p, order[i])| && TypeNode(p, Parts(p, order[i])[k]).Some?
    ensures TypeNode(p, Parts(p, order[i])[k]).value in order[..i]
  {
    TargetsHold(p, Parts(p, order[i]), k);
  }

  /** The types that one definition is emitted for. */
  predicate SameDefinition(t: Type, u: Type) {
    t.kind == u.kind && (if t.kind == Array then t == u else t.declaration == u.declaration)
  }

  /** Every node stands for one definition, and no other type has it. */
  lemma NodeIsOneDefinition(p: Program, node: nat) returns (t: Type)
    requires WellFormed(p) && node < p.Count() && forall a | a in p.arrays :: a.kind == Array
    ensures InRange(p, t) && TypeNode(p, t) == Some(node)
    ensures forall u | InRange(p, u) ::
              TypeNode(p, u) == Some(node) <==> SameDefinition(t, u)
  {
    if node < |p.structs| {
      t := Type(Struct, node, []);
    } else if node < |p.structs| + |p.enums| {
      t := Type(Enum, node - |p.structs|, []);
    } else {
      t := p.arrays[node - |p.structs| - |p.enums|];
      assert t in p.arrays;
    }
  }
}
