/**
  Web routes (compiler/src/application.cpp:257-358, 377-438, 4738-4757, 5067-5096): validation of
  route paths, ambiguity of two paths, and the paths of the OpenAPI document. The independent
  definition of ambiguity is a trie with at most one parameter edge per node.
 */
module Routes {
  import opened ValidationPattern
  import opened Wrappers

  // ---------- splitting ----------

  /** The first position of a byte from `i` on, or the length. */
  function IndexOf(s: string, c: char, i: nat): (r: nat)
    requires i <= |s|
    ensures i <= r <= |s| && (r < |s| ==> s[r] == c)
    ensures forall k :: i <= k < r ==> s[k] != c
    decreases |s| - i
  {
    if i == |s| || s[i] == c then i else IndexOf(s, c, i + 1)
  }

  /** The parts between separators; one more than there are separators. */
  function Split(s: string, c: char): (r: seq<string>)
    ensures r != []
    decreases |s|
  {
    var i := IndexOf(s, c, 0);
    if i == |s| then [s] else [s[..i]] + Split(s[i + 1..], c)
  }

  function Join(parts: seq<string>, c: char): string
    requires parts != []
  {
    if |parts| == 1 then parts[0] else parts[0] + [c] + Join(parts[1..], c)
  }

  lemma {:induction false} JoinOfSplit(s: string, c: char)
    ensures Join(Split(s, c), c) == s
    decreases |s|
  {
    var i := IndexOf(s, c, 0);
    if i < |s| {
      JoinOfSplit(s[i + 1..], c);
      assert s == s[..i] + [c] + s[i + 1..];
    }
  }

  predicate Lacks(parts: seq<string>, c: char) {
    forall i :: 0 <= i < |parts| ==> c !in parts[i]
  }

  lemma {:induction false} SplitLacks(s: string, c: char)
    ensures Lacks(Split(s, c), c)
    decreases |s|
  {
    var i := IndexOf(s, c, 0);
    if i < |s| {
      SplitLacks(s[i + 1..], c);
    }
  }

  lemma IndexOfSeparator(part: string, c: char, rest: string)
    requires c !in part
    ensures IndexOf(part + [c] + rest, c, 0) == |part|
  {
    var s := part + [c] + rest;
    assert s[|part|] == c;
    assert forall k :: 0 <= k < |part| ==> s[k] == part[k];
  }

  lemma SplitCons(part: string, c: char, rest: string)
    requires c !in part
    ensures Split(part + [c] + rest, c) == [part] + Split(rest, c)
  {
    hide IndexOf;
    var s := part + [c] + rest;
    IndexOfSeparator(part, c, rest);
    assert s[..|part|] == part && s[|part| + 1..] == rest;
  }

  lemma {:induction false} SplitOfJoin(parts: seq<string>, c: char)
    requires parts != [] && Lacks(parts, c)
    ensures Split(Join(parts, c), c) == parts
    decreases |parts|
  {
    if |parts| == 1 {
      assert parts[0] == Join(parts, c) && parts == [parts[0]];
    } else {
      hide Split;
      SplitCons(parts[0], c, Join(parts[1..], c));
      SplitOfJoin(parts[1..], c);
      assert parts == [parts[0]] + parts[1..];
    }
  }

  // ---------- segments ----------

  function Tail(path: string): string {
    if path == [] then [] else path[1..]
  }

  /** The segments of a path behind its first byte; an empty one at the end does not count. */
  function Segments(path: string): seq<string> {
    var parts := Split(Tail(path), '/');
    if parts[|parts| - 1] == "" then parts[..|parts| - 1] else parts
  }

  lemma SegmentsAre(path: string, parts: seq<string>)
    requires parts != [] && Split(Tail(path), '/') == parts
    ensures Segments(path) == if parts[|parts| - 1] == "" then parts[..|parts| - 1] else parts
  {
  }

  method WebRouteSegments(path: string) returns (segments: seq<string>)
    ensures segments == Segments(path)
  {
    hide Split, IndexOf, Segments;
    segments := [];
    var start := 1;
    ghost var all := Split(Tail(path), '/');
    if path == [] {
      SplitFrom(Tail(path), '/', 0);
      SegmentsAre(path, all);
      return;
    }
    assert path[1..] == Tail(path);
    while start < |path|
      invariant 1 <= start <= |path|
      invariant segments + Split(path[start..], '/') == all
      decreases |path| - start
    {
      SplitFrom(path, '/', start);
      var separator := IndexOf(path, '/', start);
      ghost var before, segment := segments, path[start..separator];
      segments := segments + [path[start..separator]];
      if separator == |path| {
        assert all == before + [segment] && segment != "";
        SegmentsAre(path, all);
        return;
      }
      start := separator + 1;
      ghost var rest := Split(path[start..], '/');
      assert before + ([segment] + rest) == (before + [segment]) + rest;
    }
    SplitFrom(path, '/', start);
    assert path[start..IndexOf(path, '/', start)] == "";
    assert all == segments + [""];
    SegmentsAre(path, all);
    assert all[..|all| - 1] == segments;
  }

  lemma SplitStep(s: string, c: char)
    ensures var i := IndexOf(s, c, 0);
            Split(s, c) == if i == |s| then [s] else [s[..i]] + Split(s[i + 1..], c)
  {
    hide IndexOf;
  }

  lemma SplitFrom(s: string, c: char, start: nat)
    requires start <= |s|
    ensures var separator := IndexOf(s, c, start);
            Split(s[start..], c)
            == if separator == |s| then [s[start..separator]]
               else [s[start..separator]] + Split(s[separator + 1..], c)
  {
    hide Split, IndexOf;
    IndexOfShifts(s, c, start, start);
    var separator, rest := IndexOf(s, c, start), s[start..];
    SplitStep(rest, c);
    var i := separator - start;
    assert IndexOf(rest, c, 0) == i;
    assert rest[..i] == s[start..separator];
    if separator == |s| {
      assert rest == s[start..separator];
    } else {
      assert rest[i + 1..] == s[separator + 1..];
    }
  }

  lemma {:induction false} IndexOfShifts(s: string, c: char, from: nat, i: nat)
    requires from <= i <= |s|
    ensures IndexOf(s, c, i) == from + IndexOf(s[from..], c, i - from)
    decreases |s| - i
  {
    if i < |s| && s[i] != c {
      IndexOfShifts(s, c, from, i + 1);
    }
  }

  // ---------- labels of segments ----------

  predicate IsParameter(segment: string) {
    |segment| >= 3 && segment[0] == '{' && segment[|segment| - 1] == '}'
  }

  predicate IsCatchAll(segment: string) {
    IsParameter(segment) && segment[1] == '*'
  }

  /** What stands between the braces, without the star of a catch-all. */
  function Inside(segment: string): string
    requires |segment| >= 2
  {
    var inner := segment[1..|segment| - 1];
    if inner != [] && inner[0] == '*' then inner[1..] else inner
  }

  /** Name and constraints of a parameter. */
  function ParameterParts(segment: string): (string, string)
    requires |segment| >= 2
  {
    var inner := Inside(segment);
    var colon := IndexOf(inner, ':', 0);
    (inner[..colon], if colon == |inner| then "" else inner[colon + 1..])
  }

  /** What a segment matches: a text, or a parameter. */
  datatype Label =
    | Static(text: string)
    | Parameter(catchAll: bool, name: string, constraints: string)

  function LabelOf(segment: string): Label {
    if IsParameter(segment) then
      var (name, constraints) := ParameterParts(segment);
      Parameter(IsCatchAll(segment), name, constraints)
    else Static(segment)
  }

  function LabelsOf(segments: seq<string>): (r: seq<Label>)
    ensures |r| == |segments| && forall i :: 0 <= i < |r| ==> r[i] == LabelOf(segments[i])
  {
    seq(|segments|, i requires 0 <= i < |segments| => LabelOf(segments[i]))
  }

  function Labels(path: string): seq<Label> {
    LabelsOf(Segments(path))
  }

  // ---------- ambiguity ----------

  /** Two label lists part at two different parameters. */
  predicate Conflict(a: seq<Label>, b: seq<Label>)
    decreases |a|
  {
    a != [] && b != []
    && if a[0].Parameter? && b[0].Parameter? then a[0] != b[0] || Conflict(a[1..], b[1..])
       else a[0] == b[0] && Conflict(a[1..], b[1..])
  }

  lemma {:induction false} ConflictSymmetric(a: seq<Label>, b: seq<Label>)
    ensures Conflict(a, b) == Conflict(b, a)
    decreases |a|
  {
    if a != [] && b != [] {
      ConflictSymmetric(a[1..], b[1..]);
    }
  }

  method AreAmbiguous(left: string, right: string) returns (r: bool)
    ensures r <==> Conflict(Labels(left), Labels(right))
  {
    hide Segments, LabelOf;
    var leftSegments := WebRouteSegments(left);
    var rightSegments := WebRouteSegments(right);
    var count := if |leftSegments| < |rightSegments| then |leftSegments| else |rightSegments|;
    ghost var a, b := Labels(left), Labels(right);
    var index := 0;
    while index < count
      invariant 0 <= index <= count
      invariant Conflict(a, b) <==> Conflict(a[index..], b[index..])
    {
      var leftSegment, rightSegment := leftSegments[index], rightSegments[index];
      ConflictStep(a[index..], b[index..]);
      LabelFacts(leftSegment, rightSegment);
      assert a[index..][1..] == a[index + 1..] && b[index..][1..] == b[index + 1..];
      index := index + 1;
      var leftParameter, rightParameter := IsParameter(leftSegment), IsParameter(rightSegment);
      if !leftParameter || !rightParameter {
        if leftParameter != rightParameter || leftSegment != rightSegment {
          return false;
        }
        continue;
      }
      if IsCatchAll(leftSegment) != IsCatchAll(rightSegment) {
        return true;
      }
      if ParameterParts(leftSegment) != ParameterParts(rightSegment) {
        return true;
      }
    }
    ConflictStep(a[index..], b[index..]);
    r := false;
  }

  lemma ConflictStep(a: seq<Label>, b: seq<Label>)
    ensures Conflict(a, b)
            <==> a != [] && b != []
                 && if a[0].Parameter? && b[0].Parameter?
                    then a[0] != b[0] || Conflict(a[1..], b[1..])
                    else a[0] == b[0] && Conflict(a[1..], b[1..])
  {
  }

  lemma LabelFacts(x: string, y: string)
    ensures LabelOf(x).Parameter? <==> IsParameter(x)
    ensures LabelOf(y).Parameter? <==> IsParameter(y)
    ensures !IsParameter(x) || !IsParameter(y) ==>
              (LabelOf(x) == LabelOf(y) <==> IsParameter(x) == IsParameter(y) && x == y)
    ensures IsParameter(x) && IsParameter(y) ==>
              (LabelOf(x) == LabelOf(y) <==>
               IsCatchAll(x) == IsCatchAll(y) && ParameterParts(x) == ParameterParts(y))
  {
    hide ParameterParts;
  }

  // ---------- the trie ----------

  /** A node: its children by text, and at most one parameter edge. */
  datatype Trie = Trie(statics: map<string, Trie>, edge: Option<Edge>)

  datatype Edge = Edge(parameter: Label, child: Trie)

  const EMPTY := Trie(map[], None)

  function ParameterChild(t: Trie): Trie {
    if t.edge.Some? then t.edge.value.child else EMPTY
  }

  function StaticChild(t: Trie, text: string): Trie {
    if text in t.statics then t.statics[text] else EMPTY
  }

  /** Inserts a route; fails where a node has another parameter edge already. */
  function Insert(t: Trie, route: seq<Label>): Option<Trie>
    decreases |route|
  {
    if route == [] then Some(t)
    else if route[0].Static? then
      var child := Insert(StaticChild(t, route[0].text), route[1..]);
      if child.None? then None else Some(t.(statics := t.statics[route[0].text := child.value]))
    else if t.edge.Some? && t.edge.value.parameter != route[0] then None
    else
      var child := Insert(ParameterChild(t), route[1..]);
      if child.None? then None else Some(t.(edge := Some(Edge(route[0], child.value))))
  }

  function InsertAll(t: Trie, routes: seq<seq<Label>>): Option<Trie>
    decreases |routes|
  {
    if routes == [] then Some(t)
    else
      var next := Insert(t, routes[0]);
      if next.None? then None else InsertAll(next.value, routes[1..])
  }

  predicate Accepts(t: Trie, route: seq<Label>) {
    Insert(t, route).Some?
  }

  lemma {:induction false} EmptyAccepts(route: seq<Label>)
    ensures Accepts(EMPTY, route)
    decreases |route|
  {
    if route != [] {
      EmptyAccepts(route[1..]);
    }
  }

  /** After an insertion the trie accepts what it accepted before and what does not conflict. */
  lemma {:induction false} InsertedAccepts(t: Trie, a: seq<Label>, b: seq<Label>)
    requires Accepts(t, a)
    ensures Accepts(Insert(t, a).value, b) <==> Accepts(t, b) && !Conflict(a, b)
    decreases |a|
  {
    if a != [] && b != [] {
      if a[0].Static? && b[0].Static? && a[0].text == b[0].text {
        InsertedAccepts(StaticChild(t, a[0].text), a[1..], b[1..]);
      } else if a[0].Parameter? && b[0] == a[0] {
        InsertedAccepts(ParameterChild(t), a[1..], b[1..]);
      }
    }
  }

  predicate PairwiseClear(routes: seq<seq<Label>>) {
    forall i, j :: 0 <= i < j < |routes| ==> !Conflict(routes[i], routes[j])
  }

  lemma {:induction false} InsertAllMeans(t: Trie, routes: seq<seq<Label>>)
    ensures InsertAll(t, routes).Some? <==>
            PairwiseClear(routes) && forall i :: 0 <= i < |routes| ==> Accepts(t, routes[i])
    decreases |routes|
  {
    if routes != [] {
      var first, rest := routes[0], routes[1..];
      if Accepts(t, first) {
        InsertAllMeans(Insert(t, first).value, rest);
        forall i | 0 <= i < |rest|
          ensures Accepts(Insert(t, first).value, rest[i])
                  <==> Accepts(t, rest[i]) && !Conflict(first, rest[i])
        {
          InsertedAccepts(t, first, rest[i]);
        }
        ClearCons(routes);
      }
    }
  }

  lemma ClearCons(routes: seq<seq<Label>>)
    requires routes != []
    ensures PairwiseClear(routes) <==>
            PairwiseClear(routes[1..])
            && forall i :: 0 <= i < |routes[1..]| ==> !Conflict(routes[0], routes[1..][i])
  {
    hide Conflict;
    var rest := routes[1..];
    if PairwiseClear(rest)
       && forall i :: 0 <= i < |rest| ==> !Conflict(routes[0], rest[i]) {
      forall i, j | 0 <= i < j < |routes| ensures !Conflict(routes[i], routes[j]) {
        assert routes[j] == rest[j - 1];
      }
    }
  }

  /** Routes are pairwise unambiguous iff they can be inserted into an empty trie. */
  lemma ClearIffTrie(routes: seq<seq<Label>>)
    ensures InsertAll(EMPTY, routes).Some? <==> PairwiseClear(routes)
  {
    hide Conflict, Insert;
    InsertAllMeans(EMPTY, routes);
    forall i | 0 <= i < |routes| ensures Accepts(EMPTY, routes[i]) {
      EmptyAccepts(routes[i]);
    }
  }

  /** The order of insertion makes no difference. */
  lemma ClearInAnyOrder(routes: seq<seq<Label>>, order: seq<nat>)
    requires |order| == |routes| && forall i :: 0 <= i < |order| ==> order[i] < |routes|
    requires forall i, j :: 0 <= i < j < |order| ==> order[i] != order[j]
    requires PairwiseClear(routes)
    ensures InsertAll(EMPTY, seq(|order|, i requires 0 <= i < |order| => routes[order[i]])).Some?
  {
    hide Conflict, InsertAll;
    var permuted := seq(|order|, i requires 0 <= i < |order| => routes[order[i]]);
    forall i, j | 0 <= i < j < |permuted| ensures !Conflict(permuted[i], permuted[j]) {
      ConflictSymmetric(permuted[i], permuted[j]);
    }
    ClearIffTrie(permuted);
  }

  // ---------- validation ----------

  predicate IsLetter(c: char) {
    'a' <= c <= 'z' || 'A' <= c <= 'Z'
  }

  predicate IsIdentifier(value: string) {
    && value != [] && (value[0] == '_' || IsLetter(value[0]))
    && forall i :: 0 < i < |value| ==>
         value[i] == '_' || IsLetter(value[i]) || '0' <= value[i] <= '9'
  }

  const REGEX := "regex("

  /** Nothing, a pattern, or a list of known constraints. */
  ghost predicate ValidConstraints(value: string) {
    if value == [] then true
    else if REGEX <= value then
      value[|value| - 1] == ')' && IsPattern(value[|REGEX|..|value| - 1])
    else AllKnown(Split(value, ','))
  }

  predicate AllKnown(constraints: seq<string>) {
    forall i :: 0 <= i < |constraints| ==> constraints[i] in {"int", "alpha"}
  }

  lemma AllKnownAppend(a: seq<string>, b: seq<string>)
    ensures AllKnown(a + b) <==> AllKnown(a) && AllKnown(b)
  {
    var all := a + b;
    assert forall i :: 0 <= i < |b| ==> all[|a| + i] == b[i];
    assert forall i :: 0 <= i < |a| ==> all[i] == a[i];
  }

  method AreValidConstraints(value: string) returns (ok: bool)
    ensures ok <==> ValidConstraints(value)
  {
    hide IsPattern, Split, IndexOf, AllKnown;
    if value == [] {
      return true;
    }
    if REGEX <= value {
      if value[|value| - 1] != ')' {
        return false;
      }
      assert |value| > |REGEX| by {
        assert value[|REGEX| - 1] == '(';
      }
      ok := IsValidPattern(value[|REGEX|..|value| - 1]);
    } else {
      ok := AreKnownConstraints(value);
    }
  }

  /** The loop over the list between commas. */
  method AreKnownConstraints(value: string) returns (ok: bool)
    ensures ok <==> AllKnown(Split(value, ','))
  {
    hide Split, IndexOf, AllKnown;
    ghost var all := Split(value, ',');
    ghost var before: seq<string> := [];
    var start := 0;
    assert value[0..] == value;
    assert AllKnown(before) by { KnownOne(before); }
    while start <= |value|
      invariant 0 <= start <= |value|
      invariant before + Split(value[start..], ',') == all
      invariant AllKnown(before)
      decreases |value| - start
    {
      SplitFrom(value, ',', start);
      var end := IndexOf(value, ',', start);
      var constraint := value[start..end];
      ghost var rest := Split(value[start..], ',');
      KnownOne([constraint]);
      AllKnownAppend(before, rest);
      if constraint != "int" && constraint != "alpha" {
        KnownFirst(rest);
        return false;
      }
      if end == |value| {
        return true;
      }
      AllKnownAppend(before, [constraint]);
      assert before + ([constraint] + Split(value[end + 1..], ','))
          == (before + [constraint]) + Split(value[end + 1..], ',');
      before := before + [constraint];
      start := end + 1;
    }
    ok := false;
  }

  lemma KnownOne(constraints: seq<string>)
    requires |constraints| <= 1
    ensures AllKnown(constraints) <==> constraints == [] || constraints[0] in {"int", "alpha"}
  {
  }

  lemma KnownFirst(constraints: seq<string>)
    requires constraints != [] && constraints[0] !in {"int", "alpha"}
    ensures !AllKnown(constraints)
  {
  }

  predicate HasBrace(part: string) {
    '{' in part || '}' in part
  }

  /** A part of a path: without braces, or one well-formed parameter. */
  ghost predicate ValidPart(part: string, last: bool) {
    HasBrace(part) ==>
      && IsParameter(part)
      && (forall i :: 0 < i < |part| ==> part[i] != '{')
      && (forall i :: 0 <= i < |part| - 1 ==> part[i] != '}')
      && (IsCatchAll(part) ==> last && ':' !in Inside(part))
      && IsIdentifier(ParameterParts(part).0)
      && (!IsCatchAll(part) ==> ValidConstraints(ParameterParts(part).1))
  }

  function NameOf(part: string): Option<string> {
    if IsParameter(part) then Some(ParameterParts(part).0) else None
  }

  /** The paths the generator accepts: absolute, valid parts, no parameter named twice. */
  ghost predicate ValidPath(path: string) {
    && path != [] && path[0] == '/'
    && var parts := Split(path[1..], '/');
       && (forall i :: 0 <= i < |parts| ==> ValidPart(parts[i], i == |parts| - 1))
       && (forall i, j :: 0 <= i < j < |parts| && NameOf(parts[i]).Some? ==>
             NameOf(parts[i]) != NameOf(parts[j]))
  }

  method IsValidPart(part: string, last: bool) returns (ok: bool)
    ensures ok <==> ValidPart(part, last)
  {
    hide ValidConstraints, IsIdentifier;
    ok := true;
    var open, close := IndexOf(part, '{', 0), IndexOf(part, '}', 0);
    if open != |part| || close != |part| {
      if |part| < 3 || part[0] != '{' || part[|part| - 1] != '}'
         || IndexOf(part, '{', 1) != |part| || close != |part| - 1 {
        return false;
      }
      var inner := part[1..|part| - 1];
      var catchAll := inner != [] && inner[0] == '*';
      if catchAll {
        inner := inner[1..];
        if !last {
          return false;
        }
        if IndexOf(inner, ':', 0) != |inner| {
          return false;
        }
      }
      var colon := IndexOf(inner, ':', 0);
      var name := inner[..colon];
      if !IsIdentifier(name) {
        return false;
      }
      if !catchAll {
        ok := AreValidConstraints(if colon == |inner| then "" else inner[colon + 1..]);
      }
    }
  }

  /** The names of the parameters among the first parts. */
  function Names(parts: seq<string>): set<string> {
    set i | 0 <= i < |parts| && NameOf(parts[i]).Some? :: NameOf(parts[i]).value
  }

  predicate DistinctNames(parts: seq<string>) {
    forall i, j :: 0 <= i < j < |parts| && NameOf(parts[i]).Some? ==>
      NameOf(parts[i]) != NameOf(parts[j])
  }

  lemma NamesAppend(parts: seq<string>, part: string)
    ensures Names(parts + [part])
            == Names(parts) + if NameOf(part).Some? then {NameOf(part).value} else {}
    ensures DistinctNames(parts + [part]) <==>
            DistinctNames(parts) && !(NameOf(part).Some? && NameOf(part).value in Names(parts))
  {
    hide NameOf;
    var all := parts + [part];
    assert forall i :: 0 <= i < |parts| ==> all[i] == parts[i];
    assert all[|parts|] == part;
    if NameOf(part).Some? && NameOf(part).value in Names(parts) {
      var i :| 0 <= i < |parts| && NameOf(parts[i]).Some?
               && NameOf(parts[i]).value == NameOf(part).value;
      assert NameOf(all[i]) == NameOf(all[|parts|]);
    }
  }

  /** All but the last part are valid so far, and no name repeats. */
  ghost predicate ValidSoFar(parts: seq<string>) {
    DistinctNames(parts) && forall i :: 0 <= i < |parts| ==> ValidPart(parts[i], false)
  }

  ghost predicate ValidParts(parts: seq<string>) {
    && (forall i :: 0 <= i < |parts| ==> ValidPart(parts[i], i == |parts| - 1))
    && DistinctNames(parts)
  }

  /** One round of the validator. */
  method CheckPart(segment: string, last: bool, names: set<string>, ghost before: seq<string>)
    returns (ok: bool, after: set<string>)
    requires names == Names(before) && ValidSoFar(before)
    ensures ok <==> ValidPart(segment, last) && DistinctNames(before + [segment])
    ensures ok ==> after == Names(before + [segment])
  {
    hide ValidPart, NameOf, DistinctNames, Names;
    after := names;
    ok := IsValidPart(segment, last);
    NamesAppend(before, segment);
    SoFarIsDistinct(before);
    if ok && NameOf(segment).Some? {
      if NameOf(segment).value in names {
        ok := false;
      }
      after := names + {NameOf(segment).value};
    }
  }

  lemma SoFarIsDistinct(parts: seq<string>)
    requires ValidSoFar(parts)
    ensures DistinctNames(parts)
  {
  }

  /** The path validator accepts exactly the valid paths. */
  method ValidateRoutePath(path: string) returns (ok: bool)
    ensures ok <==> ValidPath(path)
  {
    hide ValidPart, Split, IndexOf, NameOf, DistinctNames, Names, ValidSoFar, ValidParts, ValidPath;
    ValidPathMeans(path);
    if path == [] || path[0] != '/' {
      return false;
    }
    ghost var all := Split(path[1..], '/');
    ghost var before: seq<string> := [];
    var names: set<string> := {};
    var start := 1;
    NoNames();
    while start <= |path|
      invariant 1 <= start <= |path|
      invariant before + Split(path[start..], '/') == all && names == Names(before)
      invariant ValidSoFar(before)
      decreases |path| - start
    {
      SplitFrom(path, '/', start);
      var separator := IndexOf(path, '/', start);
      var segment := path[start..separator];
      var last := separator == |path|;
      ghost var done := before + [segment];
      ok, names := CheckPart(segment, last, names, before);
      if last {
        assert all == done;
        LastPartDecides(before, segment);
        return;
      }
      ghost var rest := Split(path[separator + 1..], '/');
      assert before + ([segment] + rest) == done + rest;
      PartDecides(before, segment, rest);
      if !ok {
        return;
      }
      before := done;
      start := separator + 1;
    }
    ok := false;
  }

  lemma ValidPathMeans(path: string)
    ensures ValidPath(path) <==>
            path != [] && path[0] == '/' && ValidParts(Split(path[1..], '/'))
  {
    hide ValidPart, Split, NameOf;
  }

  lemma LastPartDecides(before: seq<string>, segment: string)
    requires ValidSoFar(before)
    ensures ValidParts(before + [segment]) <==>
            ValidPart(segment, true) && DistinctNames(before + [segment])
  {
    hide ValidPart, DistinctNames;
    var all := before + [segment];
    assert forall i :: 0 <= i < |before| ==> all[i] == before[i];
    assert all[|before|] == segment;
  }

  lemma PartDecides(before: seq<string>, segment: string, rest: seq<string>)
    requires ValidSoFar(before) && rest != []
    ensures ValidPart(segment, false) && DistinctNames(before + [segment]) ==>
              ValidSoFar(before + [segment])
    ensures ValidParts(before + [segment] + rest) ==>
              ValidPart(segment, false) && DistinctNames(before + [segment])
  {
    hide ValidPart, DistinctNames;
    var done := before + [segment];
    var all := done + rest;
    assert all[|before|] == segment;
    if DistinctNames(all) {
      PrefixIsDistinct(all, |done|);
      assert all[..|done|] == done;
    }
  }

  lemma PrefixIsDistinct(parts: seq<string>, n: nat)
    requires n <= |parts| && DistinctNames(parts)
    ensures DistinctNames(parts[..n])
  {
    hide NameOf;
  }

  lemma NoNames()
    ensures Names([]) == {} && ValidSoFar([])
  {
  }

  // ---------- the routes of a program ----------

  datatype Route = Route(method_: string, path: string)

  function AllLabels(routes: seq<Route>): (r: seq<seq<Label>>)
    ensures |r| == |routes| && forall i :: 0 <= i < |r| ==> r[i] == Labels(routes[i].path)
  {
    seq(|routes|, i requires 0 <= i < |routes| => Labels(routes[i].path))
  }

  /** The checks on paths and pairs of routes; diagnostics FDN2353, FDN2364, FDN2369, FDN2354. */
  ghost predicate AcceptedRoutes(routes: seq<Route>) {
    && (forall i :: 0 <= i < |routes| ==> routes[i].method_ != "" && ValidPath(routes[i].path))
    && PairwiseClear(AllLabels(routes))
    && (forall i, j :: 0 <= i < j < |routes| ==> routes[i] != routes[j])
  }

  /** Every route is checked against the valid ones before it. */
  method CheckRoutes(routes: seq<Route>) returns (ok: bool)
    ensures ok <==> AcceptedRoutes(routes)
  {
    hide ValidPath, Conflict, Labels;
    ok := true;
    var patterns: seq<string> := [];
    var keys: set<Route> := {};
    var index := 0;
    while index < |routes|
      invariant 0 <= index <= |routes|
      invariant ok <==> AcceptedRoutes(routes[..index])
      invariant ok ==> |patterns| == index
                       && forall k :: 0 <= k < index ==> patterns[k] == routes[k].path
      invariant keys <= set k | 0 <= k < index :: routes[k]
      invariant ok ==> forall k :: 0 <= k < index ==> routes[k] in keys
    {
      var route := routes[index];
      ghost var before := ok;
      var clear := true;
      var valid := false;
      if route.method_ == "" || route.path == "" {
        ok := false;
      } else {
        valid := ValidateRoutePath(route.path);
        if !valid {
          ok := false;
        } else {
          clear := IsClearOf(patterns, route.path);
          if !clear {
            ok := false;
          }
          patterns := patterns + [route.path];
        }
        if route in keys {
          ok := false;
        }
        keys := keys + {route};
      }
      EmptyPathIsInvalid();
      AcceptNext(routes, index);
      index := index + 1;
    }
    assert routes[..index] == routes;
  }

  method IsClearOf(patterns: seq<string>, path: string) returns (clear: bool)
    ensures clear <==>
            forall k :: 0 <= k < |patterns| ==> !Conflict(Labels(patterns[k]), Labels(path))
  {
    hide Conflict, Labels;
    var k := 0;
    while k < |patterns|
      invariant 0 <= k <= |patterns|
      invariant forall j :: 0 <= j < k ==> !Conflict(Labels(patterns[j]), Labels(path))
    {
      var ambiguous := AreAmbiguous(patterns[k], path);
      if ambiguous {
        return false;
      }
      k := k + 1;
    }
    clear := true;
  }

  lemma EmptyPathIsInvalid()
    ensures !ValidPath("")
  {
  }

  lemma AcceptNext(routes: seq<Route>, n: nat)
    requires n < |routes|
    ensures AcceptedRoutes(routes[..n + 1]) <==>
            AcceptedRoutes(routes[..n]) && routes[n].method_ != "" && ValidPath(routes[n].path)
            && (forall k :: 0 <= k < n ==>
                  !Conflict(Labels(routes[k].path), Labels(routes[n].path)))
            && (forall k :: 0 <= k < n ==> routes[k] != routes[n])
  {
    hide ValidPath, Conflict, Labels;
    var some, more := routes[..n], routes[..n + 1];
    assert forall k :: 0 <= k < n ==> more[k] == some[k] == routes[k];
    assert more[n] == routes[n];
    var a, b := AllLabels(some), AllLabels(more);
    assert forall k :: 0 <= k < n ==> b[k] == a[k] == Labels(routes[k].path);
    assert b[n] == Labels(routes[n].path);
  }

  /** Accepted routes go into the trie in any order. */
  lemma AcceptedFormTrie(routes: seq<Route>, order: seq<nat>)
    requires AcceptedRoutes(routes)
    requires |order| == |routes| && forall i :: 0 <= i < |order| ==> order[i] < |routes|
    requires forall i, j :: 0 <= i < j < |order| ==> order[i] != order[j]
    ensures InsertAll(EMPTY, seq(|order|, i requires 0 <= i < |order| =>
                                              AllLabels(routes)[order[i]])).Some?
  {
    hide Conflict, Labels, InsertAll, ValidPath;
    ClearInAnyOrder(AllLabels(routes), order);
  }

  // ---------- paths of the OpenAPI document ----------

  /** How a segment is written in the document: parameters lose stars and constraints. */
  function Shape(segment: string): string {
    if IsParameter(segment) then "{" + ParameterParts(segment).0 + "}" else segment
  }

  function Shapes(segments: seq<string>): (r: seq<string>)
    ensures |r| == |segments| && forall i :: 0 <= i < |r| ==> r[i] == Shape(segments[i])
  {
    seq(|segments|, i requires 0 <= i < |segments| => Shape(segments[i]))
  }

  function JoinOrNothing(parts: seq<string>): string {
    if parts == [] then "" else Join(parts, '/')
  }

  function Normalized(path: string): string {
    "/" + JoinOrNothing(Shapes(Segments(path)))
  }

  lemma {:induction false} JoinAppend(parts: seq<string>, part: string, c: char)
    requires parts != []
    ensures Join(parts + [part], c) == Join(parts, c) + [c] + part
    decreases |parts|
  {
    assert (parts + [part])[1..] == parts[1..] + [part];
    if |parts| > 1 {
      JoinAppend(parts[1..], part, c);
    }
  }

  method NormalizedOpenAPIPath(path: string) returns (result: string)
    ensures result == Normalized(path)
  {
    hide Segments, Shape;
    result := "/";
    var segments := WebRouteSegments(path);
    ghost var shapes := Shapes(segments);
    var index := 0;
    while index < |segments|
      invariant 0 <= index <= |segments|
      invariant result == "/" + JoinOrNothing(shapes[..index])
    {
      assert shapes[..index + 1] == shapes[..index] + [shapes[index]];
      if index != 0 {
        JoinAppend(shapes[..index], shapes[index], '/');
        result := result + "/";
      }
      result := result + Shape(segments[index]);
      index := index + 1;
    }
    assert shapes[..index] == shapes;
  }

  /** Two label lists with parameters at the same places and the same texts elsewhere. */
  predicate SameShape(a: seq<Label>, b: seq<Label>) {
    |a| == |b| && forall i :: 0 <= i < |a| ==>
                     (a[i].Parameter? && b[i].Parameter?) || a[i] == b[i]
  }

  /**
    Unambiguous routes of the same shape have the same parameters, so no two paths of the
    document differ in parameter names only (section 4.7.8 of OpenAPI 3.0.3).
   */
  lemma {:induction false} ClearShapesAgree(a: seq<Label>, b: seq<Label>)
    requires SameShape(a, b) && !Conflict(a, b)
    ensures a == b
    decreases |a|
  {
    if a != [] {
      ClearShapesAgree(a[1..], b[1..]);
      assert a == [a[0]] + a[1..] && b == [b[0]] + b[1..];
    }
  }

  ghost predicate IsPart(x: string) {
    ValidPart(x, true) || ValidPart(x, false)
  }

  predicate EndsInSlash(path: string) {
    path != [] && path[|path| - 1] == '/'
  }

  /** What the segments of an accepted path are made of. */
  lemma SegmentsOfPath(path: string)
    requires ValidPath(path)
    ensures Lacks(Segments(path), '/')
    ensures forall i :: 0 <= i < |Segments(path)| ==> IsPart(Segments(path)[i])
  {
    hide ValidPart, Split, Join;
    var parts := Split(path[1..], '/');
    SplitLacks(path[1..], '/');
    forall i | 0 <= i < |parts| ensures IsPart(parts[i]) {
      assert ValidPart(parts[i], i == |parts| - 1);
    }
  }

  /** How segments make up a path: with a slash behind them, or none. */
  lemma PathOfSegments(path: string)
    requires ValidPath(path)
    ensures var x := Segments(path);
            if EndsInSlash(path) then path == "/" + (if x == [] then "" else Join(x, '/') + "/")
            else x != [] && x[|x| - 1] != "" && path == "/" + Join(x, '/')
  {
    hide ValidPart, Split, Join;
    var parts := Split(path[1..], '/');
    JoinOfSplit(path[1..], '/');
    assert path == "/" + path[1..];
    var x, last := parts[..|parts| - 1], parts[|parts| - 1];
    assert parts == x + [last];
    if last == "" {
      EndOfJoin(parts);
      if x != [] {
        JoinAppend(x, "", '/');
        assert Join(x, '/') + ['/'] + "" == Join(x, '/') + "/";
      }
    } else {
      SplitLacks(path[1..], '/');
      LastOfJoin(parts);
    }
  }

  lemma LastOfJoin(parts: seq<string>)
    requires Lacks(parts, '/') && parts != [] && parts[|parts| - 1] != ""
    ensures var s := Join(parts, '/'); s != "" && s[|s| - 1] != '/'
  {
    var x, last := parts[..|parts| - 1], parts[|parts| - 1];
    assert parts == x + [last] && '/' !in last;
    if x != [] {
      JoinAppend(x, last, '/');
    }
  }

  /** A join whose last part is empty ends in a separator, unless it is the only part. */
  lemma EndOfJoin(parts: seq<string>)
    requires parts != [] && parts[|parts| - 1] == ""
    ensures |parts| == 1 ==> Join(parts, '/') == ""
    ensures |parts| > 1 ==>
              Join(parts, '/') != "" && Join(parts, '/')[|Join(parts, '/')| - 1] == '/'
  {
    if |parts| > 1 {
      var front := parts[..|parts| - 1];
      assert parts == front + [""];
      JoinAppend(front, "", '/');
    }
  }

  lemma PartShape(x: string)
    requires IsPart(x) && '/' !in x
    ensures '/' !in Shape(x) && (x != "" ==> Shape(x) != "")
    ensures HasBrace(Shape(x)) <==> IsParameter(x)
  {
    hide ValidConstraints;
    if IsParameter(x) {
      IdentifierIsPlain(ParameterParts(x).0);
      assert Shape(x)[0] == '{';
    }
  }

  lemma IdentifierIsPlain(name: string)
    requires IsIdentifier(name)
    ensures forall c | c in name :: c !in "/{}:"
  {
  }

  /** Parts of the same shape are both parameters of one name, or the same text. */
  lemma ShapesOfParts(x: string, y: string)
    requires IsPart(x) && IsPart(y) && '/' !in x && '/' !in y
    ensures Shape(x) == Shape(y) <==>
            if IsParameter(x) && IsParameter(y) then ParameterParts(x).0 == ParameterParts(y).0
            else LabelOf(x) == LabelOf(y)
  {
    hide IsPart, ParameterParts;
    PartShape(x);
    PartShape(y);
    if IsParameter(x) && IsParameter(y) {
      var a, b := ParameterParts(x).0, ParameterParts(y).0;
      assert Shape(x)[1..|Shape(x)| - 1] == a && Shape(y)[1..|Shape(y)| - 1] == b;
    }
  }

  /** Nothing between the slashes, or one empty segment: the paths `/` and `//`. */
  predicate OneSlashOrTwo(a: string, b: string) {
    (a == "/" && b == "//") || (a == "//" && b == "/")
  }

  lemma SlashSegments(path: string)
    requires ValidPath(path)
    ensures Segments(path) == [] <==> path == "/"
    ensures Segments(path) == [""] <==> path == "//"
  {
    hide ValidPath;
    PathOfSegments(path);
    assert Split("", '/') == [""];
    assert "/"[1..] == "" && "//"[1..] == "/";
    assert IndexOf("/", '/', 0) == 0 && "/"[..0] == "";
    assert Split("/", '/') == ["", ""];
  }

  /** Document paths are the same iff the shapes of their segments are, but for one corner. */
  lemma NormalizedSegments(a: string, b: string)
    requires ValidPath(a) && ValidPath(b)
    ensures Normalized(a) == Normalized(b) <==>
            Shapes(Segments(a)) == Shapes(Segments(b)) || OneSlashOrTwo(a, b)
  {
    hide ValidPath, IsPart, Segments, Shape, Join, Split;
    var x, y := Segments(a), Segments(b);
    SegmentsOfPath(a);
    SegmentsOfPath(b);
    ShapesAreParts(x);
    ShapesAreParts(y);
    SlashSegments(a);
    SlashSegments(b);
    DocumentParts(a);
    DocumentParts(b);
    assert Shapes([]) == [];
    if OneSlashOrTwo(a, b) {
      assert Shape("") == "" by { EmptyShape(""); }
      assert Shapes([""]) == [""];
      assert Join([""], '/') == "" by { EndOfJoin([""]); }
    }
    if Normalized(a) == Normalized(b) {
      if x == [] && y != [] {
        assert Shapes(y) == [""] && Shapes(y)[0] == Shape(y[0]);
        EmptyShape(y[0]);
        assert y == [""];
      } else if y == [] && x != [] {
        assert Shapes(x) == [""] && Shapes(x)[0] == Shape(x[0]);
        EmptyShape(x[0]);
        assert x == [""];
      }
    }
  }

  lemma EmptyShape(x: string)
    ensures Shape(x) == "" <==> x == ""
  {
  }

  /** The parts between the slashes of a document path. */
  lemma DocumentParts(path: string)
    requires ValidPath(path)
    ensures Normalized(path) != [] && Normalized(path)[0] == '/'
    ensures Split(Normalized(path)[1..], '/')
         == if Segments(path) == [] then [""] else Shapes(Segments(path))
  {
    hide ValidPath, IsPart, Segments, Shape, Join;
    var x := Segments(path);
    SegmentsOfPath(path);
    ShapesAreParts(x);
    assert Normalized(path)[1..] == JoinOrNothing(Shapes(x));
    if x != [] {
      hide Split;
      SplitOfJoin(Shapes(x), '/');
    }
  }

  lemma ShapesAreParts(segments: seq<string>)
    requires Lacks(segments, '/')
    requires forall i :: 0 <= i < |segments| ==> IsPart(segments[i])
    ensures Lacks(Shapes(segments), '/')
    ensures forall i :: 0 <= i < |segments| && segments[i] != "" ==> Shape(segments[i]) != ""
  {
    hide IsPart, Shape;
    forall i | 0 <= i < |segments|
      ensures '/' !in Shape(segments[i]) && (segments[i] != "" ==> Shape(segments[i]) != "")
    {
      PartShape(segments[i]);
    }
  }

  /** Among unambiguous routes, the document's path is the same iff the labels are. */
  lemma NormalizedIffLabels(a: string, b: string)
    requires ValidPath(a) && ValidPath(b) && !Conflict(Labels(a), Labels(b))
    ensures Normalized(a) == Normalized(b) <==> Labels(a) == Labels(b) || OneSlashOrTwo(a, b)
  {
    hide ValidPath, IsPart, Segments, Shape, LabelOf, Normalized, Conflict, ParameterParts;
    SegmentsOfPath(a);
    SegmentsOfPath(b);
    NormalizedSegments(a, b);
    var x, y := Segments(a), Segments(b);
    if |x| == |y| {
      forall i | 0 <= i < |x|
        ensures Shape(x[i]) == Shape(y[i]) ==>
                  (LabelOf(x[i]).Parameter? && LabelOf(y[i]).Parameter?)
                  || LabelOf(x[i]) == LabelOf(y[i])
        ensures LabelOf(x[i]) == LabelOf(y[i]) ==> Shape(x[i]) == Shape(y[i])
      {
        ShapesOfParts(x[i], y[i]);
        LabelFacts(x[i], y[i]);
      }
      if Shapes(x) == Shapes(y) {
        forall i | 0 <= i < |x| ensures Shape(x[i]) == Shape(y[i]) {
          assert Shapes(x)[i] == Shapes(y)[i];
        }
        ClearShapesAgree(Labels(a), Labels(b));
      }
      if Labels(a) == Labels(b) {
        forall i | 0 <= i < |x| ensures Shapes(x)[i] == Shapes(y)[i] {
          assert LabelsOf(x)[i] == LabelsOf(y)[i];
        }
        assert Shapes(x) == Shapes(y);
      }
    } else {
      assert |Shapes(x)| != |Shapes(y)| && |LabelsOf(x)| != |LabelsOf(y)|;
    }
  }

  /** The parts of a document path, with what stands in braces left out. */
  function Nameless(document: string): (r: seq<string>)
  {
    var parts := Split(Tail(document), '/');
    seq(|parts|, i requires 0 <= i < |parts| => if HasBrace(parts[i]) then "{}" else parts[i])
  }

  lemma NamelessAt(document: string, parts: seq<string>)
    requires Split(Tail(document), '/') == parts
    ensures |Nameless(document)| == |parts|
    ensures forall i :: 0 <= i < |parts| ==>
              Nameless(document)[i] == if HasBrace(parts[i]) then "{}" else parts[i]
  {
  }

  /**
    Two document paths of unambiguous routes that are equal up to the names in braces are equal
    (section 4.7.8 of OpenAPI 3.0.3).
   */
  lemma DocumentPathsDiffer(a: string, b: string)
    requires ValidPath(a) && ValidPath(b) && !Conflict(Labels(a), Labels(b))
    requires Nameless(Normalized(a)) == Nameless(Normalized(b))
    ensures Normalized(a) == Normalized(b)
  {
    hide ValidPath, IsPart, Segments, Shape, Split, Conflict, Labels, Nameless, Normalized;
    var x, y := Segments(a), Segments(b);
    var xs, ys := if x == [] then [""] else Shapes(x), if y == [] then [""] else Shapes(y);
    DocumentParts(a);
    DocumentParts(b);
    NamelessAt(Normalized(a), xs);
    NamelessAt(Normalized(b), ys);
    SlashSegments(a);
    SlashSegments(b);
    NormalizedIffLabels(a, b);
    assert xs[0] == ys[0] || (HasBrace(xs[0]) && HasBrace(ys[0])) by {
      assert Nameless(Normalized(a))[0] == Nameless(Normalized(b))[0];
      BraceOrEqual(xs[0], ys[0]);
    }
    if x == [] || y == [] {
      assert !HasBrace("");
      if x == [] && y != [] {
        assert ys == [""] && Shape(y[0]) == "";
        EmptyShape(y[0]);
        assert y == [""];
      } else if x != [] {
        assert xs == [""] && Shape(x[0]) == "";
        EmptyShape(x[0]);
        assert x == [""];
      } else {
        assert Labels(a) == Labels(b) by { SameSegments(a, b); }
      }
    } else {
      SegmentsOfPath(a);
      SegmentsOfPath(b);
      forall i | 0 <= i < |x|
        ensures (LabelOf(x[i]).Parameter? && LabelOf(y[i]).Parameter?)
                || LabelOf(x[i]) == LabelOf(y[i])
      {
        assert Nameless(Normalized(a))[i] == Nameless(Normalized(b))[i];
        assert xs[i] == Shape(x[i]) && ys[i] == Shape(y[i]);
        BraceOrEqual(xs[i], ys[i]);
        PartShape(x[i]);
        PartShape(y[i]);
        ShapesOfParts(x[i], y[i]);
        LabelFacts(x[i], y[i]);
      }
      assert SameShape(Labels(a), Labels(b)) by { SameShapeOf(a, b); }
      ClearShapesAgree(Labels(a), Labels(b));
    }
  }

  lemma BraceOrEqual(x: string, y: string)
    requires (if HasBrace(x) then "{}" else x) == (if HasBrace(y) then "{}" else y)
    ensures x == y || (HasBrace(x) && HasBrace(y))
  {
    assert HasBrace("{}") by { assert "{}"[0] == '{'; }
  }

  lemma SameSegments(a: string, b: string)
    requires Segments(a) == Segments(b)
    ensures Labels(a) == Labels(b)
  {
  }

  lemma SameShapeOf(a: string, b: string)
    requires |Segments(a)| == |Segments(b)|
    requires forall i :: 0 <= i < |Segments(a)| ==>
               var x, y := LabelOf(Segments(a)[i]), LabelOf(Segments(b)[i]);
               (x.Parameter? && y.Parameter?) || x == y
    ensures SameShape(Labels(a), Labels(b))
  {
    hide Segments, LabelOf;
  }

  // ---------- which paths have the same labels ----------

  /** The shortest way to write a parameter. */
  function Written(catchAll: bool, name: string, constraints: string): string {
    "{" + (if catchAll then "*" else "") + name
    + (if constraints == "" then "" else ":" + constraints) + "}"
  }

  /** A segment without a colon that no constraint follows. */
  function Spelling(x: string): string {
    if IsParameter(x) then
      Written(IsCatchAll(x), ParameterParts(x).0, ParameterParts(x).1)
    else x
  }

  lemma BracesAround(x: string)
    requires IsParameter(x)
    ensures IsCatchAll(x) ==> x == ['{', '*'] + (Inside(x) + ['}'])
    ensures !IsCatchAll(x) ==> x == ['{'] + (Inside(x) + ['}'])
  {
    var inner := x[1..|x| - 1];
    assert inner[0] == x[1];
    assert IsCatchAll(x) ==> Inside(x) == x[2..|x| - 1];
  }

  lemma AroundByte(s: string, k: nat)
    requires k < |s|
    ensures s == s[..k] + ([s[k]] + s[k + 1..]) && s[k] in s
  {
  }

  lemma ColonParts(inside: string)
    ensures var colon := IndexOf(inside, ':', 0);
            if colon == |inside| then inside[..colon] == inside && ':' !in inside
            else inside == inside[..colon] + ([':'] + inside[colon + 1..]) && ':' in inside
  {
    hide IndexOf;
    var colon := IndexOf(inside, ':', 0);
    if colon < |inside| {
      AroundByte(inside, colon);
    }
  }

  lemma WrittenOpen(catchAll: bool, name: string, constraints: string)
    ensures Written(catchAll, name, constraints)
         == (if catchAll then "{*" else "{")
            + (name + ((if constraints == "" then "" else ":" + constraints) + "}"))
  {
  }

  lemma Assembled(open: string, name: string, rest: string, more: string)
    ensures open + ((name + rest) + more) == open + (name + (rest + more))
  {
  }

  /** A segment is its own spelling, but for a colon at the end of a parameter. */
  lemma SpellingDropsColon(x: string)
    requires IsPart(x)
    ensures x == Spelling(x)
            || (IsParameter(x) && ParameterParts(x).1 == "" && Spelling(x) != []
                && x == Spelling(x)[..|Spelling(x)| - 1] + ":}")
  {
    hide IndexOf, IsPart, Inside, Written;
    if IsParameter(x) {
      BracesAround(x);
      ColonParts(Inside(x));
      var name, constraints := ParameterParts(x).0, ParameterParts(x).1;
      var open := if IsCatchAll(x) then "{*" else "{";
      WrittenOpen(IsCatchAll(x), name, constraints);
      if ':' !in Inside(x) {
        assert Inside(x) == name && constraints == "";
        assert Spelling(x) == open + (name + ("" + "}"));
        Assembled(open, name, "", "}");
        assert name + "" == name;
      } else {
        assert Inside(x) == name + ([':'] + constraints);
        Assembled(open, name, [':'] + constraints, "}");
        if constraints == "" {
          ColonBehind(x, open, name, Spelling(x));
        }
      }
    }
  }

  lemma ColonBehind(x: string, open: string, name: string, spelling: string)
    requires x == open + ((name + ([':'] + "")) + ['}'])
    requires spelling == open + (name + ("" + "}"))
    ensures spelling != [] && x == spelling[..|spelling| - 1] + ":}"
  {
    assert spelling[..|spelling| - 1] == open + name;
  }

  lemma InsideWritten(catchAll: bool, inner: string)
    requires inner != [] && inner[0] != '*'
    ensures var w := "{" + (if catchAll then "*" else "") + inner + "}";
            IsParameter(w) && IsCatchAll(w) == catchAll && Inside(w) == inner
  {
    var w := "{" + (if catchAll then "*" else "") + inner + "}";
    assert w[1..|w| - 1] == (if catchAll then "*" else "") + inner;
  }

  lemma NameUpToColon(name: string, constraints: string)
    requires ':' !in name
    ensures var inner := name + if constraints == "" then "" else ":" + constraints;
            var colon := IndexOf(inner, ':', 0);
            && inner[..colon] == name
            && constraints == if colon == |inner| then "" else inner[colon + 1..]
  {
    hide IndexOf;
    var inner := name + if constraints == "" then "" else ":" + constraints;
    assert forall k :: 0 <= k < |name| ==> inner[k] == name[k] && inner[k] in name;
    if constraints != "" {
      assert inner[|name|] == ':';
      assert inner[|name| + 1..] == constraints;
    }
  }

  lemma WrittenParts(catchAll: bool, name: string, constraints: string)
    requires IsIdentifier(name)
    ensures var w := Written(catchAll, name, constraints);
            IsParameter(w) && IsCatchAll(w) == catchAll
            && ParameterParts(w) == (name, constraints)
  {
    hide IndexOf, IsParameter, IsCatchAll, Inside;
    var inner := name + if constraints == "" then "" else ":" + constraints;
    IdentifierIsPlain(name);
    assert ':' !in name by {
      assert ':' in "/{}:" by { assert "/{}:"[3] == ':'; }
    }
    assert inner[0] == name[0] != '*';
    InsideWritten(catchAll, inner);
    NameUpToColon(name, constraints);
    WrittenInner(catchAll, name, constraints);
    hide Written;
  }

  lemma WrittenInner(catchAll: bool, name: string, constraints: string)
    ensures Written(catchAll, name, constraints)
         == "{" + (if catchAll then "*" else "")
            + (name + if constraints == "" then "" else ":" + constraints) + "}"
  {
  }

  lemma PartName(x: string)
    requires IsPart(x) && IsParameter(x)
    ensures IsIdentifier(ParameterParts(x).0)
  {
    hide ValidConstraints;
    assert HasBrace(x);
  }

  /** Two parts have the same label if and only if they have the same spelling. */
  lemma LabelsOfParts(x: string, y: string)
    requires IsPart(x) && IsPart(y)
    ensures LabelOf(x) == LabelOf(y) <==> Spelling(x) == Spelling(y)
  {
    hide IsPart, ParameterParts, Written;
    if IsParameter(x) {
      PartName(x);
      WrittenParts(IsCatchAll(x), ParameterParts(x).0, ParameterParts(x).1);
    }
    if IsParameter(y) {
      PartName(y);
      WrittenParts(IsCatchAll(y), ParameterParts(y).0, ParameterParts(y).1);
    }
  }

  function Spellings(segments: seq<string>): (r: seq<string>)
    ensures |r| == |segments| && forall i :: 0 <= i < |r| ==> r[i] == Spelling(segments[i])
  {
    seq(|segments|, i requires 0 <= i < |segments| => Spelling(segments[i]))
  }

  /** Two accepted paths have the same labels iff their segments are spelled alike. */
  lemma LabelsIffSpellings(a: string, b: string)
    requires ValidPath(a) && ValidPath(b)
    ensures Labels(a) == Labels(b) <==> Spellings(Segments(a)) == Spellings(Segments(b))
  {
    hide ValidPath, IsPart, Segments, LabelOf, Spelling;
    SegmentsOfPath(a);
    SegmentsOfPath(b);
    var x, y := Segments(a), Segments(b);
    if |x| == |y| {
      forall i | 0 <= i < |x|
        ensures LabelsOf(x)[i] == LabelsOf(y)[i] <==> Spellings(x)[i] == Spellings(y)[i]
      {
        LabelsOfParts(x[i], y[i]);
      }
    }
  }

  /** The segments are the same iff the paths are, up to one slash at the end. */
  lemma SegmentsIffSlash(a: string, b: string)
    requires ValidPath(a) && ValidPath(b)
    ensures Segments(a) == Segments(b) <==>
            || a == b
            || (a == b + "/" && !EndsInSlash(b)) || (b == a + "/" && !EndsInSlash(a))
  {
    hide ValidPath, Segments, Join;
    PathOfSegments(a);
    PathOfSegments(b);
    SegmentsOfPath(a);
    SegmentsOfPath(b);
    if EndsInSlash(a) && !EndsInSlash(b) {
      SlashBehind(a, b);
    } else if EndsInSlash(b) && !EndsInSlash(a) {
      SlashBehind(b, a);
    }
  }

  lemma SlashBehind(a: string, b: string)
    requires ValidPath(a) && ValidPath(b) && EndsInSlash(a) && !EndsInSlash(b)
    ensures Segments(a) == Segments(b) <==> a == b + "/"
  {
    hide ValidPath, Segments, Split, Join, IsPart;
    PathOfSegments(a);
    PathOfSegments(b);
    SegmentsOfPath(a);
    SegmentsOfPath(b);
    var x, y := Segments(a), Segments(b);
    if x == y {
      assert a == "/" + (Join(y, '/') + "/") == b + "/";
    } else if a == b + "/" {
      assert a[1..] == Join(y, '/') + "/";
      if x != [] {
        assert a[1..] == Join(x, '/') + "/";
        assert (Join(x, '/') + "/")[..|Join(x, '/')|] == Join(x, '/');
        assert (Join(y, '/') + "/")[..|Join(y, '/')|] == Join(y, '/');
        SplitOfJoin(x, '/');
        SplitOfJoin(y, '/');
      } else {
        LastOfJoin(y);
      }
    }
  }

  /**
    Two accepted routes have one document path if and only if their segments are spelled alike,
    which leaves them one slash at the end and colons without a constraint to differ in, or they
    are `/` and `//`.
   */
  lemma NormalizedIff(routes: seq<Route>, i: nat, j: nat)
    requires AcceptedRoutes(routes) && i < |routes| && j < |routes|
    ensures var a, b := routes[i].path, routes[j].path;
            Normalized(a) == Normalized(b) <==>
            Spellings(Segments(a)) == Spellings(Segments(b)) || OneSlashOrTwo(a, b)
  {
    hide ValidPath, Normalized, Labels, Conflict, Spellings, Segments;
    var a, b := routes[i].path, routes[j].path;
    if i != j {
      var labels := AllLabels(routes);
      ConflictSymmetric(labels[i], labels[j]);
      assert !Conflict(Labels(a), Labels(b));
      NormalizedIffLabels(a, b);
      LabelsIffSpellings(a, b);
    }
  }

  predicate NoTrailingSlash(path: string) {
    path == "/" || !EndsInSlash(path)
  }

  /** No parameter is written with a colon and nothing behind it. */
  predicate NoEmptyConstraint(path: string) {
    forall i :: 0 <= i < |Segments(path)| && IsParameter(Segments(path)[i]) ==>
      (ParameterParts(Segments(path)[i]).1 == "" ==> ':' !in Inside(Segments(path)[i]))
  }

  lemma SpelledShort(x: string)
    requires IsPart(x)
    requires IsParameter(x) ==> (ParameterParts(x).1 == "" ==> ':' !in Inside(x))
    ensures Spelling(x) == x
  {
    hide IsPart, ParameterParts, Spelling, Inside;
    SpellingDropsColon(x);
    if x != Spelling(x) {
      ColonInside(x, Spelling(x)[..|Spelling(x)| - 1]);
    }
  }

  lemma ColonInside(x: string, before: string)
    requires IsParameter(x) && x == before + ":}"
    ensures ':' in Inside(x)
  {
    var inner := x[1..|x| - 1];
    assert x[|x| - 2] == ':' && inner[|inner| - 1] == ':';
    if inner[0] == '*' {
      assert inner[1..][|inner| - 2] == ':';
    }
  }

  /** Accepted routes so written are different paths in the document when they are different. */
  lemma NormalizedIsInjective(routes: seq<Route>, i: nat, j: nat)
    requires AcceptedRoutes(routes) && i < |routes| && j < |routes|
    requires forall r | r in routes :: NoTrailingSlash(r.path) && NoEmptyConstraint(r.path)
    ensures Normalized(routes[i].path) == Normalized(routes[j].path) <==>
            routes[i].path == routes[j].path
  {
    hide ValidPath, Normalized, Labels, Conflict, Spelling, Segments, IsPart, ParameterParts;
    hide Inside, PairwiseClear;
    var a, b := routes[i].path, routes[j].path;
    assert routes[i] in routes && routes[j] in routes;
    NormalizedIff(routes, i, j);
    SegmentsOfPath(a);
    SegmentsOfPath(b);
    var x, y := Segments(a), Segments(b);
    forall k | 0 <= k < |x| ensures Spelling(x[k]) == x[k] {
      SpelledShort(x[k]);
    }
    forall k | 0 <= k < |y| ensures Spelling(y[k]) == y[k] {
      SpelledShort(y[k]);
    }
    assert Spellings(x) == x && Spellings(y) == y;
    SegmentsIffSlash(a, b);
    SlashSegments(a);
    SlashSegments(b);
    assert EndsInSlash("//");
  }

  lemma OnePart(part: string)
    requires '/' !in part && part != ""
    ensures Split(part, '/') == [part] && Segments("/" + part) == [part]
  {
    assert ("/" + part)[1..] == part;
  }

  /** A slash at the end makes two routes of one document path, and no check refuses them. */
  lemma TrailingSlashCollides()
    ensures var a, b := "/a/", "/a";
            AcceptedRoutes([Route("GET", a), Route("GET", b)]) && Normalized(a) == Normalized(b)
  {
    hide Normalized, Segments, ValidPath;
    var a, b := "/a/", "/a";
    assert a[1..] == "a/" && b[1..] == "a";
    OnePart("a");
    assert "/" + "a" == b && "a" + ['/'] + "" == "a/";
    PlainParts();
    OnePartPath("a");
    TwoPartPath("a", "");
    assert "/" + ("a" + ['/'] + "") == a;
    SplitCons("a", '/', "");
    assert Split("", '/') == [""];
    SegmentsAre(a, ["a", ""]);
    assert ["a", ""][..1] == ["a"];
    SameSegments(a, b);
    TwoRoutes(a, b);
  }

  lemma PlainParts()
    ensures ValidPart("a", true) && ValidPart("a", false) && ValidPart("", true)
    ensures '/' !in "a" && '/' !in "" && !IsParameter("a") && !IsParameter("")
  {
    assert !HasBrace("a") && !HasBrace("");
  }

  lemma TwoPartPath(first: string, second: string)
    requires ValidPart(first, false) && ValidPart(second, true)
    requires '/' !in first && '/' !in second && !IsParameter(first)
    ensures ValidPath("/" + (first + ['/'] + second))
  {
    hide ValidPart, IsParameter;
    var path := "/" + (first + ['/'] + second);
    SplitCons(first, '/', second);
    assert path[1..] == first + ['/'] + second;
    assert Split(second, '/') == [second];
    assert Split(path[1..], '/') == [first, second];
  }

  /** So does a colon without a constraint. */
  lemma EmptyConstraintCollides()
    ensures var a, b := "/{n:}", "/{n}";
            AcceptedRoutes([Route("GET", a), Route("GET", b)]) && Normalized(a) == Normalized(b)
  {
    hide Normalized, Segments, ValidPath;
    var a, b := "/{n:}", "/{n}";
    ColonParameters();
    OnePart("{n:}");
    OnePart("{n}");
    assert "/" + "{n:}" == a && "/" + "{n}" == b;
    OnePartPath("{n:}");
    OnePartPath("{n}");
    TwoRoutes(a, b);
  }

  lemma ColonParameters()
    ensures ValidPart("{n:}", true) && ValidPart("{n}", true)
    ensures '/' !in "{n:}" && '/' !in "{n}"
    ensures Spelling("{n:}") == Spelling("{n}") && LabelOf("{n:}") == LabelOf("{n}")
  {
    assert "{n}"[1..2] == "n" && "{n:}"[1..3] == "n:";
    assert Inside("{n}") == "n" && Inside("{n:}") == "n:";
    assert IndexOf("n", ':', 0) == 1;
    assert IndexOf("n:", ':', 0) == 1 && "n:"[2..] == "" && "n:"[..1] == "n";
  }

  lemma OnePartPath(part: string)
    requires ValidPart(part, true) && '/' !in part && part != ""
    ensures ValidPath("/" + part)
  {
    hide ValidPart;
    OnePart(part);
    assert ("/" + part)[1..] == part;
  }

  /** Two different paths with the same labels make two accepted routes. */
  lemma TwoRoutes(a: string, b: string)
    requires ValidPath(a) && ValidPath(b) && a != b && Labels(a) == Labels(b)
    ensures AcceptedRoutes([Route("GET", a), Route("GET", b)]) && Normalized(a) == Normalized(b)
  {
    hide ValidPath, Labels, Normalized;
    NoSelfConflict(Labels(a));
    NormalizedIffLabels(a, b);
    var labels := AllLabels([Route("GET", a), Route("GET", b)]);
    assert labels[0] == Labels(a) && labels[1] == Labels(b);
  }

  lemma {:induction false} NoSelfConflict(a: seq<Label>)
    ensures !Conflict(a, a)
  {
    if a != [] {
      NoSelfConflict(a[1..]);
    }
  }
}
