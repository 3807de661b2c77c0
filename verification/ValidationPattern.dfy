/**
  The recogniser of validation patterns (compiler/src/application.cpp:752-826) against a grammar:
  optional anchors around atoms, each a literal, an escape or a non-empty class, with at most one
  quantifier.
 */
module ValidationPattern {
  import opened Wrappers

  const LIMIT := 1024

  // ---------- the grammar ----------

  predicate IsQuantifier(c: char) {
    c == '*' || c == '+' || c == '?'
  }

  /** Bytes with a meaning outside classes that the grammar gives no atom. */
  predicate IsReserved(c: char) {
    IsQuantifier(c) || c in "$^()|{}"
  }

  predicate IsLiteral(a: string) {
    |a| == 1 && !IsReserved(a[0]) && a[0] != '\\' && a[0] != '['
  }

  predicate IsEscape(a: string) {
    |a| == 2 && a[0] == '\\'
  }

  /** Class items: escapes, and any other byte but the closing bracket. */
  predicate IsItems(c: string) {
    || c == []
    || (c[0] == '\\' && |c| >= 2 && IsItems(c[2..]))
    || (c[0] != '\\' && c[0] != ']' && IsItems(c[1..]))
  }

  function AfterCaret(c: string): string {
    if c != [] && c[0] == '^' then c[1..] else c
  }

  predicate IsClass(a: string) {
    && |a| >= 2 && a[0] == '[' && a[|a| - 1] == ']'
    && var items := AfterCaret(a[1..|a| - 1]);
       items != [] && IsItems(items)
  }

  predicate IsAtom(a: string) {
    IsLiteral(a) || IsEscape(a) || IsClass(a)
  }

  predicate IsPiece(p: string) {
    IsAtom(p) || (p != [] && IsQuantifier(p[|p| - 1]) && IsAtom(p[..|p| - 1]))
  }

  ghost predicate IsBody(s: string)
    decreases |s|
  {
    s == [] || exists k :: 0 < k <= |s| && IsPiece(s[..k]) && IsBody(s[k..])
  }

  function Anchored(caret: bool, body: string, dollar: bool): string {
    (if caret then "^" else "") + body + if dollar then "$" else ""
  }

  /** The patterns of the grammar. */
  ghost predicate IsPattern(p: string) {
    |p| <= LIMIT
    && exists caret, body, dollar :: p == Anchored(caret, body, dollar) && IsBody(body)
  }

  // ---------- atoms are delimited ----------

  /** The distance to the bracket that closes class items. */
  function ItemsLength(s: string): (r: Option<nat>)
    ensures r.Some? ==> r.value < |s| && s[r.value] == ']' && IsItems(s[..r.value])
    decreases |s|
  {
    if s == [] then None
    else if s[0] == ']' then Some(0)
    else
      var step := if s[0] == '\\' then 2 else 1;
      if step > |s| then None
      else
        var r := ItemsLength(s[step..]);
        if r.None? then None
        else
          assert s[..r.value + step][step..] == s[step..][..r.value];
          Some(r.value + step)
  }

  lemma {:induction false} ItemsAreDelimited(c: string, rest: string)
    requires IsItems(c)
    ensures ItemsLength(c + "]" + rest) == Some(|c|)
    decreases |c|
  {
    if c != [] {
      var step := if c[0] == '\\' then 2 else 1;
      ItemsAreDelimited(c[step..], rest);
      assert (c + "]" + rest)[step..] == c[step..] + "]" + rest;
    }
  }

  /** The length of the atom at the start, or zero. */
  function AtomLength(s: string): (n: nat)
    requires s != []
    ensures n <= |s|
  {
    if IsReserved(s[0]) then 0
    else if s[0] == '\\' then if |s| >= 2 then 2 else 0
    else if s[0] == '[' then
      var skip := if |s| > 1 && s[1] == '^' then 2 else 1;
      var items := ItemsLength(s[skip..]);
      if items.None? || items.value == 0 then 0 else skip + items.value + 1
    else 1
  }

  lemma AtomLengthIsAtom(s: string)
    requires s != [] && AtomLength(s) > 0
    ensures IsAtom(s[..AtomLength(s)])
  {
    hide IsItems;
    if s[0] == '[' {
      ClassAtStart(s, if |s| > 1 && s[1] == '^' then 2 else 1);
    }
  }

  lemma ClassAtStart(s: string, skip: nat)
    requires s != [] && s[0] == '[' && skip == if |s| > 1 && s[1] == '^' then 2 else 1
    requires ItemsLength(s[skip..]).Some? && ItemsLength(s[skip..]).value > 0
    ensures IsClass(s[..skip + ItemsLength(s[skip..]).value + 1])
  {
    hide IsItems, ItemsLength;
    var n := ItemsLength(s[skip..]).value;
    var items := s[skip..skip + n];
    var a := s[..skip + n + 1];
    assert s[skip..][..n] == items;
    assert a[|a| - 1] == s[skip + n] == s[skip..][n];
    var inner := a[1..|a| - 1];
    assert inner == s[1..skip + n];
    if skip == 2 {
      assert inner[0] == '^' && inner[1..] == items;
    } else {
      assert inner == items && inner[0] == s[1];
    }
    assert AfterCaret(inner) == items;
  }

  lemma AtomIsDelimited(a: string, rest: string)
    requires IsAtom(a)
    ensures a + rest != [] && AtomLength(a + rest) == |a|
  {
    var s := a + rest;
    if IsClass(a) {
      var inner := a[1..|a| - 1];
      var items := AfterCaret(inner);
      var skip := if inner[0] == '^' then 2 else 1;
      assert a == a[..skip] + items + "]";
      assert s[skip..] == items + "]" + rest;
      ItemsAreDelimited(items, rest);
    }
  }

  /** The length of the piece at the start, or zero. */
  function PieceLength(s: string): (n: nat)
    requires s != []
    ensures n <= |s|
  {
    var n := AtomLength(s);
    if n > 0 && n < |s| && IsQuantifier(s[n]) then n + 1 else n
  }

  lemma NoBodyAtQuantifier(s: string)
    requires s != [] && IsReserved(s[0])
    ensures !IsBody(s)
  {
    forall k | 0 < k <= |s| ensures !IsPiece(s[..k]) {
      assert s[..k][0] == s[0];
      if k > 1 {
        assert s[..k][..k - 1][0] == s[0];
      }
    }
  }

  lemma PieceIsDelimited(p: string, rest: string)
    requires IsPiece(p) && IsBody(rest)
    ensures p + rest != [] && PieceLength(p + rest) == |p|
  {
    hide IsBody, AtomLength;
    var s := p + rest;
    if IsAtom(p) {
      hide IsAtom;
      AtomIsDelimited(p, rest);
      if rest != [] {
        assert s[|p|] == rest[0];
        if IsReserved(rest[0]) {
          NoBodyAtQuantifier(rest);
        }
      }
    } else {
      hide IsAtom;
      var a := p[..|p| - 1];
      AtomIsDelimited(a, [p[|p| - 1]] + rest);
      assert a + ([p[|p| - 1]] + rest) == s && s[|a|] == p[|p| - 1];
      AtomNonEmpty(a);
    }
  }

  lemma PieceLengthIsPiece(s: string)
    requires s != [] && PieceLength(s) > 0
    ensures IsPiece(s[..PieceLength(s)])
  {
    hide IsAtom, AtomLength;
    AtomLengthIsAtom(s);
    var n := PieceLength(s);
    if n != AtomLength(s) {
      assert s[..n][..n - 1] == s[..AtomLength(s)];
    }
  }

  /** A body starts with exactly one piece, and is a body behind it. */
  lemma BodyStep(s: string)
    requires s != []
    ensures IsBody(s) <==> PieceLength(s) > 0 && IsBody(s[PieceLength(s)..])
  {
    hide IsPiece, PieceLength;
    if IsBody(s) {
      var k :| 0 < k <= |s| && IsPiece(s[..k]) && IsBody(s[k..]);
      assert s == s[..k] + s[k..];
      PieceIsDelimited(s[..k], s[k..]);
    }
    if PieceLength(s) > 0 && IsBody(s[PieceLength(s)..]) {
      PieceLengthIsPiece(s);
    }
  }

  // ---------- anchors are delimited ----------

  /** How many backslashes end a string. */
  function TrailingEscapes(s: string): (n: nat)
    ensures n <= |s|
  {
    if s == [] || s[|s| - 1] != '\\' then 0 else 1 + TrailingEscapes(s[..|s| - 1])
  }

  lemma {:induction false} TrailingOfSum(a: string, b: string)
    ensures TrailingEscapes(a + b)
            == TrailingEscapes(b) + if TrailingEscapes(b) == |b| then TrailingEscapes(a) else 0
    decreases |b|
  {
    if b == [] {
      assert a + b == a;
    } else {
      assert (a + b)[..|a + b| - 1] == a + b[..|b| - 1];
      TrailingOfSum(a, b[..|b| - 1]);
    }
  }

  lemma AtomNonEmpty(a: string)
    requires IsAtom(a)
    ensures a != []
  {
  }

  lemma OtherByteEndsEven(p: string)
    requires p != [] && p[|p| - 1] != '\\'
    ensures TrailingEscapes(p) == 0
  {
  }

  lemma EscapeEndsEven(p: string)
    requires IsEscape(p)
    ensures TrailingEscapes(p) % 2 == 0
    ensures p[1] == '$' ==> p == "\\$"
  {
    assert p[..1] == [p[0]] && [p[0]][..0] == [];
    assert TrailingEscapes([p[0]]) == 1 + TrailingEscapes([]);
  }

  lemma PieceEndsEven(p: string)
    requires IsPiece(p)
    ensures p != [] && TrailingEscapes(p) % 2 == 0
    ensures p[|p| - 1] == '$' ==> p == "\\$"
  {
    hide IsItems, TrailingEscapes;
    if IsEscape(p) {
      EscapeEndsEven(p);
    } else {
      OtherByteEndsEven(p);
    }
  }

  /** A string whose final backslashes pair up, and whose final dollar, if any, is escaped. */
  predicate EndsEven(s: string) {
    && TrailingEscapes(s) % 2 == 0
    && (s != [] && s[|s| - 1] == '$' ==> TrailingEscapes(s[..|s| - 1]) % 2 == 1)
  }

  lemma EvenSum(p: string, rest: string)
    requires EndsEven(p) && EndsEven(rest)
    ensures EndsEven(p + rest)
  {
    hide TrailingEscapes;
    var s := p + rest;
    TrailingOfSum(p, rest);
    if rest == [] {
      assert s == p;
    } else {
      assert s[..|s| - 1] == p + rest[..|rest| - 1];
      TrailingOfSum(p, rest[..|rest| - 1]);
    }
  }

  lemma PieceIsEven(p: string)
    requires IsPiece(p)
    ensures EndsEven(p)
  {
    hide IsPiece;
    PieceEndsEven(p);
    if p != [] && p[|p| - 1] == '$' {
      assert p[..|p| - 1] == "\\" && "\\"[..0] == [];
    }
  }

  lemma FirstPiece(s: string) returns (k: nat)
    requires IsBody(s) && s != []
    ensures 0 < k <= |s| && IsPiece(s[..k]) && IsBody(s[k..])
  {
    hide IsPiece;
    k :| 0 < k <= |s| && IsPiece(s[..k]) && IsBody(s[k..]);
  }

  lemma EmptyEndsEven()
    ensures EndsEven([])
  {
  }

  /** Backslashes at the end of a body pair up, so a final dollar of a body is escaped. */
  lemma {:induction false} BodyEndsEven(s: string)
    requires IsBody(s)
    ensures EndsEven(s)
    decreases |s|
  {
    hide IsPiece, EndsEven, IsBody;
    EmptyEndsEven();
    if s != [] {
      var k := FirstPiece(s);
      assert s == s[..k] + s[k..];
      PieceIsEven(s[..k]);
      BodyEndsEven(s[k..]);
      EvenSum(s[..k], s[k..]);
    }
  }

  /** The body and anchors that the recogniser settles on. */
  function Inner(p: string): string {
    var q := AfterCaret(p);
    if q != [] && q[|q| - 1] == '$' && TrailingEscapes(p[..|p| - 1]) % 2 == 0 then q[..|q| - 1]
    else q
  }

  lemma EscapesBehindCaret(caret: bool, q: string)
    ensures TrailingEscapes((if caret then "^" else "") + q) == TrailingEscapes(q)
  {
    var head := if caret then "^" else "";
    TrailingOfSum(head, q);
  }

  /** A pattern of the grammar has one reading: the one the recogniser takes. */
  lemma PatternIsInner(p: string)
    ensures IsPattern(p) <==> |p| <= LIMIT && IsBody(Inner(p))
  {
    hide IsBody;
    var q, inner := AfterCaret(p), Inner(p);
    var starts := p != [] && p[0] == '^';
    assert p == Anchored(starts, inner, inner != q);
    forall caret, body, dollar | p == Anchored(caret, body, dollar) && IsBody(body)
      ensures body == inner
    {
      ReadingIsInner(p, caret, body, dollar);
    }
  }

  lemma CaretIsTaken(caret: bool, body: string, tail: string)
    requires IsBody(body) && tail in {"", "$"}
    ensures AfterCaret((if caret then "^" else "") + (body + tail)) == body + tail
  {
    hide IsBody;
    if body != [] && IsReserved(body[0]) {
      NoBodyAtQuantifier(body);
    }
    var q := body + tail;
    if caret {
      assert ("^" + q)[1..] == q;
    } else {
      assert "" + q == q;
      assert q != [] ==> q[0] == if body != [] then body[0] else tail[0];
    }
  }

  lemma ReadingIsInner(p: string, caret: bool, body: string, dollar: bool)
    requires p == Anchored(caret, body, dollar) && IsBody(body)
    ensures body == Inner(p)
  {
    hide IsBody, TrailingEscapes, AfterCaret;
    var head := if caret then "^" else "";
    var tail := if dollar then "$" else "";
    var q := body + tail;
    assert p == head + q;
    CaretIsTaken(caret, body, tail);
    BodyEndsEven(body);
    if dollar {
      assert q[|q| - 1] == '$' && p[..|p| - 1] == head + body && q[..|q| - 1] == body;
      EscapesBehindCaret(caret, body);
    } else {
      assert q == body;
      if body != [] {
        assert p[..|p| - 1] == head + body[..|body| - 1];
        EscapesBehindCaret(caret, body[..|body| - 1]);
      }
    }
  }

  // ---------- the recogniser ----------

  method IsEscapedByte(pattern: string, at: nat) returns (escaped: bool)
    requires at <= |pattern|
    ensures escaped <==> TrailingEscapes(pattern[..at]) % 2 == 1
  {
    hide TrailingEscapes;
    var index, escapes := at, 0;
    while index > 0 && pattern[index - 1] == '\\'
      invariant 0 <= index <= at && escapes + index == at
      invariant TrailingEscapes(pattern[..at]) == escapes + TrailingEscapes(pattern[..index])
    {
      assert pattern[..index][..index - 1] == pattern[..index - 1];
      TrailingStep(pattern[..index]);
      index := index - 1;
      escapes := escapes + 1;
    }
    TrailingStep(pattern[..index]);
    escaped := escapes % 2 != 0;
  }

  lemma TrailingStep(s: string)
    ensures TrailingEscapes(s)
            == if s == [] || s[|s| - 1] != '\\' then 0 else 1 + TrailingEscapes(s[..|s| - 1])
  {
  }

  /** Moves over the items of a class; `next` is its closing bracket. */
  method SkipItems(pattern: string, cursor: nat, end: nat) returns (ok: bool, next: nat)
    requires cursor <= end <= |pattern|
    ensures ok <==> ItemsLength(pattern[cursor..end]).Some?
    ensures ok ==> next == cursor + ItemsLength(pattern[cursor..end]).value
  {
    hide ItemsLength, IsItems;
    next := cursor;
    ItemsStep(pattern[next..end]);
    while next < end
      invariant cursor <= next <= end
      invariant ItemsLength(pattern[cursor..end])
                == Shifted(ItemsLength(pattern[next..end]), next - cursor)
      decreases end - next
    {
      ItemsStep(pattern[next..end]);
      if pattern[next] == '\\' {
        if next + 2 > end {
          return false, next;
        }
        assert pattern[next..end][2..] == pattern[next + 2..end];
        next := next + 2;
        continue;
      }
      if pattern[next] == ']' {
        return true, next;
      }
      assert pattern[next..end][1..] == pattern[next + 1..end];
      next := next + 1;
    }
    ItemsStep(pattern[next..end]);
    ok := false;
  }

  function Shifted(r: Option<nat>, n: nat): Option<nat> {
    if r.None? then None else Some(r.value + n)
  }

  lemma ItemsStep(s: string)
    ensures ItemsLength(s)
            == if s == [] then None
               else if s[0] == ']' then Some(0)
               else
                 var step := if s[0] == '\\' then 2 else 1;
                 if step > |s| then None else Shifted(ItemsLength(s[step..]), step)
  {
  }

  /** One atom; fails at a byte that starts none. */
  method SkipAtom(pattern: string, cursor: nat, end: nat) returns (ok: bool, next: nat)
    requires cursor < end <= |pattern|
    ensures ok <==> AtomLength(pattern[cursor..end]) > 0
    ensures ok ==> next == cursor + AtomLength(pattern[cursor..end])
  {
    hide ItemsLength;
    next := cursor;
    var current := pattern[cursor];
    if current == '*' || current == '+' || current == '?' || current == '$' || current == '^'
       || current == '(' || current == ')' || current == '|' || current == '{'
       || current == '}' {
      return false, next;
    }
    if current == '\\' {
      next := next + 2;
      return next <= end, next;
    } else if current == '[' {
      next := next + 1;
      if next < end && pattern[next] == '^' {
        next := next + 1;
      }
      var contents := next;
      assert pattern[cursor..end][next - cursor..] == pattern[next..end];
      var closed;
      closed, next := SkipItems(pattern, contents, end);
      if !closed || next == contents {
        return false, next;
      }
      return true, next + 1;
    } else {
      return true, next + 1;
    }
  }

  /** An atom and the quantifier behind it; fails when a second quantifier follows. */
  method SkipPiece(pattern: string, cursor: nat, end: nat) returns (ok: bool, next: nat)
    requires cursor < end <= |pattern|
    ensures ok ==> cursor < next <= end && next == cursor + PieceLength(pattern[cursor..end])
    ensures !ok ==> !IsBody(pattern[cursor..end])
  {
    hide AtomLength, IsBody;
    ghost var rest := pattern[cursor..end];
    BodyStep(rest);
    ok, next := SkipAtom(pattern, cursor, end);
    if !ok {
      return;
    }
    assert next < end ==> pattern[next] == rest[next - cursor];
    if next < end && IsQuantifier(pattern[next]) {
      next := next + 1;
      assert rest[next - cursor..] == pattern[next..end];
      if next < end && IsQuantifier(pattern[next]) {
        NoBodyAtQuantifier(pattern[next..end]);
        ok := false;
      }
    }
  }

  method IsValidBody(pattern: string, start: nat, end: nat) returns (ok: bool)
    requires start <= end <= |pattern|
    ensures ok <==> IsBody(pattern[start..end])
  {
    hide PieceLength, IsBody;
    var cursor := start;
    while cursor < end
      invariant start <= cursor <= end
      invariant IsBody(pattern[cursor..end]) <==> IsBody(pattern[start..end])
      decreases end - cursor
    {
      BodyStep(pattern[cursor..end]);
      var next;
      ok, next := SkipPiece(pattern, cursor, end);
      if !ok {
        return;
      }
      assert pattern[cursor..end][next - cursor..] == pattern[next..end];
      cursor := next;
    }
    EmptyIsBody();
    assert pattern[cursor..end] == [];
    ok := true;
  }

  /** The recogniser accepts exactly the patterns of the grammar. */
  method IsValidPattern(pattern: string) returns (ok: bool)
    ensures ok <==> IsPattern(pattern)
  {
    hide TrailingEscapes, IsBody, IsPattern;
    PatternIsInner(pattern);
    if |pattern| > LIMIT {
      return false;
    }
    var cursor, end := 0, |pattern|;
    if cursor < end && pattern[cursor] == '^' {
      cursor := cursor + 1;
    }
    if end > cursor && pattern[end - 1] == '$' {
      var escaped := IsEscapedByte(pattern, end - 1);
      if !escaped {
        end := end - 1;
      }
    }
    assert pattern[cursor..end] == Inner(pattern);
    ok := IsValidBody(pattern, cursor, end);
  }

  lemma EmptyIsBody()
    ensures IsBody([])
  {
  }

  // ---------- examples ----------

  /** A negated class needs an item, although a caret is an item elsewhere in a class. */
  lemma NegatedNothingIsRefused()
    ensures !IsPattern("[^]")
  {
    PatternIsInner("[^]");
    var inner := Inner("[^]");
    assert inner == "[^]";
    assert "[^]"[2..] == "]";
    assert ItemsLength("]") == Some(0);
    BodyStep("[^]");
  }
}
