/**
  The lexer (compiler/src/lexer.cpp:7-19, 253-679). `Lex` says what a source lexes to, byte by
  byte position; the class `Scanner` is the imperative lexer and is proved to compute it; the
  lemmas are about `Lex`. A byte is a char; source ids are left out of spans.
 */
module Lexer {
  import opened Decimals
  import opened Utf8
  import opened Wrappers

  datatype TokenKind =
    | Eof | Identifier | Integer | Floating | String
    | Package | Import | As | Extern | Struct | Service | Methods | Enum | StateMachine
    | Pipeline | Saga | Contract | Attribute | Implements | Extends | Delegate | Fn | Ctor
    | Action | Task | Unsafe | Spawn | Let | Const | Var | Return | Discard | If | Else | While
    | For | In | Break | Continue | Select | Timeout | Match | Capture | Replace | With | New
    | Own | View | Edit | True | False
    | LeftParen | RightParen | LeftBrace | RightBrace | LeftBracket | RightBracket | Comma
    | Colon | Dot | PlusEqual | Plus | StarEqual | Star | SlashEqual | Slash | PercentEqual
    | Percent | At | Dollar | MinusEqual | Minus | EqualEqual | Equal | BangEqual | Bang
    | LessEqual | Less | GreaterEqual | Greater | AndAnd | Ampersand | OrOr | Pipe | Caret
    | Tilde

  datatype Span = Span(offset: nat, length: nat, line: nat, column: nat)

  datatype Token = Token(kind: TokenKind, text: string, span: Span, leadingSafetyProof: bool)

  datatype Diagnostic = Diagnostic(code: string, span: Span)

  // ---------- characters ----------

  predicate IsAlpha(c: char) { 'a' <= c <= 'z' || 'A' <= c <= 'Z' }

  predicate IsSpace(c: char) { c == ' ' || 9 <= Code(c) <= 13 }

  predicate IsIdentifierStart(c: char) { IsAlpha(c) || c == '_' }

  predicate IsIdentifierPart(c: char) { IsAlpha(c) || IsDigit(c) || c == '_' }

  function NUL(): char { 0 as char }

  /** The byte at a position, NUL behind the end. */
  function ByteAt(s: string, i: nat): char {
    if i < |s| then s[i] else NUL()
  }

  // ---------- lines and columns ----------

  /** One more than the newlines before a position. */
  function LineAt(s: string, i: nat): nat
    requires i <= |s|
  {
    if i == 0 then 1 else LineAt(s, i - 1) + if s[i - 1] == '\n' then 1 else 0
  }

  /** The start of the line of a position: behind the last newline before it. */
  function LineStart(s: string, i: nat): (r: nat)
    requires i <= |s|
    ensures r <= i && (r > 0 ==> s[r - 1] == '\n')
    ensures forall k :: r <= k < i ==> s[k] != '\n'
  {
    if i == 0 || s[i - 1] == '\n' then i else LineStart(s, i - 1)
  }

  function ColumnAt(s: string, i: nat): nat
    requires i <= |s|
  {
    1 + (i - LineStart(s, i))
  }

  function SpanAt(s: string, i: nat, stop: nat): Span
    requires i <= stop <= |s|
  {
    Span(i, stop - i, LineAt(s, i), ColumnAt(s, i))
  }

  // ---------- ignored text ----------

  /** Where the line of a comment ends: at a newline or the end. */
  function CommentLineEnd(s: string, i: nat): (r: nat)
    requires i <= |s|
    ensures i <= r <= |s| && (r < |s| ==> s[r] == '\n')
    ensures forall k :: i <= k < r ==> s[k] != '\n'
    decreases |s| - i
  {
    if i == |s| || s[i] == '\n' then i else CommentLineEnd(s, i + 1)
  }

  predicate Starts(s: string, i: nat, a: char, b: char) {
    ByteAt(s, i) == a && ByteAt(s, i + 1) == b
  }

  /** Where `depth` open block comments end, and how many of them the end leaves open. */
  function BlockEnd(s: string, i: nat, depth: nat): (r: (nat, nat))
    requires i <= |s|
    ensures i <= r.0 <= |s| && (r.1 != 0 ==> r.0 == |s|)
    decreases |s| - i
  {
    if i == |s| || depth == 0 then (i, depth)
    else if Starts(s, i, '/', '*') then BlockEnd(s, i + 2, depth + 1)
    else if Starts(s, i, '*', '/') then BlockEnd(s, i + 2, depth - 1)
    else BlockEnd(s, i + 1, depth)
  }

  predicate IsSafetyComment(comment: string) {
    "// SAFETY:" <= comment
  }

  // ---------- tokens ----------

  function IdentifierEnd(s: string, i: nat): (r: nat)
    requires i <= |s|
    ensures i <= r <= |s| && !IsIdentifierPart(ByteAt(s, r))
    ensures forall k :: i <= k < r ==> IsIdentifierPart(s[k])
    decreases |s| - i
  {
    if i < |s| && IsIdentifierPart(s[i]) then IdentifierEnd(s, i + 1) else i
  }

  function DigitsEnd(s: string, i: nat): (r: nat)
    requires i <= |s|
    ensures i <= r <= |s| && !IsDigit(ByteAt(s, r))
    ensures forall k :: i <= k < r ==> IsDigit(s[k])
    decreases |s| - i
  {
    if i < |s| && IsDigit(s[i]) then DigitsEnd(s, i + 1) else i
  }

  /** A fraction takes a point and at least one digit. */
  function FractionEnd(s: string, i: nat): (r: nat)
    requires i <= |s|
    ensures i <= r <= |s|
  {
    if ByteAt(s, i) == '.' && IsDigit(ByteAt(s, i + 1)) then DigitsEnd(s, i + 1) else i
  }

  predicate IsSign(c: char) { c == '+' || c == '-' }

  /** An exponent takes `e`, perhaps a sign, and at least one digit. */
  function ExponentEnd(s: string, i: nat): (r: nat)
    requires i <= |s|
    ensures i <= r <= |s|
  {
    if ByteAt(s, i) != 'e' && ByteAt(s, i) != 'E' then i
    else if IsDigit(ByteAt(s, i + 1)) then DigitsEnd(s, i + 1)
    else if IsSign(ByteAt(s, i + 1)) && IsDigit(ByteAt(s, i + 2)) then DigitsEnd(s, i + 2)
    else i
  }

  /** Where the number whose first digit is before `i` ends, and whether it is floating. */
  function NumberEnd(s: string, i: nat): (r: (nat, bool))
    requires i <= |s|
    ensures i <= r.0 <= |s|
  {
    var whole := DigitsEnd(s, i);
    var fraction := FractionEnd(s, whole);
    var exponent := ExponentEnd(s, fraction);
    (exponent, exponent > whole)
  }

  function Keyword(text: string): TokenKind {
    if text == "package" then Package
    else if text == "import" then Import
    else if text == "as" then As
    else if text == "extern" then Extern
    else if text == "struct" then Struct
    else if text == "service" then Service
    else if text == "methods" then Methods
    else if text == "enum" then Enum
    else if text == "state_machine" then StateMachine
    else if text == "pipeline" then Pipeline
    else if text == "saga" then Saga
    else if text == "contract" then Contract
    else if text == "attribute" then Attribute
    else if text == "implements" then Implements
    else if text == "extends" then Extends
    else if text == "delegate" then Delegate
    else if text == "fn" then Fn
    else if text == "ctor" then Ctor
    else if text == "action" then Action
    else if text == "task" then Task
    else if text == "unsafe" then Unsafe
    else if text == "spawn" then Spawn
    else if text == "let" then Let
    else if text == "const" then Const
    else if text == "var" then Var
    else if text == "return" then Return
    else if text == "discard" then Discard
    else if text == "if" then If
    else if text == "else" then Else
    else if text == "while" then While
    else if text == "for" then For
    else if text == "in" then In
    else if text == "break" then Break
    else if text == "continue" then Continue
    else if text == "select" then Select
    else if text == "timeout" then Timeout
    else if text == "match" then Match
    else if text == "capture" then Capture
    else if text == "replace" then Replace
    else if text == "with" then With
    else if text == "new" then New
    else if text == "own" then Own
    else if text == "view" then View
    else if text == "edit" then Edit
    else if text == "true" then True
    else if text == "false" then False
    else Identifier
  }

  /** An operator or bracket: its kind and length; length 0 when no symbol starts here. */
  datatype Symbol = Symbol(kind: TokenKind, length: nat)

  function Twofold(s: string, i: nat, second: char, two: TokenKind, one: TokenKind): Symbol {
    if ByteAt(s, i + 1) == second then Symbol(two, 2) else Symbol(one, 1)
  }

  /** `<=` and `>=` are not taken right behind the same angle bracket. */
  function Angle(s: string, i: nat, two: TokenKind, one: TokenKind): Symbol
    requires i < |s|
  {
    if ByteAt(s, i + 1) == '=' && (i == 0 || s[i - 1] != s[i]) then Symbol(two, 2)
    else Symbol(one, 1)
  }

  function SymbolAt(s: string, i: nat): (r: Symbol)
    requires i < |s|
    ensures r.length <= 2 && i + r.length <= |s|
  {
    var c := s[i];
    if c == '(' then Symbol(LeftParen, 1)
    else if c == ')' then Symbol(RightParen, 1)
    else if c == '{' then Symbol(LeftBrace, 1)
    else if c == '}' then Symbol(RightBrace, 1)
    else if c == '[' then Symbol(LeftBracket, 1)
    else if c == ']' then Symbol(RightBracket, 1)
    else if c == ',' then Symbol(Comma, 1)
    else if c == ':' then Symbol(Colon, 1)
    else if c == '.' then Symbol(Dot, 1)
    else if c == '+' then Twofold(s, i, '=', PlusEqual, Plus)
    else if c == '*' then Twofold(s, i, '=', StarEqual, Star)
    else if c == '/' then Twofold(s, i, '=', SlashEqual, Slash)
    else if c == '%' then Twofold(s, i, '=', PercentEqual, Percent)
    else if c == '@' then Symbol(At, 1)
    else if c == '$' then Symbol(Dollar, 1)
    else if c == '-' then Twofold(s, i, '=', MinusEqual, Minus)
    else if c == '=' then Twofold(s, i, '=', EqualEqual, Equal)
    else if c == '!' then Twofold(s, i, '=', BangEqual, Bang)
    else if c == '<' then Angle(s, i, LessEqual, Less)
    else if c == '>' then Angle(s, i, GreaterEqual, Greater)
    else if c == '&' then Twofold(s, i, '&', AndAnd, Ampersand)
    else if c == '|' then Twofold(s, i, '|', OrOr, Pipe)
    else if c == '^' then Symbol(Caret, 1)
    else if c == '~' then Symbol(Tilde, 1)
    else Symbol(Eof, 0)
  }

  // ---------- string literals ----------

  function Escape(c: char): Option<char> {
    if c == 'n' then Some('\n')
    else if c == 'r' then Some('\r')
    else if c == 't' then Some('\t')
    else if c == '0' then Some(NUL())
    else if c == '"' then Some('"')
    else if c == '\\' then Some('\\')
    else None
  }

  /** The value of a string body, its diagnostics, and where the reading stops. */
  datatype Body = Body(value: string, errors: seq<Diagnostic>, stop: nat)

  /** Reads a string body: up to a quote, the end, or a backslash right before the end. */
  function ReadBody(s: string, i: nat): (r: Body)
    requires i <= |s|
    ensures i <= r.stop <= |s| && (r.stop < |s| ==> s[r.stop] == '"')
    decreases |s| - i
  {
    if i == |s| || s[i] == '"' then Body([], [], i)
    else if s[i] == NUL() then
      var rest := ReadBody(s, i + 1);
      Body(rest.value, [Diagnostic("FDN0004", SpanAt(s, i, i + 1))] + rest.errors, rest.stop)
    else if s[i] != '\\' then
      var rest := ReadBody(s, i + 1);
      Body([s[i]] + rest.value, rest.errors, rest.stop)
    else if i + 1 == |s| then Body([], [], i + 1)
    else
      var rest := ReadBody(s, i + 2);
      match Escape(s[i + 1])
      case Some(c) => Body([c] + rest.value, rest.errors, rest.stop)
      case None =>
        Body([s[i + 1]] + rest.value,
             [Diagnostic("FDN0003", SpanAt(s, i, i + 2))] + rest.errors, rest.stop)
  }

  // ---------- what a source lexes to ----------

  /** The next token with the diagnostics up to its end, which is `stop`. */
  datatype Scanned = Scanned(token: Token, errors: seq<Diagnostic>, stop: nat)

  ghost function StringAt(s: string, i: nat, safety: bool): (r: Scanned)
    requires i < |s|
    ensures i < r.stop <= |s|
  {
    var body := ReadBody(s, i + 1);
    var stop := if body.stop < |s| then body.stop + 1 else body.stop;
    var span := SpanAt(s, i, stop);
    Scanned(Token(String, body.value, span, safety),
            body.errors
            + (if body.stop < |s| then [] else [Diagnostic("FDN0002", span)])
            + (if IsUtf8(body.value) then [] else [Diagnostic("FDN0005", span)]),
            stop)
  }

  predicate StartsToken(s: string, i: nat)
    requires i < |s|
  {
    IsIdentifierStart(s[i]) || IsDigit(s[i]) || s[i] == '"' || SymbolAt(s, i).length > 0
  }

  /** The token that starts at a position. */
  ghost function TokenAt(s: string, i: nat, safety: bool): (r: Scanned)
    requires i < |s| && StartsToken(s, i)
    ensures i < r.stop <= |s|
  {
    if IsIdentifierStart(s[i]) then
      var stop := IdentifierEnd(s, i + 1);
      Scanned(Token(Keyword(s[i..stop]), s[i..stop], SpanAt(s, i, stop), safety), [], stop)
    else if IsDigit(s[i]) then
      var (stop, floating) := NumberEnd(s, i + 1);
      Scanned(Token(if floating then Floating else Integer, s[i..stop], SpanAt(s, i, stop), safety),
              [], stop)
    else if s[i] == '"' then StringAt(s, i, safety)
    else
      var symbol := SymbolAt(s, i);
      var stop := i + symbol.length;
      Scanned(Token(symbol.kind, s[i..stop], SpanAt(s, i, stop), safety), [], stop)
  }

  /** A stretch of ignored text and the diagnostics it raises. */
  datatype Ignored = Ignored(stop: nat, errors: seq<Diagnostic>, safety: Option<nat>)

  predicate StartsIgnored(s: string, i: nat)
    requires i < |s|
  {
    IsSpace(s[i]) || Starts(s, i, '/', '/') || Starts(s, i, '/', '*')
  }

  function IgnoredAt(s: string, i: nat, safety: Option<nat>): (r: Ignored)
    requires i < |s| && StartsIgnored(s, i)
    ensures i < r.stop <= |s|
  {
    if IsSpace(s[i]) then Ignored(i + 1, [], safety)
    else if Starts(s, i, '/', '/') then
      var stop := CommentLineEnd(s, i + 2);
      Ignored(stop, [], if IsSafetyComment(s[i..stop]) then Some(LineAt(s, i)) else safety)
    else
      var (stop, depth) := BlockEnd(s, i + 2, 1);
      Ignored(stop, if depth == 0 then [] else [Diagnostic("FDN0006", SpanAt(s, i, stop))],
              safety)
  }

  predicate IsLeading(s: string, i: nat, safety: Option<nat>)
    requires i <= |s|
  {
    safety.Some? && LineAt(s, i) == safety.value + 1
  }

  /** The next token from a position: ignored text is skipped, other bytes are reported. */
  ghost function NextAt(s: string, i: nat, safety: Option<nat>): (r: Scanned)
    requires i <= |s|
    ensures i <= r.stop <= |s| && (r.token.kind != Eof ==> i < r.stop)
    decreases |s| - i
  {
    if i == |s| then
      Scanned(Token(Eof, [], SpanAt(s, i, i), IsLeading(s, i, safety)), [], i)
    else if StartsIgnored(s, i) then
      var ignored := IgnoredAt(s, i, safety);
      var rest := NextAt(s, ignored.stop, ignored.safety);
      rest.(errors := ignored.errors + rest.errors)
    else if StartsToken(s, i) then TokenAt(s, i, IsLeading(s, i, safety))
    else
      var rest := NextAt(s, i + 1, None);
      rest.(errors := [Diagnostic("FDN0001", SpanAt(s, i, i + 1))] + rest.errors)
  }

  datatype Lexed = Lexed(tokens: seq<Token>, errors: seq<Diagnostic>)

  /** All tokens from a position, the end of file last. */
  ghost function Lex(s: string, i: nat): Lexed
    requires i <= |s|
    decreases |s| - i
  {
    var first := NextAt(s, i, None);
    if first.token.kind == Eof then Lexed([first.token], first.errors)
    else
      var rest := Lex(s, first.stop);
      Lexed([first.token] + rest.tokens, first.errors + rest.errors)
  }

  // ---------- the scanner ----------

  class Scanner {
    const source: string
    var offset: nat
    var line: nat
    var column: nat
    var safetyCommentLine: Option<nat>
    var errors: seq<Diagnostic>

    constructor (source: string)
      ensures this.source == source && offset == 0 && errors == [] && safetyCommentLine == None
      ensures Located()
    {
      this.source := source;
      offset, line, column, safetyCommentLine, errors := 0, 1, 1, None, [];
    }

    /** Line and column are those of the offset. */
    predicate Located()
      reads this
    {
      && offset <= |source|
      && line == LineAt(source, offset) && column == ColumnAt(source, offset)
    }

    predicate AtEnd()
      reads this
    {
      offset >= |source|
    }

    function Peek(distance: nat): char
      reads this
    {
      ByteAt(source, offset + distance)
    }

    method Advance() returns (value: char)
      requires Located() && offset < |source|
      modifies this`offset, this`line, this`column
      ensures Located() && offset == old(offset) + 1 && value == source[old(offset)]
    {
      value := source[offset];
      offset := offset + 1;
      if value == '\n' {
        line := line + 1;
        column := 1;
      } else {
        column := column + 1;
      }
    }

    function SpanFrom(start: nat, line: nat, column: nat): Span
      requires start <= offset
      reads this
    {
      Span(start, offset - start, line, column)
    }

    method SkipLineComment()
      requires Located() && !AtEnd() && Starts(source, offset, '/', '/')
      modifies this`offset, this`line, this`column, this`safetyCommentLine
      ensures Located()
      ensures var stop := CommentLineEnd(source, old(offset) + 2);
              offset == stop
              && safetyCommentLine == if IsSafetyComment(source[old(offset)..stop])
                                      then Some(LineAt(source, old(offset)))
                                      else old(safetyCommentLine)
    {
      hide LineAt, ColumnAt, CommentLineEnd;
      var commentStart, commentLine := offset, line;

      while !AtEnd() && Peek(0) != '\n'
        invariant Located() && commentStart <= offset
        invariant safetyCommentLine == old(safetyCommentLine)
        invariant forall k :: commentStart <= k < offset ==> source[k] != '\n'
        decreases |source| - offset
      {
        var skipped := Advance();
      }
      assert offset != commentStart && offset != commentStart + 1;
      LineEndIs(source, commentStart + 2, offset);
      if IsSafetyComment(source[commentStart..offset]) {
        safetyCommentLine := Some(commentLine);
      }
    }

    method SkipBlockComment()
      requires Located() && !AtEnd() && Starts(source, offset, '/', '*')
      modifies this`offset, this`line, this`column, this`errors
      ensures Located()
      ensures var (stop, depth) := BlockEnd(source, old(offset) + 2, 1);
              offset == stop
              && errors == old(errors)
                 + if depth == 0 then []
                   else [Diagnostic("FDN0006", SpanAt(source, old(offset), stop))]
    {
      hide LineAt, ColumnAt, BlockEnd;
      var start, startLine, startColumn := offset, line, column;
      var skipped := Advance();
      skipped := Advance();
      var depth := 1;
      while !AtEnd() && depth != 0
        invariant Located() && start < offset && errors == old(errors)
        invariant BlockEnd(source, start + 2, 1) == BlockEnd(source, offset, depth)
        decreases |source| - offset
      {
        BlockEndStep(source, offset, depth);
        if Peek(0) == '/' && Peek(1) == '*' {
          skipped := Advance();
          skipped := Advance();
          depth := depth + 1;
        } else if Peek(0) == '*' && Peek(1) == '/' {
          skipped := Advance();
          skipped := Advance();
          depth := depth - 1;
        } else {
          skipped := Advance();
        }
      }
      BlockEndStep(source, offset, depth);
      if depth != 0 {
        errors := errors + [Diagnostic("FDN0006", SpanFrom(start, startLine, startColumn))];
      }
    }

    /** Skips white space and comments. */
    method SkipIgnored()
      requires Located()
      modifies this
      ensures Located() && old(offset) <= offset
      ensures offset < |source| ==> !StartsIgnored(source, offset)
      ensures SameNext(source, old(offset), old(safetyCommentLine), old(errors),
                       offset, safetyCommentLine, errors)
    {
      hide LineAt, ColumnAt, BlockEnd, CommentLineEnd, SameNext;
      SameNextReflexive(source, offset, safetyCommentLine, errors);
      while !AtEnd()
        invariant Located() && old(offset) <= offset
        invariant SameNext(source, old(offset), old(safetyCommentLine), old(errors),
                           offset, safetyCommentLine, errors)
        decreases |source| - offset
      {
        ghost var at, safety, before := offset, safetyCommentLine, errors;
        if IsSpace(Peek(0)) {
          var skipped := Advance();
        } else if Peek(0) == '/' && Peek(1) == '/' {
          SkipLineComment();
        } else if Peek(0) == '/' && Peek(1) == '*' {
          SkipBlockComment();
        } else {
          return;
        }
        IgnoredStep(source, old(offset), old(safetyCommentLine), old(errors), at, safety, before);
        assert before + [] == before;
      }
    }

    method Identify() returns (token: Token)
      requires Located() && 0 < offset && IsIdentifierStart(source[offset - 1])
      modifies this`offset, this`line, this`column
      ensures Located()
      ensures var i := old(offset) - 1;
              var stop := IdentifierEnd(source, old(offset));
              offset == stop
              && token == Token(Keyword(source[i..stop]), source[i..stop],
                                SpanAt(source, i, stop), false)
    {
      hide Keyword, IdentifierEnd, LineAt, ColumnAt;
      var start, startColumn := offset - 1, column - 1;
      ghost var from, first := offset, line;
      StepRight(source, start);
      while IsIdentifierPart(Peek(0))
        invariant Located() && from <= offset && line == first
        invariant IdentifierEnd(source, from) == IdentifierEnd(source, offset)
        decreases |source| - offset
      {
        IdentifierEndStep(source, offset);
        StepRight(source, offset);
        var skipped := Advance();
      }
      IdentifierEndStep(source, offset);
      var text := source[start..offset];
      token := Token(Keyword(text), text, SpanFrom(start, line, startColumn), false);
    }

    method SkipDigits()
      requires Located()
      modifies this`offset, this`line, this`column
      ensures Located() && offset == DigitsEnd(source, old(offset)) && line == old(line)
    {
      hide DigitsEnd;
      while IsDigit(Peek(0))
        invariant Located() && old(offset) <= offset && line == old(line)
        invariant DigitsEnd(source, old(offset)) == DigitsEnd(source, offset)
        decreases |source| - offset
      {
        DigitsEndStep(source, offset);
        StepRight(source, offset);
        var skipped := Advance();
      }
      DigitsEndStep(source, offset);
    }

    method SkipFraction() returns (floating: bool)
      requires Located()
      modifies this`offset, this`line, this`column
      ensures Located() && offset == FractionEnd(source, old(offset)) && line == old(line)
      ensures floating <==> offset > old(offset)
    {
      hide DigitsEnd, LineAt, ColumnAt;
      floating := false;
      if Peek(0) == '.' && IsDigit(Peek(1)) {
        floating := true;
        StepRight(source, offset);
        var skipped := Advance();
        SkipDigits();
      }
    }

    method SkipExponent() returns (floating: bool)
      requires Located()
      modifies this`offset, this`line, this`column
      ensures Located() && offset == ExponentEnd(source, old(offset)) && line == old(line)
      ensures floating <==> offset > old(offset)
    {
      hide DigitsEnd, LineAt, ColumnAt;
      floating := false;
      if (Peek(0) == 'e' || Peek(0) == 'E')
         && (IsDigit(Peek(1)) || ((Peek(1) == '+' || Peek(1) == '-') && IsDigit(Peek(2)))) {
        floating := true;
        StepRight(source, offset);
        var skipped := Advance();
        if Peek(0) == '+' || Peek(0) == '-' {
          StepRight(source, offset);
          skipped := Advance();
        }
        SkipDigits();
      }
    }

    method Number() returns (token: Token)
      requires Located() && 0 < offset && IsDigit(source[offset - 1])
      modifies this`offset, this`line, this`column
      ensures Located()
      ensures var i := old(offset) - 1;
              var (stop, floating) := NumberEnd(source, old(offset));
              offset == stop
              && token == Token(if floating then Floating else Integer, source[i..stop],
                                SpanAt(source, i, stop), false)
    {
      hide DigitsEnd, FractionEnd, ExponentEnd, LineAt, ColumnAt;
      var start, startColumn := offset - 1, column - 1;
      StepRight(source, start);
      SkipDigits();
      var fraction := SkipFraction();
      var exponent := SkipExponent();
      token := Token(if fraction || exponent then Floating else Integer, source[start..offset],
                     SpanFrom(start, line, startColumn), false);
    }

    /** One round of the body loop: a byte or an escape. `more` is false at a last backslash. */
    method ReadPiece() returns (value: string, more: bool)
      requires Located() && !AtEnd() && source[offset] != '"'
      modifies this`offset, this`line, this`column, this`errors
      ensures Located() && old(offset) < offset && old(errors) <= errors
      ensures ReadBody(source, old(offset))
              == Prepend(value, errors[|old(errors)|..],
                         if more then ReadBody(source, offset) else Body([], [], offset))
      ensures !more ==> AtEnd()
    {
      hide ReadBody, LineAt, ColumnAt, Escape;
      value, more := [], true;
      ReadBodyStep(source, offset);
      StepRight(source, offset);
      var current := Advance();
      if current == NUL() {
        errors := errors + [Diagnostic("FDN0004", Span(offset - 1, 1, line, column - 1))];
        return;
      }
      if current != '\\' {
        value := [current];
        return;
      }
      if AtEnd() {
        more := false;
        return;
      }
      var escapeStart, escapeLine, escapeColumn := offset - 1, line, column - 1;
      var escaped := Advance();
      var meant := Escape(escaped);
      if meant.Some? {
        value := [meant.value];
      } else {
        errors := errors + [Diagnostic("FDN0003", Span(escapeStart, 2, escapeLine, escapeColumn))];
        value := [escaped];
      }
    }

    /** Reads the body of a string literal; its diagnostics go behind the earlier ones. */
    method ReadString() returns (value: string)
      requires Located()
      modifies this`offset, this`line, this`column, this`errors
      ensures Located() && old(offset) <= offset
      ensures var body := ReadBody(source, old(offset));
              value == body.value && errors == old(errors) + body.errors && offset == body.stop
    {
      hide ReadBody, LineAt, ColumnAt;
      value := [];
      var more := true;
      ghost var found: seq<Diagnostic> := [];
      while more && !AtEnd() && Peek(0) != '"'
        invariant Located() && old(offset) <= offset && errors == old(errors) + found
        invariant !more ==> AtEnd()
        invariant ReadBody(source, old(offset))
                  == Prepend(value, found, if more then ReadBody(source, offset)
                                           else Body([], [], offset))
        decreases |source| - offset, more
      {
        ghost var read, before := value, errors;
        var piece;
        piece, more := ReadPiece();
        ghost var raised := errors[|before|..];
        PrependTwice(read, found, piece, raised,
                     if more then ReadBody(source, offset) else Body([], [], offset));
        assert errors == before + raised;
        assert before + raised == old(errors) + (found + raised);
        value := value + piece;
        found := found + raised;
      }
      ReadBodyStep(source, offset);
    }

    /** The string token whose opening quote is before the offset. */
    method StringToken() returns (token: Token)
      requires Located() && 0 < offset && source[offset - 1] == '"'
      modifies this`offset, this`line, this`column, this`errors
      ensures Located()
      ensures var scanned := StringAt(source, old(offset) - 1, false);
              token == scanned.token && offset == scanned.stop
              && errors == old(errors) + scanned.errors
    {
      hide ReadBody, LineAt, ColumnAt, IsUtf8;
      var start, startLine, startColumn := offset - 1, line, column - 1;
      StepRight(source, start);
      var value := ReadString();
      if AtEnd() {
        errors := errors + [Diagnostic("FDN0002", SpanFrom(start, startLine, startColumn))];
      } else {
        var quote := Advance();
      }
      var valid := IsValidUtf8(value);
      if !valid {
        errors := errors + [Diagnostic("FDN0005", SpanFrom(start, startLine, startColumn))];
      }
      token := Token(String, value, SpanFrom(start, startLine, startColumn), false);
    }

    /** The token at the offset. */
    method TokenHere() returns (token: Token)
      requires Located() && !AtEnd() && StartsToken(source, offset)
      modifies this`offset, this`line, this`column, this`errors
      ensures Located()
      ensures var scanned := TokenAt(source, old(offset), false);
              token == scanned.token && offset == scanned.stop
              && errors == old(errors) + scanned.errors
    {
      hide LineAt, ColumnAt, IdentifierEnd, NumberEnd, StringAt, Keyword, SymbolAt;
      var start, startLine, startColumn := offset, line, column;
      var value := Advance();
      if IsIdentifierStart(value) {
        token := Identify();
      } else if IsDigit(value) {
        token := Number();
      } else if value == '"' {
        token := StringToken();
      } else {
        var symbol := SymbolAt(source, start);
        while offset < start + symbol.length
          invariant start < offset <= start + symbol.length && Located() && errors == old(errors)
        {
          var more := Advance();
        }
        token := Token(symbol.kind, source[start..offset],
                       SpanFrom(start, startLine, startColumn), false);
      }
    }

    /** The next token. */
    method Next() returns (token: Token)
      requires Located()
      modifies this
      ensures Located() && safetyCommentLine == None
      ensures var scanned := NextAt(source, old(offset), old(safetyCommentLine));
              token == scanned.token && offset == scanned.stop
              && errors == old(errors) + scanned.errors
    {
      hide LineAt, ColumnAt, TokenAt, NextAt, StartsToken, StartsIgnored;
      SameNextReflexive(source, offset, safetyCommentLine, errors);
      while true
        invariant Located() && old(offset) <= offset
        invariant SameNext(source, old(offset), old(safetyCommentLine), old(errors),
                           offset, safetyCommentLine, errors)
        decreases |source| - offset
      {
        ghost var at, safety, before := offset, safetyCommentLine, errors;
        SkipIgnored();
        ghost var here, noted, raised := offset, safetyCommentLine, errors;
        SameNextTransitive(source, old(offset), old(safetyCommentLine), old(errors),
                           at, safety, before, here, noted, raised);
        NextStep(source, here, noted);
        var leading := safetyCommentLine.Some? && line == safetyCommentLine.value + 1;
        safetyCommentLine := None;
        if AtEnd() {
          token := Token(Eof, [], Span(offset, 0, line, column), leading);
          return;
        }
        if StartsToken(source, offset) {
          LeadingToken(source, offset, leading);
          token := TokenHere();
          token := token.(leadingSafetyProof := leading);
          return;
        }
        var start, startLine, startColumn := offset, line, column;
        var value := Advance();
        errors := errors + [Diagnostic("FDN0001", SpanFrom(start, startLine, startColumn))];
        RejectedStep(source, old(offset), old(safetyCommentLine), old(errors), here, noted,
                     raised);
      }
    }

    /** All tokens of the source, the end of file last. */
    method Scan() returns (tokens: seq<Token>)
      requires Located() && offset == 0 && safetyCommentLine == None && errors == []
      modifies this
      ensures Lexed(tokens, errors) == Lex(source, 0)
    {
      hide LineAt, ColumnAt, NextAt, Lex;
      tokens := [];
      while true
        invariant Located() && safetyCommentLine == None
        invariant Lex(source, 0) == After(tokens, errors, Lex(source, offset))
        decreases |source| - offset
      {
        LexStep(source, offset);
        ghost var before, at, raised := tokens, offset, errors;
        var token := Next();
        tokens := tokens + [token];
        ghost var scanned := NextAt(source, at, None);
        if token.kind == Eof {
          return;
        }
        AfterTwice(before, raised, token, scanned.errors, Lex(source, offset));
      }
    }
  }

  /** Tokens and diagnostics that come before those of the rest of a source. */
  function After(tokens: seq<Token>, errors: seq<Diagnostic>, rest: Lexed): Lexed {
    Lexed(tokens + rest.tokens, errors + rest.errors)
  }

  lemma AfterTwice(tokens: seq<Token>, errors: seq<Diagnostic>, token: Token,
                   more: seq<Diagnostic>, rest: Lexed)
    ensures After(tokens, errors, After([token], more, rest))
            == After(tokens + [token], errors + more, rest)
  {
    assert tokens + ([token] + rest.tokens) == (tokens + [token]) + rest.tokens;
    assert errors + (more + rest.errors) == (errors + more) + rest.errors;
  }

  lemma LexStep(s: string, i: nat)
    requires i <= |s|
    ensures var first := NextAt(s, i, None);
            Lex(s, i) == if first.token.kind == Eof then Lexed([first.token], first.errors)
                         else After([first.token], first.errors, Lex(s, first.stop))
  {
    hide NextAt;
  }

  lemma NextStep(s: string, i: nat, safety: Option<nat>)
    requires i <= |s| && (i < |s| ==> !StartsIgnored(s, i))
    ensures NextAt(s, i, safety)
            == if i == |s| then
                 Scanned(Token(Eof, [], SpanAt(s, i, i), IsLeading(s, i, safety)), [], i)
               else if StartsToken(s, i) then TokenAt(s, i, IsLeading(s, i, safety))
               else
                 var rest := NextAt(s, i + 1, None);
                 rest.(errors := [Diagnostic("FDN0001", SpanAt(s, i, i + 1))] + rest.errors)
  {
    hide TokenAt, StartsToken, StartsIgnored;
  }

  lemma LeadingToken(s: string, i: nat, leading: bool)
    requires i < |s| && StartsToken(s, i)
    ensures var plain := TokenAt(s, i, false);
            TokenAt(s, i, leading)
            == plain.(token := plain.token.(leadingSafetyProof := leading))
  {
    hide IdentifierEnd, NumberEnd, ReadBody, Keyword, SymbolAt, IsUtf8;
  }

  lemma SameNextTransitive(s: string, i: nat, safetyI: Option<nat>, errorsI: seq<Diagnostic>,
                           j: nat, safetyJ: Option<nat>, errorsJ: seq<Diagnostic>,
                           k: nat, safetyK: Option<nat>, errorsK: seq<Diagnostic>)
    requires i <= |s| && j <= |s| && k <= |s|
    requires SameNext(s, i, safetyI, errorsI, j, safetyJ, errorsJ)
    requires SameNext(s, j, safetyJ, errorsJ, k, safetyK, errorsK)
    ensures SameNext(s, i, safetyI, errorsI, k, safetyK, errorsK)
  {
    hide NextAt;
  }

  lemma RejectedStep(s: string, i: nat, safetyI: Option<nat>, errorsI: seq<Diagnostic>,
                     j: nat, safetyJ: Option<nat>, errorsJ: seq<Diagnostic>)
    requires i <= |s| && j < |s| && !StartsIgnored(s, j) && !StartsToken(s, j)
    requires SameNext(s, i, safetyI, errorsI, j, safetyJ, errorsJ)
    ensures SameNext(s, i, safetyI, errorsI, j + 1, None,
                     errorsJ + [Diagnostic("FDN0001", SpanAt(s, j, j + 1))])
  {
    NextStep(s, j, safetyJ);
  }

  /** What was read before the rest of a body. */
  function Prepend(value: string, errors: seq<Diagnostic>, rest: Body): Body {
    Body(value + rest.value, errors + rest.errors, rest.stop)
  }

  lemma PrependTwice(value: string, errors: seq<Diagnostic>, more: string,
                     moreErrors: seq<Diagnostic>, rest: Body)
    ensures Prepend(value, errors, Prepend(more, moreErrors, rest))
            == Prepend(value + more, errors + moreErrors, rest)
    ensures value + [] == value && errors + [] == errors
  {
    assert value + (more + rest.value) == (value + more) + rest.value;
    assert errors + (moreErrors + rest.errors) == (errors + moreErrors) + rest.errors;
  }

  lemma ReadBodyStep(s: string, i: nat)
    requires i <= |s|
    ensures ReadBody(s, i)
            == if i == |s| || s[i] == '"' then Body([], [], i)
               else if s[i] == NUL() then
                 Prepend([], [Diagnostic("FDN0004", SpanAt(s, i, i + 1))], ReadBody(s, i + 1))
               else if s[i] != '\\' then Prepend([s[i]], [], ReadBody(s, i + 1))
               else if i + 1 == |s| then Body([], [], i + 1)
               else if Escape(s[i + 1]).Some? then
                 Prepend([Escape(s[i + 1]).value], [], ReadBody(s, i + 2))
               else
                 Prepend([s[i + 1]], [Diagnostic("FDN0003", SpanAt(s, i, i + 2))],
                         ReadBody(s, i + 2))
  {
  }

  /** Next to a byte that is no newline, the line stays and the column grows. */
  lemma StepRight(s: string, i: nat)
    requires i < |s|
    ensures s[i] != '\n' ==>
              LineAt(s, i + 1) == LineAt(s, i) && ColumnAt(s, i + 1) == ColumnAt(s, i) + 1
    ensures s[i] == '\n' ==> LineAt(s, i + 1) == LineAt(s, i) + 1 && ColumnAt(s, i + 1) == 1
  {
  }

  lemma IdentifierEndStep(s: string, i: nat)
    requires i <= |s|
    ensures IdentifierEnd(s, i)
            == if i < |s| && IsIdentifierPart(s[i]) then IdentifierEnd(s, i + 1) else i
  {
  }

  lemma DigitsEndStep(s: string, i: nat)
    requires i <= |s|
    ensures DigitsEnd(s, i) == if i < |s| && IsDigit(s[i]) then DigitsEnd(s, i + 1) else i
  {
  }

  /** Scanning on from `i` with the diagnostics so far gives what scanning on from `j` gives. */
  ghost predicate SameNext(s: string, i: nat, safetyI: Option<nat>, errorsI: seq<Diagnostic>,
                           j: nat, safetyJ: Option<nat>, errorsJ: seq<Diagnostic>)
    requires i <= |s| && j <= |s|
  {
    var a, b := NextAt(s, i, safetyI), NextAt(s, j, safetyJ);
    a.token == b.token && a.stop == b.stop && errorsI + a.errors == errorsJ + b.errors
  }

  lemma SameNextReflexive(s: string, i: nat, safety: Option<nat>, errors: seq<Diagnostic>)
    requires i <= |s|
    ensures SameNext(s, i, safety, errors, i, safety, errors)
  {
  }

  lemma IgnoredStep(s: string, i: nat, safetyI: Option<nat>, errorsI: seq<Diagnostic>,
                    j: nat, safetyJ: Option<nat>, errorsJ: seq<Diagnostic>)
    requires i <= |s| && j < |s| && StartsIgnored(s, j)
    requires SameNext(s, i, safetyI, errorsI, j, safetyJ, errorsJ)
    ensures var ignored := IgnoredAt(s, j, safetyJ);
            SameNext(s, i, safetyI, errorsI, ignored.stop, ignored.safety,
                     errorsJ + ignored.errors)
  {
    hide StartsIgnored, IgnoredAt;
  }

  lemma BlockEndStep(s: string, i: nat, depth: nat)
    requires i <= |s|
    ensures BlockEnd(s, i, depth)
            == if i == |s| || depth == 0 then (i, depth)
               else if Starts(s, i, '/', '*') then BlockEnd(s, i + 2, depth + 1)
               else if Starts(s, i, '*', '/') then BlockEnd(s, i + 2, depth - 1)
               else BlockEnd(s, i + 1, depth)
  {
  }

  lemma {:induction false} LineEndIs(s: string, i: nat, r: nat)
    requires i <= r <= |s| && (r < |s| ==> s[r] == '\n')
    requires forall k :: i <= k < r ==> s[k] != '\n'
    ensures CommentLineEnd(s, i) == r
    decreases r - i
  {
    if i < r {
      LineEndIs(s, i + 1, r);
    }
  }

  // ---------- tiling ----------

  predicate IsLineComment(s: string, i: nat, k: nat)
    requires i < k <= |s|
  {
    && i + 2 <= k && s[i] == '/' && s[i + 1] == '/'
    && (forall m :: i <= m < k ==> s[m] != '\n') && (k < |s| ==> s[k] == '\n')
  }

  /** Nested openings and closings cancel out first at `k`, or not at all before the end. */
  predicate IsBlockComment(s: string, i: nat, k: nat)
    requires i < k <= |s|
  {
    Starts(s, i, '/', '*') && i + 2 <= k && BlockEnd(s, i + 2, 1).0 == k
  }

  predicate IsRejected(s: string, i: nat)
    requires i < |s|
  {
    !StartsIgnored(s, i) && !StartsToken(s, i)
  }

  /** A white space byte, a comment, or a byte that starts nothing. */
  predicate IsSkipped(s: string, i: nat, k: nat)
    requires i < k <= |s|
  {
    || (k == i + 1 && IsSpace(s[i])) || IsLineComment(s, i, k) || IsBlockComment(s, i, k)
    || (k == i + 1 && IsRejected(s, i))
  }

  /** Text between tokens: nothing but skipped pieces. */
  ghost predicate IsGap(s: string, i: nat, j: nat)
    requires i <= j <= |s|
    decreases j - i
  {
    i == j || exists k :: i < k <= j && IsSkipped(s, i, k) && IsGap(s, k, j)
  }

  lemma GapCons(s: string, i: nat, k: nat, j: nat)
    requires i < k <= j <= |s| && IsSkipped(s, i, k) && IsGap(s, k, j)
    ensures IsGap(s, i, j)
  {
  }

  lemma NoGap(s: string, i: nat)
    requires i <= |s|
    ensures IsGap(s, i, i)
  {
  }

  lemma IgnoredIsSkipped(s: string, i: nat, safety: Option<nat>)
    requires i < |s| && StartsIgnored(s, i)
    ensures IsSkipped(s, i, IgnoredAt(s, i, safety).stop)
  {
    hide LineAt, ColumnAt, IsSafetyComment;
  }

  /** The token is where its span says, and its text is what stands there. */
  predicate IsPlaced(s: string, t: Token) {
    && t.span.offset + t.span.length <= |s|
    && t.span.line == LineAt(s, t.span.offset) && t.span.column == ColumnAt(s, t.span.offset)
    && (t.kind == Eof ==> t.span.offset == |s| && t.span.length == 0)
    && (t.kind != Eof ==> t.span.length > 0)
    && (t.kind != String ==> t.text == s[t.span.offset..t.span.offset + t.span.length])
    && (t.kind == String ==>
          s[t.span.offset] == '"' && t.text == ReadBody(s, t.span.offset + 1).value)
  }

  lemma TokenIsPlaced(s: string, i: nat, safety: bool)
    requires i < |s| && StartsToken(s, i)
    ensures var scanned := TokenAt(s, i, safety);
            && IsPlaced(s, scanned.token) && scanned.token.kind != Eof
            && scanned.token.span.offset == i
            && i + scanned.token.span.length == scanned.stop
  {
    hide IsPlaced, SpanAt, IdentifierEnd, NumberEnd, Keyword, SymbolAt, StringAt;
    if IsIdentifierStart(s[i]) {
      var stop := IdentifierEnd(s, i + 1);
      KeywordIsNoString(s[i..stop]);
      SliceIsPlaced(s, i, stop, Keyword(s[i..stop]), safety);
    } else if IsDigit(s[i]) {
      var (stop, floating) := NumberEnd(s, i + 1);
      SliceIsPlaced(s, i, stop, if floating then Floating else Integer, safety);
    } else if s[i] == '"' {
      StringIsPlaced(s, i, safety);
    } else {
      var symbol := SymbolAt(s, i);
      SymbolIsNoString(s, i);
      SliceIsPlaced(s, i, i + symbol.length, symbol.kind, safety);
    }
  }

  lemma SliceIsPlaced(s: string, i: nat, stop: nat, kind: TokenKind, safety: bool)
    requires i < stop <= |s| && kind != String && kind != Eof
    ensures IsPlaced(s, Token(kind, s[i..stop], SpanAt(s, i, stop), safety))
    ensures SpanAt(s, i, stop).offset == i && i + SpanAt(s, i, stop).length == stop
  {
    hide LineAt, ColumnAt;
  }

  lemma StringIsPlaced(s: string, i: nat, safety: bool)
    requires i < |s| && s[i] == '"'
    ensures var scanned := StringAt(s, i, safety);
            && IsPlaced(s, scanned.token) && scanned.token.kind != Eof
            && scanned.token.span.offset == i
            && i + scanned.token.span.length == scanned.stop
  {
    hide LineAt, ColumnAt, ReadBody, IsUtf8;
  }

  lemma SymbolIsNoString(s: string, i: nat)
    requires i < |s| && SymbolAt(s, i).length > 0
    ensures SymbolAt(s, i).kind != String && SymbolAt(s, i).kind != Eof
  {
  }

  lemma KeywordIsNoString(text: string)
    ensures Keyword(text) != String && Keyword(text) != Eof
  {
  }

  lemma EndIsPlaced(s: string, safety: Option<nat>)
    ensures IsPlaced(s, NextAt(s, |s|, safety).token)
  {
  }

  /** The next token stands behind a gap. */
  lemma {:induction false} NextIsBehindGap(s: string, i: nat, safety: Option<nat>)
    requires i <= |s|
    ensures var scanned := NextAt(s, i, safety);
            && IsPlaced(s, scanned.token)
            && i <= scanned.token.span.offset && IsGap(s, i, scanned.token.span.offset)
            && scanned.token.span.offset + scanned.token.span.length == scanned.stop
            && (scanned.token.kind == Eof <==> scanned.token.span.offset == |s|)
    decreases |s| - i
  {
    hide StartsToken, StartsIgnored, IgnoredAt, TokenAt, IsSkipped, IsPlaced, IsGap;
    if i == |s| {
      EndIsPlaced(s, safety);
      NoGap(s, i);
    } else if StartsIgnored(s, i) {
      var ignored := IgnoredAt(s, i, safety);
      IgnoredIsSkipped(s, i, safety);
      NextIsBehindGap(s, ignored.stop, ignored.safety);
      GapCons(s, i, ignored.stop, NextAt(s, ignored.stop, ignored.safety).token.span.offset);
    } else if StartsToken(s, i) {
      TokenIsPlaced(s, i, IsLeading(s, i, safety));
      NoGap(s, i);
    } else {
      NextIsBehindGap(s, i + 1, None);
      RejectedIsSkipped(s, i);
      GapCons(s, i, i + 1, NextAt(s, i + 1, None).token.span.offset);
    }
  }

  lemma RejectedIsSkipped(s: string, i: nat)
    requires i < |s| && !StartsIgnored(s, i) && !StartsToken(s, i)
    ensures IsSkipped(s, i, i + 1)
  {
    hide StartsIgnored, StartsToken;
  }

  /** Gaps and tokens in turn, from `i` to the end of the source. */
  ghost predicate Tiles(s: string, i: nat, tokens: seq<Token>)
    requires i <= |s|
    decreases |tokens|
  {
    && tokens != []
    && var t := tokens[0];
       && IsPlaced(s, t) && i <= t.span.offset && IsGap(s, i, t.span.offset)
       && (if t.kind == Eof then |tokens| == 1
           else Tiles(s, t.span.offset + t.span.length, tokens[1..]))
  }

  /** Every source is tiled by its tokens and the text the lexer skips. */
  lemma {:induction false} LexTiles(s: string, i: nat)
    requires i <= |s|
    ensures Tiles(s, i, Lex(s, i).tokens)
    decreases |s| - i
  {
    hide NextAt, IsPlaced, IsGap;
    var first := NextAt(s, i, None);
    NextIsBehindGap(s, i, None);
    TokenLength(s, first.token);
    if first.token.kind != Eof {
      LexTiles(s, first.stop);
      assert ([first.token] + Lex(s, first.stop).tokens)[1..] == Lex(s, first.stop).tokens;
    }
  }

  lemma TokenLength(s: string, t: Token)
    requires IsPlaced(s, t)
    ensures t.span.offset + t.span.length <= |s| && (t.kind != Eof ==> t.span.length > 0)
  {
  }

  /** In a tiling, spans increase and do not overlap, and only the last token is the end. */
  lemma {:induction false} TilesIncrease(s: string, i: nat, tokens: seq<Token>, a: nat, b: nat)
    requires i <= |s| && Tiles(s, i, tokens) && a < b < |tokens|
    ensures tokens[a].kind != Eof && tokens[a].span.length > 0
    ensures tokens[a].span.offset + tokens[a].span.length <= tokens[b].span.offset
    decreases |tokens|
  {
    hide IsGap, LineAt, ColumnAt;
    var t := tokens[0];
    var rest := tokens[1..];
    if a > 0 {
      TilesIncrease(s, t.span.offset + t.span.length, rest, a - 1, b - 1);
    } else if b > 1 {
      TilesIncrease(s, t.span.offset + t.span.length, rest, 0, b - 1);
    }
  }

  /** A line comment that is a safety comment, on the line right above a position. */
  ghost predicate SafetyAbove(s: string, i: nat, j: nat)
    requires i <= j <= |s|
  {
    exists k :: i <= k < j && Starts(s, k, '/', '/') && k + 2 <= |s|
                && IsSafetyComment(s[k..CommentLineEnd(s, k + 2)])
                && LineAt(s, j) == LineAt(s, k) + 1
  }

  lemma SafetyAboveFromLater(s: string, i: nat, m: nat, j: nat)
    requires i <= m <= j <= |s| && SafetyAbove(s, m, j)
    ensures SafetyAbove(s, i, j)
  {
    hide LineAt, CommentLineEnd, IsSafetyComment;
  }

  /** What a comment notes is its own line, if it is a safety comment. */
  lemma NotedLine(s: string, i: nat, safety: Option<nat>, j: nat)
    requires i < |s| && StartsIgnored(s, i)
    requires var ignored := IgnoredAt(s, i, safety);
             ignored.stop <= j <= |s| && ignored.safety.Some? && ignored.safety != safety
             && LineAt(s, j) == ignored.safety.value + 1
    ensures SafetyAbove(s, i, j)
  {
    hide LineAt, CommentLineEnd, IsSafetyComment;
  }

  lemma NextSkips(s: string, i: nat, safety: Option<nat>)
    requires i < |s|
    ensures StartsIgnored(s, i) ==>
              var ignored := IgnoredAt(s, i, safety);
              NextAt(s, i, safety).token == NextAt(s, ignored.stop, ignored.safety).token
    ensures !StartsIgnored(s, i) && !StartsToken(s, i) ==>
              NextAt(s, i, safety).token == NextAt(s, i + 1, None).token
  {
    hide StartsIgnored, StartsToken, IgnoredAt, TokenAt;
  }

  /** A token carries a safety proof only if a safety comment is above it in its own gap. */
  lemma {:induction false} SafetyProofIsAbove(s: string, i: nat, safety: Option<nat>)
    requires i <= |s| && NextAt(s, i, safety).token.leadingSafetyProof
    ensures var t := NextAt(s, i, safety).token;
            && i <= t.span.offset <= |s|
            && ((safety.Some? && LineAt(s, t.span.offset) == safety.value + 1)
                || SafetyAbove(s, i, t.span.offset))
    decreases |s| - i
  {
    hide LineAt, ColumnAt, StartsToken, StartsIgnored, IgnoredAt, SafetyAbove, NextAt, TokenAt;
    NextIsBehindGap(s, i, safety);
    var t := NextAt(s, i, safety).token;
    TokenLength(s, t);
    if i == |s| || (!StartsIgnored(s, i) && StartsToken(s, i)) {
      NextStep(s, i, safety);
      if i < |s| {
        TokenIsPlaced(s, i, IsLeading(s, i, safety));
        LeadingToken(s, i, IsLeading(s, i, safety));
      }
    } else if StartsIgnored(s, i) {
      var ignored := IgnoredAt(s, i, safety);
      NextSkips(s, i, safety);
      SafetyProofIsAbove(s, ignored.stop, ignored.safety);
      if SafetyAbove(s, ignored.stop, t.span.offset) {
        SafetyAboveFromLater(s, i, ignored.stop, t.span.offset);
      } else if ignored.safety != safety {
        NotedLine(s, i, safety, t.span.offset);
      }
    } else {
      NextSkips(s, i, safety);
      SafetyProofIsAbove(s, i + 1, None);
      SafetyAboveFromLater(s, i, i + 1, t.span.offset);
    }
  }
}
