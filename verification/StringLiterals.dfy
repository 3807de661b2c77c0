/**
  Printing a string into generated source and lexing it back
  (compiler/src/application.cpp:1067-1087, compiler/src/lexer.cpp:613-675).
 */
module StringLiterals {
  import opened Lexer
  import opened Utf8
  import opened Wrappers

  const HEX := "0123456789abcdef"

  function EscapeByte(c: char): string {
    if c == '"' || c == '\\' then ['\\', c]
    else if c == '\n' then ['\\', 'n']
    else if c == '\r' then ['\\', 'r']
    else if c == '\t' then ['\\', 't']
    else if Code(c) < 0x20 then
      ['\\', 'u', '0', '0', HEX[Code(c) / 16], HEX[Code(c) % 16]]
    else [c]
  }

  function EscapeAll(value: string): string {
    if value == [] then [] else EscapeByte(value[0]) + EscapeAll(value[1..])
  }

  function Quote(value: string): string {
    "\"" + EscapeAll(value) + "\""
  }

  lemma {:induction false} EscapeAllAppend(value: string, c: char)
    ensures EscapeAll(value + [c]) == EscapeAll(value) + EscapeByte(c)
    decreases |value|
  {
    if value == [] {
      assert value + [c] == [c];
    } else {
      assert (value + [c])[1..] == value[1..] + [c];
      EscapeAllAppend(value[1..], c);
    }
  }

  method EmitString(value: string) returns (out: string)
    ensures out == Quote(value)
  {
    hide EscapeAll, EscapeByte;
    out := "\"";
    var i := 0;
    NothingToEscape();
    while i < |value|
      invariant 0 <= i <= |value|
      invariant out == "\"" + EscapeAll(value[..i])
    {
      assert value[..i + 1] == value[..i] + [value[i]];
      EscapeAllAppend(value[..i], value[i]);
      out := out + EscapeByte(value[i]);
      i := i + 1;
    }
    assert value[..i] == value;
    out := out + "\"";
  }

  lemma NothingToEscape()
    ensures EscapeAll([]) == []
  {
  }

  /** The control bytes that the lexer has an escape for. */
  predicate IsPrintable(c: char) {
    Code(c) >= 0x20 || c == '\n' || c == '\r' || c == '\t'
  }

  predicate AllPrintable(value: string) {
    forall c | c in value :: IsPrintable(c)
  }

  /** Reading one escaped byte: the byte itself, or a diagnostic for any other control byte. */
  lemma ReadEscapedByte(s: string, i: nat, c: char)
    requires i + |EscapeByte(c)| <= |s| && s[i..i + |EscapeByte(c)|] == EscapeByte(c)
    ensures var rest := ReadBody(s, i + |EscapeByte(c)|);
            var body := ReadBody(s, i);
            && body.stop == rest.stop
            && (IsPrintable(c) ==> body.value == [c] + rest.value && body.errors == rest.errors)
            && (!IsPrintable(c) ==> body.errors != [])
  {
    hide ReadBody, LineAt, ColumnAt;
    if IsPrintable(c) {
      assert s[i] == s[i..i + |EscapeByte(c)|][0];
      assert |EscapeByte(c)| > 1 ==> s[i + 1] == s[i..i + |EscapeByte(c)|][1];
      ReadBodyStep(s, i);
    } else {
      ReadControlByte(s, i, c);
    }
  }

  lemma ReadControlByte(s: string, i: nat, c: char)
    requires !IsPrintable(c) && i + 6 <= |s| && s[i..i + 6] == EscapeByte(c)
    ensures ReadBody(s, i).stop == ReadBody(s, i + 6).stop && ReadBody(s, i).errors != []
  {
    hide ReadBody, LineAt, ColumnAt;
    var high, low := HEX[Code(c) / 16], HEX[Code(c) % 16];
    var piece := s[i..i + 6];
    assert piece == ['\\', 'u', '0', '0', high, low];
    assert s[i] == piece[0] && s[i + 1] == piece[1] && s[i + 2] == piece[2];
    assert s[i + 3] == piece[3] && s[i + 4] == piece[4] && s[i + 5] == piece[5];
    HexIsPlain(Code(c) / 16);
    HexIsPlain(Code(c) % 16);
    ReadBodyStep(s, i);
    ReadBodyStep(s, i + 2);
    ReadBodyStep(s, i + 3);
    ReadBodyStep(s, i + 4);
    ReadBodyStep(s, i + 5);
  }

  lemma HexIsPlain(d: nat)
    requires d < 16
    ensures HEX[d] != '"' && HEX[d] != '\\' && HEX[d] != NUL()
  {
  }

  lemma {:induction false} ReadEscaped(s: string, i: nat, value: string)
    requires i + |EscapeAll(value)| < |s|
    requires s[i..i + |EscapeAll(value)|] == EscapeAll(value) && s[i + |EscapeAll(value)|] == '"'
    ensures var body := ReadBody(s, i);
            && body.stop == i + |EscapeAll(value)|
            && (body.errors == [] <==> AllPrintable(value))
            && (AllPrintable(value) ==> body.value == value)
    decreases |value|
  {
    hide ReadBody, EscapeByte;
    ReadBodyStep(s, i);
    if value != [] {
      var n, all := |EscapeByte(value[0])|, |EscapeAll(value)|;
      assert s[i..i + n] == s[i..i + all][..n];
      assert s[i + n..i + all] == s[i..i + all][n..];
      ReadEscapedByte(s, i, value[0]);
      ReadEscaped(s, i + n, value[1..]);
      assert value == [value[0]] + value[1..];
    }
  }

  /** The one token that a printed string lexes to, and the end of the source. */
  function Printed(value: string): seq<Token> {
    var text := Quote(value);
    [Token(String, value, SpanAt(text, 0, |text|), false),
     Token(Eof, [], SpanAt(text, |text|, |text|), false)]
  }

  /**
    Printing then lexing gives back exactly one string token with the value and no diagnostic,
    if and only if the value is UTF-8 whose only bytes below 0x20 are tab, LF and CR.
   */
  lemma PrintedLexesBack(value: string)
    ensures Lex(Quote(value), 0) == Lexed(Printed(value), [])
            <==> AllPrintable(value) && IsUtf8(value)
    ensures Lex(Quote(value), 0).errors == [] <==> AllPrintable(value) && IsUtf8(value)
  {
    hide ReadBody, EscapeAll, IsUtf8, LineAt, ColumnAt, NextAt, Lex;
    var text := Quote(value);
    var n := |text|;
    assert text[1..1 + |EscapeAll(value)|] == EscapeAll(value);
    ReadEscaped(text, 1, value);
    LexStep(text, 0);
    LexStep(text, n);
    NextStep(text, 0, None);
    NextStep(text, n, None);
  }

  /** A vertical tab is printed as an escape that the lexer refuses. */
  lemma VerticalTabIsRefused(c: char)
    requires Code(c) == 11
    ensures Lex(Quote([c]), 0).errors != []
  {
    assert c in [c] && !IsPrintable(c);
    PrintedLexesBack([c]);
  }
}
