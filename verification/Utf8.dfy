/**
  UTF-8 validation (compiler/src/lexer.cpp:21-73) against section 4 of RFC 3629. A byte is a
  char with a code below 256; greater codes are in no valid sequence.
 */
module Utf8 {
  function Code(c: char): nat {
    c as int
  }

  // ---------- encoding ----------

  /** Unicode scalar values: code points but for the surrogates. */
  predicate IsScalar(c: nat) {
    c <= 0xd7ff || 0xe000 <= c <= 0x10ffff
  }

  function Byte(code: nat): char
    requires code < 256
  {
    code as char
  }

  function Continuation(bits: nat): char
    requires bits < 64
  {
    Byte(0x80 + bits)
  }

  /** The shortest encoding of a scalar value, the only one the standard allows. */
  function Encode(c: nat): (r: string)
    requires IsScalar(c)
    ensures 1 <= |r| <= 4
  {
    if c <= 0x7f then [Byte(c)]
    else if c <= 0x7ff then [Byte(0xc0 + c / 64), Continuation(c % 64)]
    else if c <= 0xffff then
      [Byte(0xe0 + c / 4096), Continuation(c / 64 % 64), Continuation(c % 64)]
    else
      [Byte(0xf0 + c / 262144), Continuation(c / 4096 % 64), Continuation(c / 64 % 64),
       Continuation(c % 64)]
  }

  function EncodeAll(scalars: seq<nat>): string
    requires forall i :: 0 <= i < |scalars| ==> IsScalar(scalars[i])
  {
    if scalars == [] then [] else Encode(scalars[0]) + EncodeAll(scalars[1..])
  }

  predicate Encodes(value: string, scalars: seq<nat>) {
    (forall i :: 0 <= i < |scalars| ==> IsScalar(scalars[i])) && EncodeAll(scalars) == value
  }

  /** The byte strings that are UTF-8. */
  ghost predicate IsUtf8(value: string) {
    exists scalars: seq<nat> :: Encodes(value, scalars)
  }

  // ---------- one encoded scalar value ----------

  predicate IsContinuation(c: char) {
    0x80 <= Code(c) <= 0xbf
  }

  /** The tests of one round of the loop: the length of the sequence at the start, or zero. */
  function SequenceLength(value: string): (n: nat)
    requires value != []
    ensures n <= |value|
  {
    var first := Code(value[0]);
    if first <= 0x7f then 1
    else if 0xc2 <= first <= 0xdf then
      if |value| >= 2 && IsContinuation(value[1]) then 2 else 0
    else if 0xe0 <= first <= 0xef then
      if |value| >= 3 && SecondOfThree(first, value[1]) && IsContinuation(value[2]) then 3 else 0
    else if 0xf0 <= first <= 0xf4 then
      if |value| >= 4 && SecondOfFour(first, value[1])
         && IsContinuation(value[2]) && IsContinuation(value[3])
      then 4 else 0
    else 0
  }

  predicate SecondOfThree(first: nat, second: char) {
    if first == 0xe0 then 0xa0 <= Code(second) <= 0xbf
    else if first == 0xed then 0x80 <= Code(second) <= 0x9f
    else IsContinuation(second)
  }

  predicate SecondOfFour(first: nat, second: char) {
    if first == 0xf0 then 0x90 <= Code(second) <= 0xbf
    else if first == 0xf4 then 0x80 <= Code(second) <= 0x8f
    else IsContinuation(second)
  }

  /** The scalar value of a sequence that passed the tests. */
  function Decode(value: string): int
    requires value != [] && SequenceLength(value) > 0
  {
    var first := Code(value[0]);
    if first <= 0x7f then first
    else if first <= 0xdf then (first - 0xc0) * 64 + (Code(value[1]) - 0x80)
    else if first <= 0xef then
      (first - 0xe0) * 4096 + (Code(value[1]) - 0x80) * 64 + (Code(value[2]) - 0x80)
    else
      (first - 0xf0) * 262144 + (Code(value[1]) - 0x80) * 4096 + (Code(value[2]) - 0x80) * 64
      + (Code(value[3]) - 0x80)
  }

  lemma Base64(a: nat, b: nat, c: nat, d: nat)
    requires b < 64 && c < 64 && d < 64
    ensures var n := a * 262144 + b * 4096 + c * 64 + d;
            n % 64 == d && n / 64 % 64 == c && n / 4096 % 64 == b && n / 262144 == a
  {
    var n := a * 262144 + b * 4096 + c * 64 + d;
    assert n == (a * 4096 + b * 64 + c) * 64 + d;
    assert n / 64 == a * 4096 + b * 64 + c;
    assert n / 4096 == a * 64 + b;
  }

  /** What passes the tests is the encoding of its scalar value. */
  lemma PassedIsEncoded(value: string)
    requires value != [] && SequenceLength(value) > 0
    ensures Decode(value) >= 0 && IsScalar(Decode(value))
    ensures Encode(Decode(value)) == value[..SequenceLength(value)]
  {
    var first := Code(value[0]);
    if first <= 0x7f {
    } else if first <= 0xdf {
      PassedTwo(value);
    } else if first <= 0xef {
      PassedThree(value);
    } else {
      PassedFour(value);
    }
  }

  lemma PassedTwo(value: string)
    requires value != [] && SequenceLength(value) == 2
    ensures Decode(value) >= 0 && IsScalar(Decode(value))
    ensures Encode(Decode(value)) == value[..2]
  {
    Base64(0, 0, Code(value[0]) - 0xc0, Code(value[1]) - 0x80);
  }

  lemma PassedThree(value: string)
    requires value != [] && SequenceLength(value) == 3
    ensures Decode(value) >= 0 && IsScalar(Decode(value))
    ensures Encode(Decode(value)) == value[..3]
  {
    Base64(0, Code(value[0]) - 0xe0, Code(value[1]) - 0x80, Code(value[2]) - 0x80);
  }

  lemma PassedFour(value: string)
    requires value != [] && SequenceLength(value) == 4
    ensures Decode(value) >= 0 && IsScalar(Decode(value))
    ensures Encode(Decode(value)) == value[..4]
  {
    Base64(Code(value[0]) - 0xf0, Code(value[1]) - 0x80, Code(value[2]) - 0x80,
           Code(value[3]) - 0x80);
  }

  lemma TailOfSum(a: string, b: string)
    ensures (a + b)[|a|..] == b
  {
  }

  /** An encoded scalar value passes the tests, and is all they look at. */
  lemma EncodePasses(c: nat, rest: string)
    requires IsScalar(c)
    ensures SequenceLength(Encode(c) + rest) == |Encode(c)|
  {
    var value := Encode(c) + rest;
    if c <= 0x7f {
      assert value[0] == Byte(c);
    } else if c <= 0x7ff {
      EncodeTwo(c, rest);
    } else if c <= 0xffff {
      EncodeThree(c, rest);
    } else {
      EncodeFour(c, rest);
    }
  }

  lemma EncodeTwo(c: nat, rest: string)
    requires 0x7f < c <= 0x7ff
    ensures SequenceLength(Encode(c) + rest) == 2
  {
    var value := Encode(c) + rest;
    assert value[0] == Byte(0xc0 + c / 64) && value[1] == Continuation(c % 64);
  }

  lemma EncodeThree(c: nat, rest: string)
    requires 0x7ff < c <= 0xffff && IsScalar(c)
    ensures SequenceLength(Encode(c) + rest) == 3
  {
    var value := Encode(c) + rest;
    var lead, middle := c / 4096, c / 64 % 64;
    assert value[0] == Byte(0xe0 + lead) && value[1] == Continuation(middle)
           && value[2] == Continuation(c % 64);
    assert c / 64 == lead * 64 + middle;
  }

  lemma EncodeFour(c: nat, rest: string)
    requires 0xffff < c <= 0x10ffff
    ensures SequenceLength(Encode(c) + rest) == 4
  {
    var value := Encode(c) + rest;
    var lead, middle := c / 262144, c / 4096 % 64;
    assert value[0] == Byte(0xf0 + lead) && value[1] == Continuation(middle)
           && value[2] == Continuation(c / 64 % 64) && value[3] == Continuation(c % 64);
    assert c / 4096 == lead * 64 + middle;
  }

  // ---------- whole strings ----------

  /** A string is UTF-8 iff it is empty, or starts with a good sequence before UTF-8. */
  lemma Utf8Step(value: string)
    requires value != []
    ensures IsUtf8(value) <==> SequenceLength(value) > 0 && IsUtf8(value[SequenceLength(value)..])
  {
    hide SequenceLength, Encode, Decode;
    var n := SequenceLength(value);
    if IsUtf8(value) {
      var scalars: seq<nat> :| Encodes(value, scalars);
      var rest := EncodeAll(scalars[1..]);
      EncodePasses(scalars[0], rest);
      TailOfSum(Encode(scalars[0]), rest);
      assert Encodes(rest, scalars[1..]);
    }
    if n > 0 && IsUtf8(value[n..]) {
      var scalars: seq<nat> :| Encodes(value[n..], scalars);
      PassedIsEncoded(value);
      var all := [Decode(value) as nat] + scalars;
      assert value == value[..n] + value[n..];
      assert all[1..] == scalars;
      assert Encodes(value, all);
    }
  }

  /** Two lists of scalar values with the same encoding are the same list. */
  lemma {:induction false} EncodingIsUnique(value: string, a: seq<nat>, b: seq<nat>)
    requires Encodes(value, a) && Encodes(value, b)
    ensures a == b
    decreases |a|
  {
    hide SequenceLength, Encode, Decode;
    if a != [] && b != [] {
      var x, y := EncodeAll(a[1..]), EncodeAll(b[1..]);
      EncodePasses(a[0], x);
      EncodePasses(b[0], y);
      TailOfSum(Encode(a[0]), x);
      TailOfSum(Encode(b[0]), y);
      assert Encode(a[0]) == value[..|Encode(a[0])|] && Encode(b[0]) == value[..|Encode(b[0])|];
      EncodeInjective(a[0], b[0]);
      EncodingIsUnique(x, a[1..], b[1..]);
      assert a == [a[0]] + a[1..] && b == [b[0]] + b[1..];
    }
  }

  lemma EncodeInjective(c: nat, d: nat)
    requires IsScalar(c) && IsScalar(d) && Encode(c) == Encode(d)
    ensures c == d
  {
    hide Encode, Decode, SequenceLength;
    EncodePasses(c, "");
    assert Encode(c) + "" == Encode(c);
    DecodeEncoded(c);
    DecodeEncoded(d);
  }

  /** Decoding undoes encoding. */
  lemma DecodeEncoded(c: nat)
    requires IsScalar(c)
    ensures SequenceLength(Encode(c)) == |Encode(c)|
    ensures Decode(Encode(c)) == c
  {
    EncodePasses(c, "");
    assert Encode(c) + "" == Encode(c);
    if c <= 0x7f {
    } else if c <= 0x7ff {
      hide SequenceLength;
      assert Code(Encode(c)[0]) <= 0xdf;
    } else if c <= 0xffff {
      DecodeEncodedThree(c);
    } else {
      DecodeEncodedFour(c);
    }
  }

  lemma DecodeEncodedThree(c: nat)
    requires 0x7ff < c <= 0xffff && IsScalar(c) && SequenceLength(Encode(c)) == 3
    ensures Decode(Encode(c)) == c
  {
    hide SequenceLength;
    var value, middle := Encode(c), c / 64 % 64;
    assert Code(value[0]) == 0xe0 + c / 4096 && Code(value[1]) == 0x80 + middle;
    assert Code(value[2]) == 0x80 + c % 64;
    assert c / 64 == c / 4096 * 64 + middle;
  }

  lemma DecodeEncodedFour(c: nat)
    requires 0xffff < c <= 0x10ffff && SequenceLength(Encode(c)) == 4
    ensures Decode(Encode(c)) == c
  {
    hide SequenceLength;
    var value, second, third := Encode(c), c / 4096 % 64, c / 64 % 64;
    assert Code(value[0]) == 0xf0 + c / 262144 && Code(value[1]) == 0x80 + second;
    assert Code(value[2]) == 0x80 + third && Code(value[3]) == 0x80 + c % 64;
    assert c / 64 == c / 4096 * 64 + third;
    assert c / 4096 == c / 262144 * 64 + second;
  }

  /** The validating loop accepts exactly UTF-8. */
  method IsValidUtf8(value: string) returns (ok: bool)
    ensures ok <==> IsUtf8(value)
  {
    hide IsUtf8, Encode;
    var offset := 0;
    while offset < |value|
      invariant 0 <= offset <= |value|
      invariant IsUtf8(value) <==> IsUtf8(value[offset..])
    {
      var rest := value[offset..];
      Utf8Step(rest);
      var first := Code(value[offset]);
      if first <= 0x7f {
        offset := offset + 1;
        continue;
      }
      if 0xc2 <= first <= 0xdf {
        if offset + 1 >= |value| || !IsContinuation(value[offset + 1]) {
          return false;
        }
        offset := offset + 2;
        continue;
      }
      if 0xe0 <= first <= 0xef {
        if offset + 2 >= |value| {
          return false;
        }
        var second, third := value[offset + 1], value[offset + 2];
        var secondValid := if first == 0xe0 then 0xa0 <= Code(second) <= 0xbf
                           else if first == 0xed then 0x80 <= Code(second) <= 0x9f
                           else IsContinuation(second);
        if !secondValid || !IsContinuation(third) {
          return false;
        }
        offset := offset + 3;
        continue;
      }
      if 0xf0 <= first <= 0xf4 {
        if offset + 3 >= |value| {
          return false;
        }
        var second, third, fourth := value[offset + 1], value[offset + 2], value[offset + 3];
        var secondValid := if first == 0xf0 then 0x90 <= Code(second) <= 0xbf
                           else if first == 0xf4 then 0x80 <= Code(second) <= 0x8f
                           else IsContinuation(second);
        if !secondValid || !IsContinuation(third) || !IsContinuation(fourth) {
          return false;
        }
        offset := offset + 4;
        continue;
      }
      return false;
    }
    EmptyIsUtf8();
    assert value[offset..] == [];
    return true;
  }

  lemma EmptyIsUtf8()
    ensures IsUtf8([])
  {
    assert Encodes([], []);
  }
}
