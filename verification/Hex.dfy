/** Hexadecimal text: the prefixed printer and parser of the RPC client, the bare printer of grant ids. */
module Hex {
  import opened Core

  type nibble = x: int | 0 <= x < 16

  /** `HEX[v]` as a byte: lower case. */
  function Digit(v: nibble): (c: byte) {
    if v < 10 then 48 + v else 87 + v
  }

  /** `char::to_digit(16)`: either case. */
  function DigitValue(c: byte): (v: Option<nibble>) {
    if 48 <= c <= 57 then Some(c - 48)
    else if 97 <= c <= 102 then Some(c - 87)
    else if 65 <= c <= 70 then Some(c - 55)
    else None
  }

  function Lower(c: byte): (r: byte) {
    if 65 <= c <= 90 then c + 32 else c
  }

  function LowerAll(s: seq<byte>): (r: seq<byte>)
    ensures |r| == |s|
  {
    seq(|s|, i requires 0 <= i < |s| => Lower(s[i]))
  }

  /** Two digits per byte, without a prefix. */
  function Body(data: seq<byte>): (s: seq<byte>)
    ensures |s| == 2 * |data|
  {
    if data == [] then [] else Body(Front(data)) + [Digit(Last(data) / 16), Digit(Last(data) % 16)]
  }

  const PREFIX: seq<byte> := [48, 120]

  function Encode(data: seq<byte>): (s: seq<byte>) {
    PREFIX + Body(data)
  }

  function Strip(s: seq<byte>): (r: seq<byte>) {
    if PREFIX <= s then s[2..] else s
  }

  function Pairs(s: seq<byte>): (d: Option<seq<byte>>)
    requires |s| % 2 == 0
  {
    if s == [] then Some([])
    else
      var n := |s| - 2;
      var rest, high, low := Pairs(s[..n]), DigitValue(s[n]), DigitValue(s[n + 1]);
      if rest.None? || high.None? || low.None? then None
      else Some(rest.value + [high.value as int * 16 + low.value])
  }

  function Decode(s: seq<byte>): (d: Option<seq<byte>>) {
    var body := Strip(s);
    if |body| % 2 != 0 then None else Pairs(body)
  }

  /** The loop shared by both `hex_encode` functions. */
  method HexDigits(data: seq<byte>, prefix: seq<byte>) returns (out: seq<byte>)
    ensures out == prefix + Body(data)
  {
    out := prefix;
    for i := 0 to |data|
      invariant out == prefix + Body(data[..i])
    {
      assert data[..i + 1] == data[..i] + [data[i]];
      FrontOfAppend(data[..i], data[i]);
      out := out + [Digit(data[i] / 16)];
      out := out + [Digit(data[i] % 16)];
    }
    assert data[..|data|] == data;
  }

  /** The loop of `hex_decode` over chunks of two. */
  method HexDecode(value: seq<byte>) returns (d: Option<seq<byte>>)
    ensures d == Decode(value)
  {
    var body := if PREFIX <= value then value[2..] else value;
    if |body| % 2 != 0 {
      return None;
    }
    var out: seq<byte> := [];
    var i := 0;
    while i < |body|
      invariant 0 <= i <= |body| && i % 2 == 0
      invariant Pairs(body[..i]) == Some(out)
    {
      PairStep(body, i);
      var high, low := DigitValue(body[i]), DigitValue(body[i + 1]);
      if high.None? || low.None? {
        ForeignDigit(body, i + 2);
        return None;
      }
      out := out + [high.value as int * 16 + low.value];
      i := i + 2;
    }
    assert body[..i] == body;
    d := Some(out);
  }

  lemma PairStep(s: seq<byte>, i: nat)
    requires i % 2 == 0 && i + 2 <= |s|
    ensures var rest, high, low := Pairs(s[..i]), DigitValue(s[i]), DigitValue(s[i + 1]);
            Pairs(s[..i + 2]) == if rest.None? || high.None? || low.None? then None
                                 else Some(rest.value + [high.value as int * 16 + low.value])
  {
    assert s[..i + 2][..i] == s[..i];
  }

  lemma {:induction false} ForeignDigit(s: seq<byte>, i: nat)
    requires |s| % 2 == 0 && i % 2 == 0 && i <= |s| && Pairs(s[..i]) == None
    ensures Pairs(s) == None
    decreases |s|
  {
    if i < |s| {
      var f := s[..|s| - 2];
      assert f[..i] == s[..i];
      ForeignDigit(f, i);
    } else {
      assert s[..i] == s;
    }
  }

  // ---- Main results ----------------------------------------------------------------------

  lemma DigitRoundTrip(v: nibble)
    ensures DigitValue(Digit(v)) == Some(v) && Lower(Digit(v)) == Digit(v)
  {
  }

  lemma DigitOfValue(c: byte, v: nibble)
    ensures DigitValue(c) == Some(v) <==> Lower(c) == Digit(v)
  {
  }

  lemma SplitConcat<T>(a: seq<T>, x: seq<T>, b: seq<T>, y: seq<T>)
    requires a + x == b + y && |a| == |b|
    ensures a == b && x == y
  {
    assert a == (a + x)[..|a|] && b == (b + y)[..|b|];
    assert x == (a + x)[|a|..] && y == (b + y)[|b|..];
  }

  lemma LowerStep(s: seq<byte>)
    requires |s| >= 2
    ensures var n := |s| - 2; LowerAll(s) == LowerAll(s[..n]) + [Lower(s[n]), Lower(s[n + 1])]
  {
  }

  lemma {:induction false} PairsPrintBack(s: seq<byte>, d: seq<byte>)
    requires |s| % 2 == 0 && Pairs(s) == Some(d)
    ensures LowerAll(s) == Body(d)
    decreases |s|
  {
    if s != [] {
      var n := |s| - 2;
      var rest := Pairs(s[..n]).value;
      var high, low := DigitValue(s[n]).value, DigitValue(s[n + 1]).value;
      var b: byte := high as int * 16 + low;
      PairsPrintBack(s[..n], rest);
      LowerStep(s);
      DigitOfValue(s[n], high);
      DigitOfValue(s[n + 1], low);
      BodyStep(rest, b, high, low);
    }
  }

  lemma BodyStep(rest: seq<byte>, b: byte, high: nibble, low: nibble)
    requires b == high as int * 16 + low
    ensures Body(rest + [b]) == Body(rest) + [Digit(high), Digit(low)]
  {
    FrontOfAppend(rest, b);
    assert b / 16 == high && b % 16 == low;
  }

  lemma ReadBackStep(s: seq<byte>, f: seq<byte>, b: byte, high: nibble, low: nibble)
    requires |s| >= 2 && b == high as int * 16 + low && LowerAll(s) == Body(f) + [Digit(high), Digit(low)]
    ensures var n := |s| - 2;
            LowerAll(s[..n]) == Body(f) && DigitValue(s[n]) == Some(high) && DigitValue(s[n + 1]) == Some(low)
  {
    var n := |s| - 2;
    var tail := [Lower(s[n]), Lower(s[n + 1])];
    LowerStep(s);
    SplitConcat(LowerAll(s[..n]), tail, Body(f), [Digit(high), Digit(low)]);
    assert Lower(s[n]) == tail[0] && Lower(s[n + 1]) == tail[1];
    DigitOfValue(s[n], high);
    DigitOfValue(s[n + 1], low);
  }

  lemma Nibbles(b: byte) returns (high: nibble, low: nibble)
    ensures b == high as int * 16 + low
  {
    high, low := b / 16, b % 16;
  }

  lemma {:induction false} PairsReadBack(s: seq<byte>, f: seq<byte>, b: byte)
    requires |s| % 2 == 0 && LowerAll(s) == Body(f + [b])
    ensures Pairs(s) == Some(f + [b])
    decreases |s|
  {
    var n := |s| - 2;
    var high, low := Nibbles(b);
    BodyStep(f, b, high, low);
    ReadBackStep(s, f, b, high, low);
    if f == [] {
      assert s[..n] == [];
    } else {
      assert f == Front(f) + [Last(f)];
      PairsReadBack(s[..n], Front(f), Last(f));
    }
  }

  /** Parsing the digits gives `d` exactly when they are, up to letter case, the digits of `d`. */
  lemma PairsIff(s: seq<byte>, d: seq<byte>)
    requires |s| % 2 == 0
    ensures Pairs(s) == Some(d) <==> LowerAll(s) == Body(d)
  {
    if Pairs(s) == Some(d) {
      PairsPrintBack(s, d);
    }
    if LowerAll(s) == Body(d) && d != [] {
      assert d == Front(d) + [Last(d)];
      PairsReadBack(s, Front(d), Last(d));
    }
  }

  /** `hex_decode` accepts exactly the two-digit-per-byte strings, with or without the prefix and in
      either case; re-encoding what it accepts gives the lower-case prefixed form. */
  lemma DecodeIff(s: seq<byte>, d: seq<byte>)
    ensures Decode(s) == Some(d) <==> PREFIX + LowerAll(Strip(s)) == Encode(d)
  {
    var body := Strip(s);
    if PREFIX + LowerAll(body) == Encode(d) {
      assert LowerAll(body) == (PREFIX + LowerAll(body))[2..] == Encode(d)[2..] == Body(d);
    }
    if |body| % 2 == 0 {
      PairsIff(body, d);
    }
  }

  lemma {:induction false} BodyIsLower(data: seq<byte>)
    ensures LowerAll(Body(data)) == Body(data)
  {
    if data != [] {
      BodyIsLower(Front(data));
      DigitRoundTrip(Last(data) / 16);
      DigitRoundTrip(Last(data) % 16);
      var n := |Body(Front(data))|;
      forall i | 0 <= i < |Body(data)|
        ensures Lower(Body(data)[i]) == Body(data)[i]
      {
        if i < n {
          assert Body(data)[i] == Body(Front(data))[i] == LowerAll(Body(Front(data)))[i];
        }
      }
    }
  }

  /** Decoding inverts encoding for all byte strings. */
  lemma DecodeInvertsEncode(data: seq<byte>)
    ensures Decode(Encode(data)) == Some(data)
  {
    BodyIsLower(data);
    assert Encode(data)[2..] == Body(data);
    DecodeIff(Encode(data), data);
  }

  /** Grant ids are compared as bare hex text; equal text means equal ids. */
  lemma BodyInjective(a: seq<byte>, b: seq<byte>)
    requires Body(a) == Body(b)
    ensures a == b
  {
    DecodeInvertsEncode(a);
    DecodeInvertsEncode(b);
  }

  const LOWER_DIGITS: string := "0123456789abcdef"
  const UPPER_DIGITS: string := "0123456789ABCDEF"

  lemma DigitTable(v: nibble)
    ensures Digit(v) == LOWER_DIGITS[v] as int
  {
  }

  lemma DigitValueTable(c: byte, v: nibble)
    ensures DigitValue(c) == Some(v) <==> c == LOWER_DIGITS[v] as int || c == UPPER_DIGITS[v] as int
  {
  }

  /** Byte `i` is printed at `2 i` and `2 i + 1`, its high digit first. */
  lemma {:induction false} BodyAt(data: seq<byte>, i: nat)
    requires i < |data|
    ensures Body(data)[2 * i] == LOWER_DIGITS[data[i] / 16] as int
    ensures Body(data)[2 * i + 1] == LOWER_DIGITS[data[i] % 16] as int
  {
    DigitTable(data[i] / 16);
    DigitTable(data[i] % 16);
    if i < |data| - 1 {
      BodyAt(Front(data), i);
    }
  }
}
