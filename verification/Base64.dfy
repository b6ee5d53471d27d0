/**
 Standard padded Base64 as the private API speaks it (RFC 4648 section 4), with the lenient decoder
 built on a 32-bit accumulator and the canonical decoder on top of it (section 3.5).
 */
module Base64 {
  import opened Core
  import opened Text

  type sextet = x: int | 0 <= x < 64

  // ---- Alphabet --------------------------------------------------------------------

  /** `ALPHABET[v]`, as a byte. */
  function Letter(v: sextet): (c: byte) {
    if v < 26 then 65 + v
    else if v < 52 then 97 + (v - 26)
    else if v < 62 then 48 + (v - 52)
    else if v == 62 then 43
    else 47
  }

  function Value(c: byte): (v: Option<sextet>) {
    if 65 <= c <= 90 then Some(c - 65)
    else if 97 <= c <= 122 then Some(c - 97 + 26)
    else if 48 <= c <= 57 then Some(c - 48 + 52)
    else if c == 43 then Some(62)
    else if c == 47 then Some(63)
    else None
  }

  const PAD: byte := 61

  predicate Skipped(c: byte) {
    c == PAD || c == 10 || c == 13
  }

  lemma LetterValue(v: sextet)
    ensures Value(Letter(v)) == Some(v) && !Skipped(Letter(v))
  {
  }

  lemma ValueLetter(c: byte)
    requires Value(c).Some?
    ensures Letter(Value(c).value) == c && !Skipped(c)
  {
  }

  // ---- Encoding ----------------------------------------------------------------------

  /** The 24-bit group of a chunk: missing bytes count as zero. */
  function Triple(chunk: seq<byte>): (t: nat)
    requires 1 <= |chunk| <= 3
  {
    var b0: int, b1: int, b2: int := chunk[0], if |chunk| > 1 then chunk[1] else 0, if |chunk| > 2 then chunk[2] else 0;
    b0 * 0x1_0000 + b1 * 0x100 + b2
  }

  function EncodeChunk(chunk: seq<byte>): (q: seq<byte>)
    requires 1 <= |chunk| <= 3
    ensures |q| == 4
  {
    var t := Triple(chunk);
    [ Letter((t / 0x4_0000) % 64), Letter((t / 0x1000) % 64),
      if |chunk| > 1 then Letter((t / 64) % 64) else PAD,
      if |chunk| > 2 then Letter(t % 64) else PAD ]
  }

  function Encode(data: seq<byte>): (s: seq<byte>) {
    if |data| == 0 then []
    else if |data| <= 3 then EncodeChunk(data)
    else EncodeChunk(data[..3]) + Encode(data[3..])
  }

  /** The loop of `base64_encode` over chunks of three. */
  method Base64Encode(data: seq<byte>) returns (out: seq<byte>)
    ensures out == Encode(data)
  {
    out := [];
    var i := 0;
    while i < |data|
      invariant 0 <= i <= |data|
      invariant out + Encode(data[i..]) == Encode(data)
    {
      var end := if i + 3 <= |data| then i + 3 else |data|;
      var rest := data[i..];
      assert rest[..end - i] == data[i..end] && rest[end - i..] == data[end..];
      assert Encode(rest) == EncodeChunk(data[i..end]) + Encode(data[end..]) by {
        if |rest| <= 3 {
          assert data[i..end] == rest;
        }
      }
      out := out + EncodeChunk(data[i..end]);
      i := end;
    }
  }

  // ---- Lenient decoding ----------------------------------------------------------------

  /** The decoder's registers: a 32-bit accumulator and the number of undelivered bits in it. */
  datatype Registers = Registers(acc: int, bits: int)

  predicate RegistersOk(r: Registers) {
    0 <= r.acc < TWO_32 && (r.bits == 0 || r.bits == 2 || r.bits == 4 || r.bits == 6)
  }

  function Pow2(n: int): (p: int)
    requires n == 0 || n == 2 || n == 4 || n == 6
  {
    if n == 0 then 1 else if n == 2 then 4 else if n == 4 then 16 else 64
  }

  /** One letter: `acc = (acc << 6) | v` drops what does not fit in 32 bits. */
  function Shift(r: Registers, v: sextet): (s: (Registers, seq<byte>))
    requires RegistersOk(r)
    ensures RegistersOk(s.0)
  {
    var acc := (r.acc * 64) % TWO_32 + v;
    if r.bits + 6 >= 8 then
      (Registers(acc, r.bits - 2), [(acc / Pow2(r.bits - 2)) % 256])
    else (Registers(acc, r.bits + 6), [])
  }

  /** What the loop makes of `input`, or `None` at the first foreign byte. */
  function DecodeFrom(r: Registers, input: seq<byte>): (d: Option<seq<byte>>)
    requires RegistersOk(r)
    decreases |input|
  {
    if input == [] then Some([])
    else if Skipped(input[0]) then DecodeFrom(r, input[1..])
    else match Value(input[0])
      case None => None
      case Some(v) =>
        var (s, out) := Shift(r, v);
        Prepend(out, DecodeFrom(s, input[1..]))
  }

  function Lenient(input: seq<byte>, expectedLen: nat): (d: Option<seq<byte>>) {
    var d := DecodeFrom(Registers(0, 0), input);
    if d.Some? && |d.value| == expectedLen then d else None
  }

  function Prepend(out: seq<byte>, d: Option<seq<byte>>): (r: Option<seq<byte>>) {
    match d
    case None => None
    case Some(more) => Some(out + more)
  }

  lemma PrependTwice(a: seq<byte>, b: seq<byte>, d: Option<seq<byte>>)
    ensures Prepend(a, Prepend(b, d)) == Prepend(a + b, d)
    ensures Prepend([], d) == d
  {
    if d.Some? {
      assert a + (b + d.value) == (a + b) + d.value;
      assert [] + d.value == d.value;
    }
  }

  /** The loop of `base64_decode_lenient`. */
  method Base64DecodeLenient(input: seq<byte>, expectedLen: nat) returns (d: Option<seq<byte>>)
    ensures d == Lenient(input, expectedLen)
  {
    var r: Registers, out: seq<byte> := Registers(0, 0), [];
    var i := 0;
    assert input[0..] == input;
    PrependTwice([], [], DecodeFrom(r, input));
    while i < |input|
      invariant 0 <= i <= |input| && RegistersOk(r)
      invariant DecodeFrom(Registers(0, 0), input) == Prepend(out, DecodeFrom(r, input[i..]))
    {
      assert input[i..][1..] == input[i + 1..] && input[i..][0] == input[i];
      if !Skipped(input[i]) {
        var v := Value(input[i]);
        if v.None? {
          return None;
        }
        var (s, bytes) := Shift(r, v.value);
        PrependTwice(out, bytes, DecodeFrom(s, input[i + 1..]));
        r, out := s, out + bytes;
      }
      i := i + 1;
    }
    assert out + [] == out;
    d := if |out| == expectedLen then Some(out) else None;
  }

  function Canonical(input: seq<byte>, expectedLen: nat): (d: Option<seq<byte>>) {
    var d := Lenient(input, expectedLen);
    if d.Some? && Encode(d.value) == input then d else None
  }

  // ---- The accumulator -----------------------------------------------------------------

  /** The exact decoder: no accumulator, only the undelivered low bits as a number. */
  function Exact(live: int, bits: int, v: sextet): (s: (int, int, seq<byte>))
    requires bits == 0 || bits == 2 || bits == 4 || bits == 6
    requires 0 <= live < Pow2(bits)
    ensures s.1 == 0 || s.1 == 2 || s.1 == 4 || s.1 == 6
    ensures 0 <= s.0 < Pow2(s.1)
  {
    var e: int := live * 64 + v;
    if bits == 0 then (e, 6, [])
    else if bits == 6 then (e % 16, 4, [e / 16])
    else if bits == 4 then (e % 4, 2, [e / 4])
    else (0, 0, [e])
  }

  /** `(acc << 6) | v` in 32 bits agrees with exact arithmetic on the low bits: the part that is dropped
      is a multiple of 2^32, hence of any smaller power of two. */
  lemma ShiftLow0(acc: int, v: sextet)
    requires 0 <= acc < TWO_32
    ensures ((acc * 64) % TWO_32 + v) % 64 == v
  {
    var k := (acc * 64) / TWO_32;
    assert (acc * 64) % TWO_32 + v == (acc - 0x400_0000 * k) * 64 + v;
  }

  lemma ShiftLow2(acc: int, v: sextet)
    requires 0 <= acc < TWO_32
    ensures ((acc * 64) % TWO_32 + v) % 256 == (acc % 4) * 64 + v
  {
    var k, q := (acc * 64) / TWO_32, acc / 4;
    assert (acc * 64) % TWO_32 + v == (q - 0x100_0000 * k) * 256 + (acc % 4) * 64 + v;
  }

  lemma ByFour(x: int, q: int, r: int)
    requires x == 4 * q + r && 0 <= r < 4
    ensures x / 4 == q && x % 4 == r
  {
  }

  lemma BySixteen(x: int, q: int, r: int)
    requires x == 16 * q + r && 0 <= r < 16
    ensures x / 16 == q && x % 16 == r
  {
  }

  lemma LowByte(x: int, m: int, q: int)
    requires x == 256 * m + q && 0 <= q < 256
    ensures x % 256 == q
  {
  }

  lemma ShiftLow4(acc: int, v: sextet)
    requires 0 <= acc < TWO_32
    ensures var a := (acc * 64) % TWO_32 + v; var e := (acc % 16) * 64 + v;
            (a / 4) % 256 == e / 4 && a % 4 == e % 4
  {
    var k, q := (acc * 64) / TWO_32, acc / 16;
    var e := (acc % 16) * 64 + v;
    var m := q - 0x40_0000 * k;
    assert (acc * 64) % TWO_32 + v == m * 1024 + e;
    ByFour(m * 1024 + e, m * 256 + e / 4, e % 4);
    LowByte(m * 256 + e / 4, m, e / 4);
  }

  lemma ShiftLow6(acc: int, v: sextet)
    requires 0 <= acc < TWO_32
    ensures var a := (acc * 64) % TWO_32 + v; var e := (acc % 64) * 64 + v;
            (a / 16) % 256 == e / 16 && a % 16 == e % 16
  {
    var k, q := (acc * 64) / TWO_32, acc / 64;
    var e := (acc % 64) * 64 + v;
    var m := q - 0x10_0000 * k;
    assert (acc * 64) % TWO_32 + v == m * 4096 + e;
    BySixteen(m * 4096 + e, m * 256 + e / 16, e % 16);
    LowByte(m * 256 + e / 16, m, e / 16);
  }

  /** Dropping high bits is harmless: the 32-bit step delivers what the exact step delivers. */
  lemma ShiftIsExact(r: Registers, v: sextet)
    requires RegistersOk(r)
    ensures var s := Shift(r, v);
            Exact(r.acc % Pow2(r.bits), r.bits, v) == (s.0.acc % Pow2(s.0.bits), s.0.bits, s.1)
  {
    if r.bits == 0 {
      ShiftLow0(r.acc, v);
    } else if r.bits == 2 {
      ShiftLow2(r.acc, v);
    } else if r.bits == 4 {
      ShiftLow4(r.acc, v);
    } else {
      ShiftLow6(r.acc, v);
    }
  }

  // ---- Letters, then bits ------------------------------------------------------------------

  /** The 6-bit values of the letters of `input`, or `None` at a foreign byte. */
  function Letters(input: seq<byte>): (vs: Option<seq<sextet>>) {
    if input == [] then Some([])
    else
      var rest := Letters(input[1..]);
      if Skipped(input[0]) then rest
      else if Value(input[0]).None? || rest.None? then None
      else Some([Value(input[0]).value] + rest.value)
  }

  /** Regrouping 6-bit values into bytes, with exact arithmetic. */
  function Bits(live: int, bits: int, vs: seq<sextet>): (d: seq<byte>)
    requires bits == 0 || bits == 2 || bits == 4 || bits == 6
    requires 0 <= live < Pow2(bits)
    decreases |vs|
  {
    if vs == [] then []
    else
      var (live', bits', out) := Exact(live, bits, vs[0]);
      out + Bits(live', bits', vs[1..])
  }

  /** The 32-bit decoder equals exact regrouping on every input, however long. */
  lemma {:induction false} WrappingIsExact(r: Registers, input: seq<byte>)
    requires RegistersOk(r)
    ensures DecodeFrom(r, input) == match Letters(input) case None => None case Some(vs) => Some(Bits(r.acc % Pow2(r.bits), r.bits, vs))
    decreases |input|
  {
    if input != [] {
      if Skipped(input[0]) {
        WrappingIsExact(r, input[1..]);
      } else if Value(input[0]).Some? {
        var v := Value(input[0]).value;
        ShiftIsExact(r, v);
        WrappingIsExact(Shift(r, v).0, input[1..]);
        var rest := Letters(input[1..]);
        if rest.Some? {
          assert ([v] + rest.value)[1..] == rest.value;
        }
      }
    }
  }

  // ---- Letters of an encoding ----------------------------------------------------------------

  /** The 6-bit values of a chunk: two, three or four of them. */
  function ChunkValues(chunk: seq<byte>): (vs: seq<sextet>)
    requires 1 <= |chunk| <= 3
  {
    var t := Triple(chunk);
    [(t / 0x4_0000) % 64, (t / 0x1000) % 64] +
    (if |chunk| > 1 then [(t / 64) % 64] else []) + (if |chunk| > 2 then [t % 64] else [])
  }

  function Values(data: seq<byte>): (vs: seq<sextet>) {
    if |data| == 0 then []
    else if |data| <= 3 then ChunkValues(data)
    else ChunkValues(data[..3]) + Values(data[3..])
  }

  lemma LetterStep(v: sextet, rest: seq<byte>)
    ensures Letters([Letter(v)] + rest) ==
            match Letters(rest) case None => None case Some(vs) => Some([v] + vs)
  {
    LetterValue(v);
    assert ([Letter(v)] + rest)[1..] == rest;
  }

  lemma PadStep(rest: seq<byte>)
    ensures Letters([PAD] + rest) == Letters(rest)
  {
    assert ([PAD] + rest)[1..] == rest;
  }

  lemma QuadLetters(v0: sextet, v1: sextet, v2: sextet, v3: sextet, rest: seq<byte>)
    ensures Letters([Letter(v0), Letter(v1), Letter(v2), Letter(v3)] + rest) ==
            match Letters(rest) case None => None case Some(vs) => Some([v0, v1, v2, v3] + vs)
  {
    var s1, s2, s3 := [Letter(v1), Letter(v2), Letter(v3)] + rest, [Letter(v2), Letter(v3)] + rest, [Letter(v3)] + rest;
    assert [Letter(v0), Letter(v1), Letter(v2), Letter(v3)] + rest == [Letter(v0)] + s1;
    assert s1 == [Letter(v1)] + s2;
    assert s2 == [Letter(v2)] + s3;
    LetterStep(v0, s1);
    LetterStep(v1, s2);
    LetterStep(v2, s3);
    LetterStep(v3, rest);
    if Letters(rest).Some? {
      var vs := Letters(rest).value;
      assert [v0] + ([v1] + ([v2] + ([v3] + vs))) == [v0, v1, v2, v3] + vs;
    }
  }

  lemma PaddedLetters(v0: sextet, v1: sextet, v2: sextet)
    ensures Letters([Letter(v0), Letter(v1), PAD, PAD]) == Some([v0, v1])
    ensures Letters([Letter(v0), Letter(v1), Letter(v2), PAD]) == Some([v0, v1, v2])
  {
    PadStep([]);
    PadStep([PAD]);
    assert [PAD] == [PAD] + [] && [PAD, PAD] == [PAD] + [PAD];
    assert Letters([PAD]) == Some([]) && Letters([PAD, PAD]) == Some([]);
    LetterStep(v1, [PAD, PAD]);
    assert [Letter(v1), PAD, PAD] == [Letter(v1)] + [PAD, PAD] && [v1] + [] == [v1];
    LetterStep(v0, [Letter(v1), PAD, PAD]);
    assert [Letter(v0), Letter(v1), PAD, PAD] == [Letter(v0)] + [Letter(v1), PAD, PAD] && [v0] + [v1] == [v0, v1];
    LetterStep(v2, [PAD]);
    assert [Letter(v2), PAD] == [Letter(v2)] + [PAD] && [v2] + [] == [v2];
    LetterStep(v1, [Letter(v2), PAD]);
    assert [Letter(v1), Letter(v2), PAD] == [Letter(v1)] + [Letter(v2), PAD] && [v1] + [v2] == [v1, v2];
    LetterStep(v0, [Letter(v1), Letter(v2), PAD]);
    assert [Letter(v0), Letter(v1), Letter(v2), PAD] == [Letter(v0)] + [Letter(v1), Letter(v2), PAD];
    assert [v0] + [v1, v2] == [v0, v1, v2];
  }

  lemma {:induction false} EncodeLetters(data: seq<byte>)
    ensures Letters(Encode(data)) == Some(Values(data))
    decreases |data|
  {
    if 1 <= |data| <= 2 {
      var t := Triple(data);
      var v0: sextet, v1: sextet, v2: sextet := (t / 0x4_0000) % 64, (t / 0x1000) % 64, (t / 64) % 64;
      PaddedLetters(v0, v1, v2);
      assert ChunkValues(data) == if |data| == 1 then [v0, v1] else [v0, v1, v2];
    } else if |data| >= 3 {
      var chunk, rest := data[..3], data[3..];
      EncodeLetters(rest);
      var t := Triple(chunk);
      QuadLetters((t / 0x4_0000) % 64, (t / 0x1000) % 64, (t / 64) % 64, t % 64, Encode(rest));
      assert ChunkValues(chunk) == [(t / 0x4_0000) % 64, (t / 0x1000) % 64, (t / 64) % 64, t % 64];
      if |data| == 3 {
        assert chunk == data && Encode(rest) == [] && Values(rest) == [];
        assert EncodeChunk(chunk) + [] == EncodeChunk(chunk) && ChunkValues(chunk) + [] == ChunkValues(chunk);
      }
      assert Encode(data) == EncodeChunk(chunk) + Encode(rest) && Values(data) == ChunkValues(chunk) + Values(rest);
    }
  }

  // ---- Bytes of a group ------------------------------------------------------------------------

  function Byte0(v0: sextet, v1: sextet): (b: byte) { (v0 as int * 64 + v1) / 16 }
  function Byte1(v1: sextet, v2: sextet): (b: byte) { ((v1 % 16) as int * 64 + v2) / 4 }
  function Byte2(v2: sextet, v3: sextet): (b: byte) { (v2 % 4) as int * 64 + v3 }

  lemma Phase0(v0: sextet, vs: seq<sextet>)
    ensures Bits(0, 0, [v0] + vs) == Bits(v0, 6, vs)
  {
    assert ([v0] + vs)[1..] == vs;
  }

  lemma Phase6(v0: sextet, v1: sextet, vs: seq<sextet>)
    ensures Bits(v0, 6, [v1] + vs) == [Byte0(v0, v1)] + Bits(v1 % 16, 4, vs)
  {
    assert ([v1] + vs)[1..] == vs;
    assert (v0 as int * 64 + v1) % 16 == v1 % 16;
  }

  lemma Phase4(v1: sextet, v2: sextet, vs: seq<sextet>)
    ensures Bits(v1 % 16, 4, [v2] + vs) == [Byte1(v1, v2)] + Bits(v2 % 4, 2, vs)
  {
    assert ([v2] + vs)[1..] == vs;
    assert ((v1 % 16) as int * 64 + v2) % 4 == v2 % 4;
  }

  lemma Phase2(v2: sextet, v3: sextet, vs: seq<sextet>)
    ensures Bits(v2 % 4, 2, [v3] + vs) == [Byte2(v2, v3)] + Bits(0, 0, vs)
  {
    assert ([v3] + vs)[1..] == vs;
  }

  /** Four values from a clean start give three bytes and leave a clean state. */
  lemma GroupOfFour(v0: sextet, v1: sextet, v2: sextet, v3: sextet, vs: seq<sextet>)
    ensures Bits(0, 0, [v0, v1, v2, v3] + vs) == [Byte0(v0, v1), Byte1(v1, v2), Byte2(v2, v3)] + Bits(0, 0, vs)
  {
    var s1, s2, s3 := [v1, v2, v3] + vs, [v2, v3] + vs, [v3] + vs;
    assert [v0, v1, v2, v3] + vs == [v0] + s1;
    assert s1 == [v1] + s2;
    assert s2 == [v2] + s3;
    Phase0(v0, s1);
    Phase6(v0, v1, s2);
    Phase4(v1, v2, s3);
    Phase2(v2, v3, vs);
  }

  lemma ShortGroups(v0: sextet, v1: sextet, v2: sextet)
    ensures Bits(0, 0, [v0, v1]) == [Byte0(v0, v1)]
    ensures Bits(0, 0, [v0, v1, v2]) == [Byte0(v0, v1), Byte1(v1, v2)]
  {
    assert [v0, v1] == [v0] + [v1] && [v1] == [v1] + [];
    assert [v0, v1, v2] == [v0] + [v1, v2] && [v1, v2] == [v1] + [v2] && [v2] == [v2] + [];
    Phase0(v0, [v1]);
    Phase6(v0, v1, []);
    Phase0(v0, [v1, v2]);
    Phase6(v0, v1, [v2]);
    Phase4(v1, v2, []);
  }

  // ---- Arithmetic of one triple -----------------------------------------------------------------

  /** Base-64 digits of a 24-bit number. */
  lemma Digits(v0: sextet, v1: sextet, v2: sextet, v3: sextet, t: int)
    requires t == v0 as int * 0x4_0000 + v1 as int * 0x1000 + v2 as int * 64 + v3
    ensures (t / 0x4_0000) % 64 == v0 && (t / 0x1000) % 64 == v1 && (t / 64) % 64 == v2 && t % 64 == v3
  {
    assert t / 64 == v0 as int * 0x1000 + v1 as int * 64 + v2;
    assert t / 0x1000 == v0 as int * 64 + v1;
    assert t / 0x4_0000 == v0;
  }

  /** Byte pieces `b0 = 4 h0 + l0`, `b1 = 16 h1 + l1`, `b2 = 64 h2 + l2` are the pieces of the digits. */
  lemma Pieces(b0: byte, b1: byte, b2: byte, h0: int, l0: int, h1: int, l1: int, h2: int, l2: int)
    requires 0 <= h0 < 64 && 0 <= l0 < 4 && b0 == 4 * h0 + l0
    requires 0 <= h1 < 16 && 0 <= l1 < 16 && b1 == 16 * h1 + l1
    requires 0 <= h2 < 4 && 0 <= l2 < 64 && b2 == 64 * h2 + l2
    ensures var t := b0 as int * 0x1_0000 + b1 as int * 0x100 + b2;
            && (t / 0x4_0000) % 64 == h0 && (t / 0x1000) % 64 == 16 * l0 + h1
            && (t / 64) % 64 == 4 * l1 + h2 && t % 64 == l2
  {
    Digits(h0, 16 * l0 + h1, 4 * l1 + h2, l2, b0 as int * 0x1_0000 + b1 as int * 0x100 + b2);
  }

  lemma PiecesToBytes(h0: int, l0: int, h1: int, l1: int, h2: int, l2: int)
    requires 0 <= h0 < 64 && 0 <= l0 < 4 && 0 <= h1 < 16 && 0 <= l1 < 16 && 0 <= h2 < 4 && 0 <= l2 < 64
    ensures Byte0(h0, 16 * l0 + h1) == 4 * h0 + l0
    ensures Byte1(16 * l0 + h1, 4 * l1 + h2) == 16 * h1 + l1
    ensures Byte2(4 * l1 + h2, l2) == 64 * h2 + l2
  {
    assert (16 * l0 + h1) % 16 == h1;
    assert (4 * l1 + h2) % 4 == h2;
  }

  /** The values of a triple give back its bytes. */
  lemma TripleBytes(b0: byte, b1: byte, b2: byte, t: nat)
    requires t == b0 as int * 0x1_0000 + b1 as int * 0x100 + b2
    ensures Byte0((t / 0x4_0000) % 64, (t / 0x1000) % 64) == b0
    ensures Byte1((t / 0x1000) % 64, (t / 64) % 64) == b1
    ensures Byte2((t / 64) % 64, t % 64) == b2
    ensures b1 == 0 && b2 == 0 ==> ((t / 0x1000) % 64) % 16 == 0
    ensures b2 == 0 ==> ((t / 64) % 64) % 4 == 0
  {
    var h0, l0, h1, l1, h2, l2 := b0 / 4, b0 % 4, b1 / 16, b1 % 16, b2 / 64, b2 % 64;
    Pieces(b0, b1, b2, h0, l0, h1, l1, h2, l2);
    PiecesToBytes(h0, l0, h1, l1, h2, l2);
  }

  /** And the bytes of four values give back the values. */
  lemma BytesTriple(v0: sextet, v1: sextet, v2: sextet, v3: sextet, t: nat)
    requires t == Byte0(v0, v1) as int * 0x1_0000 + Byte1(v1, v2) as int * 0x100 + Byte2(v2, v3)
    ensures (t / 0x4_0000) % 64 == v0 && (t / 0x1000) % 64 == v1 && (t / 64) % 64 == v2 && t % 64 == v3
  {
    var l0, h1, l1, h2 := v1 / 16, v1 % 16, v2 / 4, v2 % 4;
    PiecesToBytes(v0, l0, h1, l1, h2, v3);
    assert v1 == 16 * l0 + h1 && v2 == 4 * l1 + h2;
    Pieces(Byte0(v0, v1), Byte1(v1, v2), Byte2(v2, v3), v0, l0, h1, l1, h2, v3);
  }

  lemma {:induction false} BitsInvertValues(data: seq<byte>)
    ensures Bits(0, 0, Values(data)) == data
    decreases |data|
  {
    if |data| > 0 {
      var n := if |data| < 3 then |data| else 3;
      var chunk, rest := data[..n], data[n..];
      var t := Triple(chunk);
      TripleBytes(chunk[0], if n > 1 then chunk[1] else 0, if n > 2 then chunk[2] else 0, t);
      var v0: sextet, v1: sextet, v2: sextet, v3: sextet := (t / 0x4_0000) % 64, (t / 0x1000) % 64, (t / 64) % 64, t % 64;
      assert data == chunk + rest;
      if n < 3 {
        assert chunk == data;
        ShortGroups(v0, v1, v2);
        assert ChunkValues(data) == if n == 1 then [v0, v1] else [v0, v1, v2];
        assert data == if n == 1 then [data[0]] else [data[0], data[1]];
      } else {
        BitsInvertValues(rest);
        GroupOfFour(v0, v1, v2, v3, Values(rest));
        assert ChunkValues(chunk) == [v0, v1, v2, v3];
        if |data| == 3 {
          assert chunk == data && ChunkValues(chunk) + [] == ChunkValues(chunk);
        }
        assert Values(data) == [v0, v1, v2, v3] + Values(rest);
      }
    }
  }

  // ---- Main results --------------------------------------------------------------------------

  /** Lenient decoding inverts encoding for all byte strings, at exactly the right expected length. */
  lemma LenientInvertsEncode(data: seq<byte>, expectedLen: nat)
    ensures Lenient(Encode(data), expectedLen) == if expectedLen == |data| then Some(data) else None
  {
    WrappingIsExact(Registers(0, 0), Encode(data));
    EncodeLetters(data);
    BitsInvertValues(data);
  }

  /** Canonical decoding returns `d` for `s` exactly when `s` is the encoding of `d` and the length fits. */
  lemma CanonicalIff(s: seq<byte>, expectedLen: nat, d: seq<byte>)
    ensures Canonical(s, expectedLen) == Some(d) <==> s == Encode(d) && |d| == expectedLen
  {
    LenientInvertsEncode(d, expectedLen);
  }

  lemma EncodeInjective(a: seq<byte>, b: seq<byte>)
    requires Encode(a) == Encode(b)
    ensures a == b
  {
    LenientInvertsEncode(a, |a|);
    LenientInvertsEncode(b, |a|);
  }

  // ---- Which strings are canonical (RFC 4648 sections 3.5 and 4) -------------------------------

  predicate FullQuad(q: seq<byte>)
    requires |q| == 4
  {
    Value(q[0]).Some? && Value(q[1]).Some? && Value(q[2]).Some? && Value(q[3]).Some?
  }

  /** Three letters and a pad, the two unused bits zero. */
  predicate OnePadQuad(q: seq<byte>)
    requires |q| == 4
  {
    Value(q[0]).Some? && Value(q[1]).Some? && Value(q[2]).Some? && q[3] == PAD && Value(q[2]).value % 4 == 0
  }

  /** Two letters and two pads, the four unused bits zero. */
  predicate TwoPadQuad(q: seq<byte>)
    requires |q| == 4
  {
    Value(q[0]).Some? && Value(q[1]).Some? && q[2] == PAD && q[3] == PAD && Value(q[1]).value % 16 == 0
  }

  predicate WellFormed(s: seq<byte>) {
    || s == []
    || (|s| == 4 && (OnePadQuad(s) || TwoPadQuad(s)))
    || (|s| >= 4 && FullQuad(s[..4]) && WellFormed(s[4..]))
  }

  lemma FullQuadReencodes(q: seq<byte>) returns (d: seq<byte>)
    requires |q| == 4 && FullQuad(q)
    ensures |d| == 3 && EncodeChunk(d) == q
  {
    var v0, v1, v2, v3 := Value(q[0]).value, Value(q[1]).value, Value(q[2]).value, Value(q[3]).value;
    d := [Byte0(v0, v1), Byte1(v1, v2), Byte2(v2, v3)];
    BytesTriple(v0, v1, v2, v3, Triple(d));
    ValueLetter(q[0]);
    ValueLetter(q[1]);
    ValueLetter(q[2]);
    ValueLetter(q[3]);
  }

  lemma OnePadQuadReencodes(q: seq<byte>) returns (d: seq<byte>)
    requires |q| == 4 && OnePadQuad(q)
    ensures |d| == 2 && EncodeChunk(d) == q
  {
    var v0, v1, v2 := Value(q[0]).value, Value(q[1]).value, Value(q[2]).value;
    d := [Byte0(v0, v1), Byte1(v1, v2)];
    assert Byte2(v2, 0) == 0;
    BytesTriple(v0, v1, v2, 0, Triple(d));
    ValueLetter(q[0]);
    ValueLetter(q[1]);
    ValueLetter(q[2]);
  }

  lemma NoSpareBits(v0: sextet, v1: sextet, t: nat)
    requires v1 % 16 == 0 && t == Byte0(v0, v1) as int * 0x1_0000
    ensures (t / 0x4_0000) % 64 == v0 && (t / 0x1000) % 64 == v1
  {
    var l0 := v1 / 16;
    assert v1 == 16 * l0;
    assert Byte0(v0, v1) == 4 * v0 + l0;
    Digits(v0, v1, 0, 0, t);
  }

  lemma TwoPadQuadReencodes(q: seq<byte>) returns (d: seq<byte>)
    requires |q| == 4 && TwoPadQuad(q)
    ensures |d| == 1 && EncodeChunk(d) == q
  {
    var v0, v1 := Value(q[0]).value, Value(q[1]).value;
    d := [Byte0(v0, v1)];
    NoSpareBits(v0, v1, Triple(d));
    ValueLetter(q[0]);
    ValueLetter(q[1]);
  }

  lemma {:induction false} WellFormedIsEncoding(s: seq<byte>) returns (d: seq<byte>)
    requires WellFormed(s)
    ensures Encode(d) == s
    decreases |s|
  {
    if s == [] {
      d := [];
    } else if |s| == 4 && OnePadQuad(s) {
      d := OnePadQuadReencodes(s);
    } else if |s| == 4 && TwoPadQuad(s) {
      d := TwoPadQuadReencodes(s);
    } else {
      var head := FullQuadReencodes(s[..4]);
      var tail := WellFormedIsEncoding(s[4..]);
      d := head + tail;
      assert s == s[..4] + s[4..];
      if tail == [] {
        assert d == head && s == s[..4];
      } else {
        assert d[..3] == head && d[3..] == tail;
      }
    }
  }

  lemma {:induction false} EncodingIsWellFormed(d: seq<byte>)
    ensures WellFormed(Encode(d))
    decreases |d|
  {
    if |d| > 0 {
      var n := if |d| < 3 then |d| else 3;
      var chunk := d[..n];
      var t := Triple(chunk);
      TripleBytes(chunk[0], if n > 1 then chunk[1] else 0, if n > 2 then chunk[2] else 0, t);
      LetterValue((t / 0x4_0000) % 64);
      LetterValue((t / 0x1000) % 64);
      LetterValue((t / 64) % 64);
      LetterValue(t % 64);
      var q := EncodeChunk(chunk);
      if n < 3 {
        assert chunk == d;
        assert if n == 1 then TwoPadQuad(q) else OnePadQuad(q);
      } else {
        EncodingIsWellFormed(d[3..]);
        assert FullQuad(q);
        var s := Encode(d);
        assert s == q + Encode(d[3..]) by {
          if |d| == 3 {
            assert chunk == d && q + [] == q;
          }
        }
        assert s[..4] == q && s[4..] == Encode(d[3..]);
      }
    }
  }

  /** A string is accepted, for the one length it decodes to, exactly when it is well formed: padding only
      at the end, no line breaks, and all pad bits zero. */
  lemma CanonicalAcceptsWellFormed(s: seq<byte>)
    ensures WellFormed(s) <==> exists d: seq<byte> :: Canonical(s, |d|) == Some(d)
  {
    if WellFormed(s) {
      var d := WellFormedIsEncoding(s);
      CanonicalIff(s, |d|, d);
    }
    forall d: seq<byte> | Canonical(s, |d|) == Some(d)
      ensures WellFormed(s)
    {
      EncodingIsWellFormed(d);
    }
  }

  // ---- What the letters mean (RFC 4648 section 4) ----------------------------------------------

  const ALPHABET: string := CAPITALS + SMALLS + DIGITS + "+/"

  lemma LetterTable(v: sextet)
    ensures Letter(v) == ALPHABET[v] as int
  {
    AlphanumericsAt("+/", v);
  }

  lemma ValueTable(c: byte, v: sextet)
    ensures Value(c) == Some(v) <==> c == ALPHABET[v] as int
  {
    LetterTable(v);
    LetterValue(v);
    if Value(c).Some? {
      ValueLetter(c);
    }
  }

  lemma {:induction false} EncodeLength(data: seq<byte>)
    ensures |Encode(data)| == 4 * ((|data| + 2) / 3)
    decreases |data|
  {
    if |data| > 3 {
      EncodeLength(data[3..]);
    }
  }

  /** The text of one group: two letters, then letters or pads by the length of the group. */
  ghost predicate GroupText(q: seq<byte>, n: nat, v: seq<sextet>) {
    && |q| == 4 && |v| == 4
    && q[0] == ALPHABET[v[0]] as int && q[1] == ALPHABET[v[1]] as int
    && q[2] == (if n > 1 then ALPHABET[v[2]] else '=') as int
    && q[3] == (if n > 2 then ALPHABET[v[3]] else '=') as int
  }

  /** The 24 bits of bytes `i`, `i + 1`, `i + 2`, with zeros after the end. */
  ghost function Group(data: seq<byte>, i: nat): int
    requires i < |data|
  {
    data[i] as int * 0x1_0000 + (if i + 1 < |data| then data[i + 1] as int else 0) * 0x100
    + (if i + 2 < |data| then data[i + 2] as int else 0)
  }

  lemma ChunkMeans(chunk: seq<byte>) returns (v: seq<sextet>)
    requires 1 <= |chunk| <= 3
    ensures GroupText(EncodeChunk(chunk), |chunk|, v)
    ensures v[0] as int * 0x4_0000 + v[1] as int * 0x1000 + v[2] as int * 64 + v[3] == Group(chunk, 0)
  {
    var t := Triple(chunk);
    assert t == Group(chunk, 0);
    v := [(t / 0x4_0000) % 64, (t / 0x1000) % 64, (t / 64) % 64, t % 64];
    FourDigits(t);
    LetterTable(v[0]);
    LetterTable(v[1]);
    LetterTable(v[2]);
    LetterTable(v[3]);
  }

  lemma FourDigits(t: int)
    requires 0 <= t < 0x100_0000
    ensures (t / 0x4_0000) % 64 * 0x4_0000 + (t / 0x1000) % 64 * 0x1000 + (t / 64) % 64 * 64 + t % 64 == t
  {
    var a, b, c := t / 64, t / 0x1000, t / 0x4_0000;
    assert a / 64 == b && b / 64 == c;
  }

  /** Group `g` of the data, read as one 24-bit number, is group `g` of the text, read as four base-64 digits of
      the standard alphabet. */
  lemma {:induction false} EncodeMeans(data: seq<byte>, g: nat) returns (v: seq<sextet>)
    requires 3 * g < |data|
    ensures 4 * g + 4 <= |Encode(data)|
    ensures GroupText(Encode(data)[4 * g..4 * g + 4], |data| - 3 * g, v)
    ensures v[0] as int * 0x4_0000 + v[1] as int * 0x1000 + v[2] as int * 64 + v[3] == Group(data, 3 * g)
    decreases g
  {
    EncodeLength(data);
    if |data| <= 3 {
      v := ChunkMeans(data);
      assert Encode(data)[0..4] == EncodeChunk(data);
    } else if g == 0 {
      v := ChunkMeans(data[..3]);
      assert Encode(data)[0..4] == EncodeChunk(data[..3]);
    } else {
      v := EncodeMeans(data[3..], g - 1);
      assert Encode(data)[4 * g..4 * g + 4] == Encode(data[3..])[4 * (g - 1)..4 * (g - 1) + 4];
    }
  }

  // ---- What the lenient decoder takes ------------------------------------------------------------

  predicate Ignored(c: byte) {
    c == '=' as int || c == '\n' as int || c == '\r' as int
  }

  /** How many bytes of the input are not ignored. */
  function Weight(input: seq<byte>): (n: nat) {
    if input == [] then 0 else (if Ignored(input[0]) then 0 else 1) + Weight(input[1..])
  }

  lemma {:induction false} LettersIff(input: seq<byte>)
    ensures Letters(input).Some? <==>
              forall i :: 0 <= i < |input| ==> Ignored(input[i]) || exists v: sextet :: input[i] == ALPHABET[v] as int
    ensures Letters(input).Some? ==> |Letters(input).value| == Weight(input)
  {
    if input != [] {
      LettersIff(input[1..]);
      assert forall i :: 1 <= i < |input| ==> input[i] == input[1..][i - 1];
      assert Value(input[0]).Some? <==> exists v: sextet :: input[0] == ALPHABET[v] as int by {
        forall v: sextet
          ensures Value(input[0]) == Some(v) <==> input[0] == ALPHABET[v] as int
        {
          ValueTable(input[0], v);
        }
        if Value(input[0]).Some? {
          assert input[0] == ALPHABET[Value(input[0]).value] as int;
        }
      }
    }
  }

  lemma {:induction false} BitsLength(live: int, bits: int, vs: seq<sextet>)
    requires bits == 0 || bits == 2 || bits == 4 || bits == 6
    requires 0 <= live < Pow2(bits)
    ensures |Bits(live, bits, vs)| == (bits + 6 * |vs|) / 8
    decreases |vs|
  {
    if vs != [] {
      var (live', bits', out) := Exact(live, bits, vs[0]);
      BitsLength(live', bits', vs[1..]);
    }
  }

  /** The lenient decoder accepts an input for a length exactly if every byte is a letter of the alphabet or one of
      `=`, line feed and carriage return, and the letters fill exactly that many bytes. */
  lemma LenientIff(input: seq<byte>, expectedLen: nat)
    ensures Lenient(input, expectedLen).Some? <==>
              && (forall i :: 0 <= i < |input| ==> Ignored(input[i]) || exists v: sextet :: input[i] == ALPHABET[v] as int)
              && 6 * Weight(input) / 8 == expectedLen
  {
    LettersIff(input);
    LenientLength(input, expectedLen);
  }

  lemma LenientLength(input: seq<byte>, expectedLen: nat)
    ensures Lenient(input, expectedLen).Some? <==> Letters(input).Some? && 6 * |Letters(input).value| / 8 == expectedLen
  {
    WrappingIsExact(Registers(0, 0), input);
    if Letters(input).Some? {
      BitsLength(0, 0, Letters(input).value);
    }
  }
}
