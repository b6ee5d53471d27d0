/**
 Decoding of contract return data (Solidity Contract ABI Specification): words, addresses and strings.
 Sizes and offsets are 64-bit in the code; the theorems say that nothing is ever truncated by that.
 */
module Abi {
  import opened Core
  import Hex

  const TWO_128: int := 0x1_0000_0000_0000_0000_0000_0000_0000_0000

  /** The big-endian value of a byte string of any length. */
  function BigEndian(s: seq<byte>): (v: nat) {
    if s == [] then 0 else BigEndian(Front(s)) * 256 + Last(s)
  }

  function Pow256(n: nat): (p: nat)
    ensures p > 0
  {
    if n == 0 then 1 else Pow256(n - 1) * 256
  }

  predicate AllZero(s: seq<byte>) {
    forall i :: 0 <= i < |s| ==> s[i] == 0
  }

  // ---- The decoders ------------------------------------------------------------------------

  function ParseWordU128(bytes: seq<byte>): (v: Option<int>) {
    if |bytes| < 16 then None
    else if !AllZero(bytes[..|bytes| - 16]) then None
    else Some(BigEndian(bytes[|bytes| - 16..]))
  }

  function WordToUsize(word: seq<byte>): (v: Option<nat>) {
    if |word| != 32 || !AllZero(word[..24]) then None else Some(BigEndian(word[24..]))
  }

  function CheckedAdd(a: nat, b: nat): (r: Option<nat>) {
    if a + b < TWO_64 then Some(a + b) else None
  }

  /** `slice::get(from..to)`: never panics. */
  function Get(data: seq<byte>, from: nat, to: nat): (r: Option<seq<byte>>) {
    if from <= to <= |data| then Some(data[from..to]) else None
  }

  function UpToZero(data: seq<byte>): (r: seq<byte>) {
    if data == [] || data[0] == 0 then [] else [data[0]] + UpToZero(data[1..])
  }

  /** `utf8` is the validity test of `String::from_utf8`. */
  function DecodeAbiString(data: seq<byte>, utf8: seq<byte> -> bool): (s: Option<seq<byte>>) {
    if |data| < 64 then
      var trimmed := UpToZero(data);
      if utf8(trimmed) then Some(trimmed) else None
    else
      match WordToUsize(data[0..32])
      case None => None
      case Some(offset) =>
        match CheckedAdd(offset, 32)
        case None => None
        case Some(start) =>
          match Get(data, offset, start)
          case None => None
          case Some(word) =>
            match WordToUsize(word)
            case None => None
            case Some(length) =>
              match CheckedAdd(start, length)
              case None => None
              case Some(end) =>
                match Get(data, start, end)
                case None => None
                case Some(encoded) => if utf8(encoded) then Some(encoded) else None
  }

  function AddressWord(address: seq<byte>): (w: Option<seq<byte>>) {
    match Hex.Decode(address)
    case None => None
    case Some(bytes) => if |bytes| != 20 then None else Some(Zeros(12) + bytes)
  }

  function Zeros(n: nat): (s: seq<byte>)
    ensures |s| == n && AllZero(s)
  {
    seq(n, i => 0)
  }

  // ---- Big-endian arithmetic -----------------------------------------------------------------

  lemma {:induction false} BigEndianBound(s: seq<byte>)
    ensures BigEndian(s) < Pow256(|s|)
  {
    if s != [] {
      BigEndianBound(Front(s));
    }
  }

  lemma ShiftByte(x: nat, p: nat, y: nat)
    ensures (x * p + y) * 256 == x * (p * 256) + y * 256
  {
  }

  lemma {:induction false} BigEndianSplit(a: seq<byte>, b: seq<byte>)
    ensures BigEndian(a + b) == BigEndian(a) * Pow256(|b|) + BigEndian(b)
  {
    if b == [] {
      assert a + b == a;
    } else {
      BigEndianSplit(a, Front(b));
      assert Front(a + b) == a + Front(b) && Last(a + b) == Last(b);
      ShiftByte(BigEndian(a), Pow256(|b| - 1), BigEndian(Front(b)));
    }
  }

  /** A byte string is worth zero exactly when all its bytes are. */
  lemma {:induction false} ZeroIffAllZero(s: seq<byte>)
    ensures BigEndian(s) == 0 <==> AllZero(s)
  {
    if s != [] {
      ZeroIffAllZero(Front(s));
      if AllZero(s) {
        assert s[|s| - 1] == 0;
      }
      if AllZero(Front(s)) && Last(s) == 0 {
        forall i | 0 <= i < |s|
          ensures s[i] == 0
        {
          if i < |s| - 1 {
            assert s[i] == Front(s)[i];
          }
        }
      }
    }
  }

  lemma ScaledSum(x: nat, p: nat, y: nat)
    requires y < p
    ensures x == 0 <==> x * p + y < p
  {
    if x > 0 {
      assert x * p >= p;
    }
  }

  /** The high part is zero exactly when the whole value fits into the low part. */
  lemma HighPartZero(high: seq<byte>, low: seq<byte>)
    ensures AllZero(high) <==> BigEndian(high + low) < Pow256(|low|)
    ensures AllZero(high) ==> BigEndian(high + low) == BigEndian(low)
  {
    BigEndianSplit(high, low);
    BigEndianBound(low);
    ZeroIffAllZero(high);
    ScaledSum(BigEndian(high), Pow256(|low|), BigEndian(low));
  }

  lemma Pow256Values()
    ensures Pow256(8) == TWO_64 && Pow256(16) == TWO_128
  {
    assert Pow256(4) == 0x1_0000_0000;
    assert Pow256(8) == Pow256(4) * 0x1_0000_0000;
    assert Pow256(12) == Pow256(8) * 0x1_0000_0000;
    assert Pow256(16) == Pow256(12) * 0x1_0000_0000;
  }

  // ---- Main results ----------------------------------------------------------------------------

  lemma ParseWordExact(bytes: seq<byte>)
    ensures ParseWordU128(bytes) ==
            if |bytes| >= 16 && BigEndian(bytes) < TWO_128 then Some(BigEndian(bytes)) else None
  {
    if |bytes| >= 16 {
      var high, low := bytes[..|bytes| - 16], bytes[|bytes| - 16..];
      assert bytes == high + low;
      HighPartZero(high, low);
      Pow256Values();
    }
  }

  /** A balance is exact or refused, never truncated: the result is `v` exactly when the whole buffer is
      the big-endian value `v` and `v` fits into 128 bits. */
  lemma ParseWordIff(bytes: seq<byte>, v: int)
    ensures ParseWordU128(bytes) == Some(v) <==> |bytes| >= 16 && BigEndian(bytes) == v && v < TWO_128
  {
    ParseWordExact(bytes);
  }

  lemma WordExact(word: seq<byte>)
    ensures WordToUsize(word) ==
            if |word| == 32 && BigEndian(word) < TWO_64 then Some(BigEndian(word)) else None
  {
    if |word| == 32 {
      var high, low := word[..24], word[24..];
      assert word == high + low;
      HighPartZero(high, low);
      Pow256Values();
    }
  }

  /** The specification in unbounded arithmetic: offset and length are full 256-bit numbers. */
  ghost predicate EncodesAt(data: seq<byte>, s: seq<byte>)
    requires |data| >= 64
  {
    var offset := BigEndian(data[..32]);
    && offset + 32 <= |data|
    && var length := BigEndian(data[offset..offset + 32]);
       && offset + 32 + length <= |data|
       && s == data[offset + 32..offset + 32 + length]
  }

  /** A short buffer stands for what precedes its first zero byte. */
  ghost predicate PadsOut(data: seq<byte>, s: seq<byte>) {
    s <= data && 0 !in s && (|s| < |data| ==> data[|s|] == 0)
  }

  /** Which string a buffer stands for: a right-padded one if it is short, a located one otherwise. */
  ghost predicate Denotes(data: seq<byte>, s: seq<byte>) {
    if |data| < 64 then PadsOut(data, s) else EncodesAt(data, s)
  }

  lemma {:induction false} UpToZeroPadsOut(data: seq<byte>)
    ensures PadsOut(data, UpToZero(data))
  {
    if data != [] && data[0] != 0 {
      UpToZeroPadsOut(data[1..]);
      assert data == [data[0]] + data[1..];
    }
  }

  lemma PadsOutUnique(data: seq<byte>, r: seq<byte>, s: seq<byte>)
    requires PadsOut(data, r) && PadsOut(data, s)
    ensures r == s
  {
    assert |r| == |s|;
  }

  /** The checked 64-bit decoder meets the unbounded specification on every buffer that can exist. */
  lemma DecodeAbiStringIff(data: seq<byte>, utf8: seq<byte> -> bool, s: seq<byte>)
    requires |data| < TWO_64
    ensures DecodeAbiString(data, utf8) == Some(s) <==> Denotes(data, s) && utf8(s)
  {
    if |data| < 64 {
      UpToZeroPadsOut(data);
      if PadsOut(data, s) {
        PadsOutUnique(data, s, UpToZero(data));
      }
    } else {
      var offset := BigEndian(data[..32]);
      assert data[0..32] == data[..32];
      WordExact(data[..32]);
      if offset + 32 <= |data| {
        WordExact(data[offset..offset + 32]);
      }
    }
  }

  /** A 32-byte word holding `n`. */
  function Word(n: nat): (w: seq<byte>)
  {
    Digits(n, 32)
  }

  function Digits(n: nat, width: nat): (w: seq<byte>)
    ensures |w| == width
  {
    if width == 0 then [] else Digits(n / 256, width - 1) + [n % 256]
  }

  lemma {:induction false} DigitsValue(n: nat, width: nat)
    requires n < Pow256(width)
    ensures BigEndian(Digits(n, width)) == n
  {
    if width > 0 {
      assert n / 256 < Pow256(width - 1);
      DigitsValue(n / 256, width - 1);
      FrontOfAppend(Digits(n / 256, width - 1), n % 256);
    }
  }

  lemma WordValue(n: nat)
    requires n < TWO_64
    ensures BigEndian(Word(n)) == n
  {
    Pow256Values();
    Pow256Grows(8, 32);
    DigitsValue(n, 32);
  }

  lemma {:induction false} Pow256Grows(a: nat, b: nat)
    requires a <= b
    ensures Pow256(a) <= Pow256(b)
  {
    if a < b {
      Pow256Grows(a, b - 1);
    }
  }

  /** The standard encoding of a dynamic string as the only return value, with any zero padding. */
  function StandardEncoding(s: seq<byte>, padding: nat): (data: seq<byte>) {
    Word(32) + Word(|s|) + s + Zeros(padding)
  }

  lemma DecodeInvertsStandardEncoding(s: seq<byte>, padding: nat, utf8: seq<byte> -> bool)
    requires 64 + |s| + padding < TWO_64 && utf8(s)
    ensures DecodeAbiString(StandardEncoding(s, padding), utf8) == Some(s)
  {
    var data := StandardEncoding(s, padding);
    WordValue(32);
    WordValue(|s|);
    StandardLayout(Word(32), Word(|s|), s, Zeros(padding));
    DecodeAbiStringIff(data, utf8, s);
  }

  lemma StandardLayout(a: seq<byte>, b: seq<byte>, s: seq<byte>, z: seq<byte>)
    requires |a| == 32 && |b| == 32
    ensures var data := a + b + s + z;
            data[..32] == a && data[32..64] == b && data[64..64 + |s|] == s
  {
  }

  /** An address is encoded as the 32-byte word with the same value, and only 20-byte addresses are. */
  lemma AddressWordValue(address: seq<byte>)
    ensures AddressWord(address).Some? <==> Hex.Decode(address).Some? && |Hex.Decode(address).value| == 20
    ensures AddressWord(address).Some? ==>
              |AddressWord(address).value| == 32 && BigEndian(AddressWord(address).value) == BigEndian(Hex.Decode(address).value)
  {
    if AddressWord(address).Some? {
      HighPartZero(Zeros(12), Hex.Decode(address).value);
    }
  }
}
