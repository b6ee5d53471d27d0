/**
 Percent-encoding of query values (RFC 3986 sections 2.1 and 2.3) and the request targets built from
 it: splitting such a target on `?`, `&` and `=` and decoding recovers exactly what was put in.
 */
module Percent {
  import opened Core
  import opened Text
  import Hex

  const PERCENT: byte := 37
  const AMPERSAND: byte := 38
  const EQUALS: byte := 61
  const QUESTION: byte := 63

  predicate Unreserved(c: byte) {
    || 65 <= c <= 90 || 97 <= c <= 122 || 48 <= c <= 57
    || c == 45 || c == 95 || c == 46 || c == 126
  }

  function UpperDigit(v: Hex.nibble): (c: byte) {
    if v < 10 then 48 + v else 55 + v
  }

  /** An unreserved byte as is, any other as `%` and two upper-case digits. */
  function EncodeByte(c: byte): (s: seq<byte>) {
    if Unreserved(c) then [c] else [PERCENT, UpperDigit(c / 16), UpperDigit(c % 16)]
  }

  function Encode(value: seq<byte>): (s: seq<byte>) {
    if value == [] then [] else EncodeByte(value[0]) + Encode(value[1..])
  }

  const UNRESERVED: string := CAPITALS + SMALLS + DIGITS + "-_.~"

  /** A byte stands for itself exactly if RFC 3986 section 2.3 lists its character; any other is `%` and its two
      upper-case digits. */
  lemma EncodeByteTable(c: byte)
    ensures EncodeByte(c) ==
            if exists i :: 0 <= i < |UNRESERVED| && c == UNRESERVED[i] as int then [c]
            else ['%' as int, Hex.UPPER_DIGITS[c / 16] as int, Hex.UPPER_DIGITS[c % 16] as int]
  {
    UnreservedTable(c);
  }

  lemma UnreservedTable(c: byte)
    ensures Unreserved(c) <==> exists i :: 0 <= i < |UNRESERVED| && c == UNRESERVED[i] as int
  {
    forall i | 0 <= i < |UNRESERVED|
      ensures Unreserved(UNRESERVED[i] as int)
    {
      UnreservedAt(i);
    }
    if Unreserved(c) {
      var i := if 65 <= c <= 90 then c - 65 else if 97 <= c <= 122 then c - 71 else if 48 <= c <= 57 then c + 4
               else if c == 45 then 62 else if c == 95 then 63 else if c == 46 then 64 else 65;
      AlphanumericsAt("-_.~", i);
      assert c == UNRESERVED[i] as int;
    }
  }

  lemma UnreservedAt(i: nat)
    requires i < |UNRESERVED|
    ensures (UNRESERVED[i] as int) < 256 && Unreserved(UNRESERVED[i] as int)
  {
    AlphanumericsAt("-_.~", i);
  }

  lemma EncodeStep(out: seq<byte>, value: seq<byte>, i: nat)
    requires i < |value|
    ensures out + Encode(value[i..]) == (out + EncodeByte(value[i])) + Encode(value[i + 1..])
  {
    assert value[i..][1..] == value[i + 1..];
    var e, rest := EncodeByte(value[i]), Encode(value[i + 1..]);
    assert out + (e + rest) == (out + e) + rest;
  }

  /** The loop of `percent_encode` and, word for word, of `encode_query_component`. */
  method PercentEncode(value: seq<byte>) returns (out: seq<byte>)
    ensures out == Encode(value)
  {
    out := [];
    for i := 0 to |value|
      invariant out + Encode(value[i..]) == Encode(value)
    {
      EncodeStep(out, value, i);
      var c := value[i];
      out := out + if Unreserved(c) then [c] else [PERCENT, UpperDigit(c / 16), UpperDigit(c % 16)];
    }
    assert out + [] == out;
  }

  /** The reference reader: `%` takes two hex digits, anything else stands for itself. */
  function Decode(s: seq<byte>): (v: Option<seq<byte>>)
    decreases |s|
  {
    if s == [] then Some([])
    else if s[0] == PERCENT then
      if |s| < 3 || Hex.DigitValue(s[1]).None? || Hex.DigitValue(s[2]).None? then None
      else Cons(Hex.DigitValue(s[1]).value as int * 16 + Hex.DigitValue(s[2]).value, Decode(s[3..]))
    else Cons(s[0], Decode(s[1..]))
  }

  function Cons(b: byte, v: Option<seq<byte>>): (r: Option<seq<byte>>) {
    match v
    case None => None
    case Some(bytes) => Some([b] + bytes)
  }

  lemma ByteRoundTrip(c: byte, rest: seq<byte>)
    ensures Decode(EncodeByte(c) + rest) == Cons(c, Decode(rest))
  {
    var s := EncodeByte(c) + rest;
    if Unreserved(c) {
      assert s[1..] == rest;
    } else {
      assert s[3..] == rest;
      EscapeDigits(c / 16);
      EscapeDigits(c % 16);
    }
  }

  lemma EscapeDigits(v: Hex.nibble)
    ensures Hex.DigitValue(UpperDigit(v)) == Some(v)
  {
  }

  /** Decoding inverts encoding, so encoding is injective. */
  lemma {:induction false} DecodeInvertsEncode(value: seq<byte>)
    ensures Decode(Encode(value)) == Some(value)
  {
    if value != [] {
      DecodeInvertsEncode(value[1..]);
      ByteRoundTrip(value[0], Encode(value[1..]));
      assert [value[0]] + value[1..] == value;
    }
  }

  lemma EncodeInjective(a: seq<byte>, b: seq<byte>)
    requires Encode(a) == Encode(b)
    ensures a == b
  {
    DecodeInvertsEncode(a);
    DecodeInvertsEncode(b);
  }

  // ---- Queries ----------------------------------------------------------------------------

  /** Free of every byte that has a meaning in a query. */
  predicate Clean(s: seq<byte>) {
    forall i :: 0 <= i < |s| ==> s[i] != AMPERSAND && s[i] != EQUALS && s[i] != QUESTION
  }

  lemma {:induction false} EncodeIsClean(value: seq<byte>)
    ensures Clean(Encode(value))
  {
    if value != [] {
      EncodeIsClean(value[1..]);
    }
  }

  /** A cleanly spelled value without escapes is read back as itself. */
  lemma {:induction false} PlainDecodes(s: seq<byte>)
    requires forall i :: 0 <= i < |s| ==> s[i] != PERCENT
    ensures Decode(s) == Some(s)
  {
    if s != [] {
      PlainDecodes(s[1..]);
      assert [s[0]] + s[1..] == s;
    }
  }

  datatype Param = Param(name: seq<byte>, value: seq<byte>)

  function Join(ps: seq<Param>): (q: seq<byte>) {
    if ps == [] then []
    else if |ps| == 1 then ps[0].name + [EQUALS] + ps[0].value
    else ps[0].name + [EQUALS] + ps[0].value + [AMPERSAND] + Join(ps[1..])
  }

  function Target(path: seq<byte>, ps: seq<Param>): (uri: seq<byte>) {
    path + [QUESTION] + Join(ps)
  }

  /** Length of the longest prefix without `sep`. */
  function Until(s: seq<byte>, sep: byte): (n: nat)
    ensures n <= |s|
    ensures forall i :: 0 <= i < n ==> s[i] != sep
    ensures n < |s| ==> s[n] == sep
  {
    if s == [] || s[0] == sep then 0 else 1 + Until(s[1..], sep)
  }

  lemma UntilAt(a: seq<byte>, sep: byte, b: seq<byte>)
    requires forall i :: 0 <= i < |a| ==> a[i] != sep
    ensures Until(a + [sep] + b, sep) == |a|
    ensures Until(a, sep) == |a|
  {
    var s := a + [sep] + b;
    assert s[|a|] == sep;
    assert forall i :: 0 <= i < |a| ==> s[i] == a[i];
  }

  function ReadParam(s: seq<byte>): (p: Param) {
    var n := Until(s, EQUALS);
    if n == |s| then Param(s, []) else Param(s[..n], s[n + 1..])
  }

  /** The reference reader of a query: cut at `&`, then at the first `=`. */
  function ReadParams(s: seq<byte>): (ps: seq<Param>)
    decreases |s|
  {
    if s == [] then []
    else
      var n := Until(s, AMPERSAND);
      if n == |s| then [ReadParam(s)] else [ReadParam(s[..n])] + ReadParams(s[n + 1..])
  }

  function DecodeParams(ps: seq<Param>): (r: Option<seq<Param>>) {
    if ps == [] then Some([])
    else
      var v, rest := Decode(ps[0].value), DecodeParams(ps[1..]);
      if v.None? || rest.None? then None else Some([Param(ps[0].name, v.value)] + rest.value)
  }

  /** What a server reads out of a request target. */
  function Read(uri: seq<byte>): (ps: Option<seq<Param>>) {
    var n := Until(uri, QUESTION);
    if n == |uri| then Some([]) else DecodeParams(ReadParams(uri[n + 1..]))
  }

  lemma ReadOneParam(p: Param)
    requires Clean(p.name) && Clean(p.value)
    ensures ReadParam(p.name + [EQUALS] + p.value) == p
  {
    var s := p.name + [EQUALS] + p.value;
    UntilAt(p.name, EQUALS, p.value);
    assert s[..|p.name|] == p.name && s[|p.name| + 1..] == p.value;
  }

  /** The reader cuts one parameter off a longer query. */
  lemma ReadFirst(first: seq<byte>, rest: seq<byte>)
    requires first != [] && forall i :: 0 <= i < |first| ==> first[i] != AMPERSAND
    ensures ReadParams(first + [AMPERSAND] + rest) == [ReadParam(first)] + ReadParams(rest)
    ensures ReadParams(first) == [ReadParam(first)]
  {
    var s := first + [AMPERSAND] + rest;
    UntilAt(first, AMPERSAND, rest);
    assert s[..|first|] == first && s[|first| + 1..] == rest;
  }

  lemma CleanParam(p: Param)
    requires Clean(p.name) && Clean(p.value)
    ensures var s := p.name + [EQUALS] + p.value;
            s != [] && forall i :: 0 <= i < |s| ==> s[i] != AMPERSAND
  {
  }

  lemma {:induction false} ReadJoin(ps: seq<Param>)
    requires forall i :: 0 <= i < |ps| ==> Clean(ps[i].name) && Clean(ps[i].value)
    ensures ReadParams(Join(ps)) == ps
  {
    if ps != [] {
      var p := ps[0];
      var first := p.name + [EQUALS] + p.value;
      CleanParam(p);
      ReadOneParam(p);
      ReadFirst(first, Join(ps[1..]));
      if |ps| > 1 {
        ReadJoin(ps[1..]);
      }
      assert ps == [p] + ps[1..];
    }
  }

  lemma ReadTarget(path: seq<byte>, ps: seq<Param>)
    requires forall i :: 0 <= i < |path| ==> path[i] != QUESTION
    requires forall i :: 0 <= i < |ps| ==> Clean(ps[i].name) && Clean(ps[i].value)
    ensures Read(Target(path, ps)) == DecodeParams(ps)
  {
    UntilAt(path, QUESTION, Join(ps));
    var uri := Target(path, ps);
    assert uri[|path| + 1..] == Join(ps);
    ReadJoin(ps);
  }

  // ---- The targets the repository builds -----------------------------------------------------

  /** The bytes of an ASCII literal. */
  function Ascii(s: string): (b: seq<byte>)
    requires forall i :: 0 <= i < |s| ==> s[i] as int < 128
    ensures |b| == |s|
    ensures forall i :: 0 <= i < |s| ==> b[i] == s[i] as int
  {
    seq(|s|, i requires 0 <= i < |s| => s[i] as int)
  }

  const PAYLOAD_TO_SIGN: seq<byte> := Ascii("/v1/payload-to-sign")
  const IDEMPOTENCY_KEY: seq<byte> := Ascii("idempotency_key")
  const INTENT_ID: seq<byte> := Ascii("intent_id")
  const SIGNED_PAYLOAD: seq<byte> := Ascii("/v1/signed-payload")
  const REFERENCE: seq<byte> := Ascii("reference")
  const ACTIVITY: seq<byte> := Ascii("/market/activity")
  const SYMBOL: seq<byte> := Ascii("symbol")
  const LIMIT: seq<byte> := Ascii("limit")
  const CURSOR: seq<byte> := Ascii("cursor")

  function PayloadToSign(key: seq<byte>, intent: seq<byte>): (uri: seq<byte>) {
    Target(PAYLOAD_TO_SIGN,
           [Param(IDEMPOTENCY_KEY, Encode(key)), Param(INTENT_ID, Encode(intent))])
  }

  function SignedPayload(reference: seq<byte>): (uri: seq<byte>) {
    Target(SIGNED_PAYLOAD, [Param(REFERENCE, Encode(reference))])
  }

  /** Two encoded values under clean names are read back as they were. */
  lemma ReadTwo(path: seq<byte>, first: seq<byte>, x: seq<byte>, second: seq<byte>, y: seq<byte>)
    requires Clean(path) && Clean(first) && Clean(second)
    ensures Read(Target(path, [Param(first, Encode(x)), Param(second, Encode(y))])) == Some([Param(first, x), Param(second, y)])
  {
    EncodeIsClean(x);
    EncodeIsClean(y);
    DecodeInvertsEncode(x);
    DecodeInvertsEncode(y);
    var a, b := Param(first, Encode(x)), Param(second, Encode(y));
    ReadTarget(path, [a, b]);
    DecodeTwo(a, b);
  }

  /** The signing service reads back exactly the idempotency key and the intent id, whatever bytes they hold. */
  lemma PayloadToSignIsExact(key: seq<byte>, intent: seq<byte>)
    ensures Read(PayloadToSign(key, intent))
         == Some([Param(IDEMPOTENCY_KEY, key), Param(INTENT_ID, intent)])
  {
    SigningNames();
    ReadTwo(PAYLOAD_TO_SIGN, IDEMPOTENCY_KEY, key, INTENT_ID, intent);
  }

  lemma SigningNames()
    ensures Clean(IDEMPOTENCY_KEY) && Clean(INTENT_ID) && Clean(PAYLOAD_TO_SIGN)
  {
  }

  lemma DecodeCons(p: Param, ps: seq<Param>)
    requires Decode(p.value).Some? && DecodeParams(ps).Some?
    ensures DecodeParams([p] + ps) == Some([Param(p.name, Decode(p.value).value)] + DecodeParams(ps).value)
  {
    assert ([p] + ps)[1..] == ps;
  }

  lemma DecodeTwo(a: Param, b: Param)
    requires Decode(a.value).Some? && Decode(b.value).Some?
    ensures DecodeParams([a, b]) == Some([Param(a.name, Decode(a.value).value), Param(b.name, Decode(b.value).value)])
    ensures DecodeParams([b]) == Some([Param(b.name, Decode(b.value).value)])
  {
    var x, y := Param(a.name, Decode(a.value).value), Param(b.name, Decode(b.value).value);
    assert [b] == [b] + [] && [a, b] == [a] + [b] && [y] + [] == [y] && [x] + [y] == [x, y];
    DecodeCons(b, []);
    DecodeCons(a, [b]);
  }

  lemma SignedPayloadIsExact(reference: seq<byte>)
    ensures Read(SignedPayload(reference)) == Some([Param(REFERENCE, reference)])
  {
    EncodeIsClean(reference);
    DecodeInvertsEncode(reference);
    var a := Param(REFERENCE, Encode(reference));
    ReadTarget(SIGNED_PAYLOAD, [a]);
    DecodeTwo(a, a);
  }

  // ---- The activity page -------------------------------------------------------------------

  const MAX_CURSOR_LEN: nat := 256
  const MAX_INTEL_LIMIT: nat := 100

  function Clamp(limit: nat): (r: nat) {
    if limit < 1 then 1 else if limit > MAX_INTEL_LIMIT then MAX_INTEL_LIMIT else limit
  }

  function Decimal(n: nat): (s: seq<byte>)
    ensures |s| > 0 && forall i :: 0 <= i < |s| ==> 48 <= s[i] <= 57
  {
    if n < 10 then [48 + n] else Decimal(n / 10) + [48 + n % 10]
  }

  /** The reference reader of a number: decimal digits, the most significant first, without a leading zero. */
  function ReadNumber(s: seq<byte>): (n: Option<nat>) {
    if s == [] || (|s| > 1 && s[0] == 48) then None else ReadDigits(0, s)
  }

  function ReadDigits(v: nat, s: seq<byte>): (n: Option<nat>)
    decreases |s|
  {
    if s == [] then Some(v)
    else if 48 <= s[0] <= 57 then ReadDigits(10 * v + (s[0] - 48), s[1..])
    else None
  }

  lemma {:induction false} ReadDigitsAppend(v: nat, s: seq<byte>, d: byte)
    requires ReadDigits(v, s).Some? && 48 <= d <= 57
    ensures ReadDigits(v, s + [d]) == Some(10 * ReadDigits(v, s).value + (d - 48))
    decreases |s|
  {
    if s == [] {
      assert (s + [d])[1..] == [];
    } else {
      assert (s + [d])[1..] == s[1..] + [d];
      ReadDigitsAppend(10 * v + (s[0] - 48), s[1..], d);
    }
  }

  /** A printed number reads back as itself. */
  lemma {:induction false} DecimalReads(n: nat)
    ensures ReadDigits(0, Decimal(n)) == Some(n) && (|Decimal(n)| > 1 ==> Decimal(n)[0] != 48)
    ensures ReadNumber(Decimal(n)) == Some(n)
    ensures n > 0 ==> Decimal(n)[0] != 48
  {
    if n >= 10 {
      DecimalReads(n / 10);
      ReadDigitsAppend(0, Decimal(n / 10), 48 + n % 10);
    }
  }

  /** The page size a server should read for a requested limit. */
  predicate LimitFor(limit: nat, n: nat) {
    if limit < 1 then n == 1 else if limit > 100 then n == 100 else n == limit
  }

  /** `symbol` is `address:networkId`; `cursor` has been trimmed. An empty or over-long cursor is refused. */
  function Activity(base: seq<byte>, symbol: seq<byte>, limit: nat, cursor: Option<seq<byte>>): (uri: Option<seq<byte>>) {
    var head := [Param(SYMBOL, symbol), Param(LIMIT, Decimal(Clamp(limit)))];
    match cursor
    case None => Some(Target(base + ACTIVITY, head))
    case Some(c) =>
      if c == [] || |c| > MAX_CURSOR_LEN then None
      else Some(Target(base + ACTIVITY, head + [Param(CURSOR, Encode(c))]))
  }

  /** What a server should read: the symbol, the limit brought into 1 to 100, and the cursor, if there is one. */
  ghost predicate ReadsAs(ps: Option<seq<Param>>, symbol: seq<byte>, limit: nat, cursor: Option<seq<byte>>) {
    && ps.Some? && |ps.value| == (if cursor.Some? then 3 else 2)
    && ps.value[0] == Param(SYMBOL, symbol)
    && ps.value[1].name == LIMIT
    && ReadNumber(ps.value[1].value).Some? && LimitFor(limit, ReadNumber(ps.value[1].value).value)
    && (cursor.Some? ==> ps.value[2] == Param(CURSOR, cursor.value))
  }

  /** No cursor can alter the request: symbol, clamped limit and the exact cursor are what is read. */
  lemma ActivityIsExact(base: seq<byte>, symbol: seq<byte>, limit: nat, cursor: seq<byte>)
    requires forall i :: 0 <= i < |base| ==> base[i] != QUESTION
    requires Clean(symbol) && forall i :: 0 <= i < |symbol| ==> symbol[i] != PERCENT
    requires 0 < |cursor| <= MAX_CURSOR_LEN
    ensures Activity(base, symbol, limit, Some(cursor)).Some?
    ensures ReadsAs(Read(Activity(base, symbol, limit, Some(cursor)).value), symbol, limit, Some(cursor))
  {
    var a, b, c := Param(SYMBOL, symbol), Param(LIMIT, Decimal(Clamp(limit))), Param(CURSOR, Encode(cursor));
    EncodeIsClean(cursor);
    DecodeInvertsEncode(cursor);
    PlainDecodes(symbol);
    PlainDecodes(b.value);
    DecimalReads(Clamp(limit));
    ActivityNames();
    var path := base + ACTIVITY;
    assert forall i :: 0 <= i < |path| ==> path[i] == if i < |base| then base[i] else ACTIVITY[i - |base|];
    ThreeParamsRead(path, a, b, c);
    assert [a, b] + [c] == [a, b, c];
  }

  lemma ActivityWithoutCursor(base: seq<byte>, symbol: seq<byte>, limit: nat)
    requires forall i :: 0 <= i < |base| ==> base[i] != QUESTION
    requires Clean(symbol) && forall i :: 0 <= i < |symbol| ==> symbol[i] != PERCENT
    ensures Activity(base, symbol, limit, None).Some?
    ensures ReadsAs(Read(Activity(base, symbol, limit, None).value), symbol, limit, None)
  {
    var a, b := Param(SYMBOL, symbol), Param(LIMIT, Decimal(Clamp(limit)));
    PlainDecodes(symbol);
    PlainDecodes(b.value);
    DecimalReads(Clamp(limit));
    ActivityNames();
    var path := base + ACTIVITY;
    assert forall i :: 0 <= i < |path| ==> path[i] == if i < |base| then base[i] else ACTIVITY[i - |base|];
    ReadTarget(path, [a, b]);
    DecodeTwo(a, b);
  }

  lemma ActivityIff(base: seq<byte>, symbol: seq<byte>, limit: nat, cursor: Option<seq<byte>>)
    requires forall i :: 0 <= i < |base| ==> base[i] != QUESTION
    requires Clean(symbol) && forall i :: 0 <= i < |symbol| ==> symbol[i] != PERCENT
    ensures Activity(base, symbol, limit, cursor).Some? <==> (cursor.Some? ==> 0 < |cursor.value| <= MAX_CURSOR_LEN)
    ensures Activity(base, symbol, limit, cursor).Some? ==>
              ReadsAs(Read(Activity(base, symbol, limit, cursor).value), symbol, limit, cursor)
  {
    if cursor.None? {
      ActivityWithoutCursor(base, symbol, limit);
    } else if 0 < |cursor.value| <= MAX_CURSOR_LEN {
      ActivityIsExact(base, symbol, limit, cursor.value);
    }
  }

  /** Each request goes to its own path. */
  lemma Paths(key: seq<byte>, intent: seq<byte>, reference: seq<byte>, base: seq<byte>, symbol: seq<byte>, limit: nat, cursor: Option<seq<byte>>)
    ensures PAYLOAD_TO_SIGN + [QUESTION] <= PayloadToSign(key, intent)
    ensures SIGNED_PAYLOAD + [QUESTION] <= SignedPayload(reference)
    ensures Activity(base, symbol, limit, cursor).Some? ==> base + ACTIVITY + [QUESTION] <= Activity(base, symbol, limit, cursor).value
  {
  }

  lemma ActivityNames()
    ensures Clean(SYMBOL) && Clean(LIMIT) && Clean(CURSOR)
    ensures Clean(ACTIVITY)
  {
  }

  lemma ThreeParamsRead(path: seq<byte>, a: Param, b: Param, c: Param)
    requires forall i :: 0 <= i < |path| ==> path[i] != QUESTION
    requires Clean(a.name) && Clean(a.value) && Clean(b.name) && Clean(b.value) && Clean(c.name) && Clean(c.value)
    requires Decode(a.value).Some? && Decode(b.value).Some? && Decode(c.value).Some?
    ensures Read(Target(path, [a, b, c]))
         == Some([Param(a.name, Decode(a.value).value), Param(b.name, Decode(b.value).value), Param(c.name, Decode(c.value).value)])
  {
    ReadTarget(path, [a, b, c]);
    DecodeTwo(b, c);
    DecodeCons(a, [b, c]);
    var x, y, z := Param(a.name, Decode(a.value).value), Param(b.name, Decode(b.value).value), Param(c.name, Decode(c.value).value);
    assert [a, b, c] == [a] + [b, c] && [x] + [y, z] == [x, y, z];
  }
}
