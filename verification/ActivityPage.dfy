/** The request target of one activity page, from the caller's chain, address, limit and cursor. */
module ActivityPage {
  import opened Core
  import opened Identity
  import opened Percent
  import opened Text

  const COLON: byte := 58

  /** `fomo_symbol`: only a known chain and a valid address have one. */
  function Symbol(chain: string, address: string): (r: Option<seq<byte>>) {
    if NetworkId(chain).None? || NetworkId(chain).value < 0 || !ValidAddress(address) then None
    else Some(Ascii(address) + [COLON] + Decimal(NetworkId(chain).value))
  }

  /** `fetch_activity` up to its request; `utf8` gives the bytes of a string. */
  function RequestTarget(base: seq<byte>, chain: string, address: string, limit: nat, cursor: Option<string>,
                         utf8: string -> seq<byte>): (uri: Option<seq<byte>>)
  {
    var symbol := Symbol(chain, address);
    if symbol.None? then None
    else Activity(base, symbol.value, limit, CursorBytes(cursor, utf8))
  }

  /** Free of everything that could end or split a query parameter. */
  predicate Plain(s: seq<byte>) {
    Clean(s) && forall i :: 0 <= i < |s| ==> s[i] != PERCENT
  }

  lemma AddressIsPlain(address: string)
    requires ValidAddress(address)
    ensures Plain(Ascii(address))
  {
    forall i | 0 <= i < |address|
      ensures Ascii(address)[i] >= 48 && Ascii(address)[i] != EQUALS && Ascii(address)[i] != QUESTION
    {
      assert IsAsciiAlphanumeric(address[i]);
    }
  }

  lemma PlainJoin(a: seq<byte>, b: seq<byte>)
    requires Plain(a) && Plain(b)
    ensures Plain(a + b)
  {
  }

  lemma SymbolIsPlain(chain: string, address: string)
    ensures Symbol(chain, address).Some? <==> NetworkId(chain).Some? && ValidAddress(address)
    ensures Symbol(chain, address).Some? ==> Plain(Symbol(chain, address).value)
  {
    if NetworkId(chain).Some? && ValidAddress(address) {
      AddressIsPlain(address);
      PlainJoin(Ascii(address), [COLON]);
      PlainJoin(Ascii(address) + [COLON], Decimal(NetworkId(chain).value));
    }
  }

  function CursorBytes(cursor: Option<string>, utf8: string -> seq<byte>): (r: Option<seq<byte>>) {
    if cursor.Some? then Some(utf8(Trim(cursor.value))) else None
  }

  /** The symbol names the address and, after the last colon, the network of the chain. */
  ghost predicate Names(symbol: seq<byte>, address: string, network: int) {
    && |symbol| > |address| + 1 && symbol[|address|] == ':' as int
    && (forall i :: 0 <= i < |address| ==> symbol[i] == address[i] as int)
    && (forall i :: |address| < i < |symbol| ==> symbol[i] != ':' as int)
    && ReadNumber(symbol[|address| + 1..]).Some? && ReadNumber(symbol[|address| + 1..]).value == network
  }

  lemma SymbolNames(chain: string, address: string)
    requires Symbol(chain, address).Some?
    ensures NetworkId(chain).Some? && Names(Symbol(chain, address).value, address, NetworkId(chain).value)
  {
    var digits := Decimal(NetworkId(chain).value);
    DecimalReads(NetworkId(chain).value);
    assert Symbol(chain, address).value[|address| + 1..] == digits;
  }

  /** A request is built if and only if the chain is known, the address valid and the trimmed cursor, if any, within
      its bounds; and then a server reads the address with the network of the chain, the limit brought into range
      and exactly the trimmed cursor. */
  lemma RequestIsExact(base: seq<byte>, chain: string, address: string, limit: nat, cursor: Option<string>, utf8: string -> seq<byte>)
      returns (symbol: seq<byte>)
    requires forall i :: 0 <= i < |base| ==> base[i] != QUESTION
    ensures var uri, bytes := RequestTarget(base, chain, address, limit, cursor, utf8), CursorBytes(cursor, utf8);
            && (uri.Some? <==>
                  && AsciiLower(Trim(chain)) in CHAINS && ValidAddress(address)
                  && (bytes.Some? ==> 0 < |bytes.value| <= 256))
            && (uri.Some? ==>
                  && Names(symbol, address, CHAINS[AsciiLower(Trim(chain))])
                  && ReadsAs(Read(uri.value), symbol, limit, bytes) && base + ACTIVITY + [QUESTION] <= uri.value)
  {
    SymbolIsPlain(chain, address);
    ChainTable(chain);
    symbol := [];
    if Symbol(chain, address).Some? {
      symbol := Symbol(chain, address).value;
      SymbolNames(chain, address);
      ActivityIff(base, symbol, limit, CursorBytes(cursor, utf8));
      Paths([], [], [], base, symbol, limit, CursorBytes(cursor, utf8));
    }
  }
}
