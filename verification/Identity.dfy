/** Chain identities, realtime targets and the sealed entity keys derived from them. */
module Identity {
  import opened Core
  import opened Text

  const MAX_ADDRESS_LEN: nat := 128

  datatype Target = Target(chain: string, address: string, timeframe: string)

  /** Chain slug to network id; case and surrounding white space are ignored. */
  function NetworkId(chain: string): (r: Option<int>) {
    var slug := AsciiLower(Trim(chain));
    if slug == "solana" then Some(1_399_811_149)
    else if slug == "base" then Some(8_453)
    else if slug == "ethereum" then Some(1)
    else if slug == "bnb_chain" || slug == "bsc" || slug == "bnb" then Some(56)
    else if slug == "robinhood" || slug == "robinhood_chain" then Some(4_663)
    else None
  }

  /** Network id to the canonical slug used in every `market:price` key. */
  function ChainSlug(networkId: int): (r: Option<string>) {
    if networkId == 1_399_811_149 then Some("solana")
    else if networkId == 8_453 then Some("base")
    else if networkId == 1 then Some("ethereum")
    else if networkId == 56 then Some("bnb_chain")
    else if networkId == 4_663 then Some("robinhood")
    else None
  }

  predicate ValidAddress(address: string) {
    && address != ""
    && |address| <= MAX_ADDRESS_LEN
    && forall i :: 0 <= i < |address| ==> IsAsciiAlphanumeric(address[i])
  }

  function Resolution(timeframe: string): (r: Option<string>) {
    if timeframe == "1m" || timeframe == "m1" then Some("1")
    else if timeframe == "5m" || timeframe == "m5" then Some("5")
    else if timeframe == "15m" || timeframe == "m15" then Some("15")
    else if timeframe == "1h" || timeframe == "h1" then Some("60")
    else if timeframe == "4h" || timeframe == "h4" then Some("240")
    else if timeframe == "1d" || timeframe == "d1" then Some("1D")
    else None
  }

  predicate Validated(t: Target) {
    NetworkId(t.chain).Some? && ValidAddress(t.address) && Resolution(t.timeframe).Some?
  }

  predicate CaseInsensitive(chain: string) {
    AsciiLower(Trim(chain)) in ["base", "ethereum", "bnb_chain", "bsc", "bnb"]
  }

  predicate EqIgnoreAsciiCase(a: string, b: string) {
    AsciiLower(a) == AsciiLower(b)
  }

  /** Does a lane price for (`networkId`, `address`) belong to the target? */
  predicate PriceMatches(t: Target, networkId: int, address: string) {
    && NetworkId(t.chain) == Some(networkId)
    && if CaseInsensitive(t.chain) then EqIgnoreAsciiCase(address, t.address) else address == t.address
  }

  function EntityKey(t: Target): (r: string) {
    "ohlcv:" + t.chain + ":" + t.address
  }

  // ---- Reading a key back ------------------------------------------------

  /** Position of the last ':' in `s`, or -1. */
  function LastColon(s: string): (r: int)
    ensures -1 <= r < |s|
    ensures r >= 0 ==> s[r] == ':'
    ensures forall i :: r < i < |s| ==> s[i] != ':'
  {
    if s == "" then -1
    else if s[|s| - 1] == ':' then |s| - 1
    else LastColon(s[..|s| - 1])
  }

  /** What a client reads out of an `ohlcv:` key and its timeframe. */
  function TargetOf(key: string, timeframe: string): (r: Target) {
    var c := LastColon(key);
    if c < 6 then Target("", "", timeframe) else Target(key[6..c], key[c + 1..], timeframe)
  }

  /** The key and the timeframe determine the whole target: no two targets share a key. */
  lemma TargetOfEntityKey(t: Target)
    requires ValidAddress(t.address)
    ensures TargetOf(EntityKey(t), t.timeframe) == t
  {
    var key := EntityKey(t);
    var c := 6 + |t.chain|;
    assert key == "ohlcv:" + t.chain + (":" + t.address);
    assert key[c] == ':';
    assert forall i :: c < i < |key| ==> key[i] == t.address[i - c - 1];
    assert LastColon(key) == c;
    assert key[6..c] == t.chain;
    assert key[c + 1..] == t.address;
  }

  lemma EntityKeyPrefix(t: Target)
    ensures "ohlcv:" <= EntityKey(t)
  {
    assert EntityKey(t) == "ohlcv:" + (t.chain + (":" + t.address));
  }

  lemma EntityKeyInjective(a: Target, b: Target)
    requires ValidAddress(a.address) && ValidAddress(b.address)
    requires EntityKey(a) == EntityKey(b)
    ensures a.chain == b.chain && a.address == b.address
  {
    TargetOfEntityKey(a);
    TargetOfEntityKey(b.(timeframe := a.timeframe));
  }

  lemma PlainSlug(slug: string)
    requires slug != ""
    requires forall i :: 0 <= i < |slug| ==> 'a' <= slug[i] <= 'z' || slug[i] == '_'
    ensures AsciiLower(Trim(slug)) == slug
  {
    assert !IsWhitespace(slug[0]) && !IsWhitespace(slug[|slug| - 1]);
    assert Trim(slug) == slug;
  }

  /** Every spelling of a verified chain maps to one canonical slug, and back to the same network. */
  lemma SlugRoundTrip(chain: string)
    requires NetworkId(chain).Some?
    ensures ChainSlug(NetworkId(chain).value).Some?
    ensures NetworkId(ChainSlug(NetworkId(chain).value).value) == NetworkId(chain)
  {
    PlainSlug(ChainSlug(NetworkId(chain).value).value);
  }

  // ---- The tables, as tables ----------------------------------------------

  const CHAINS: map<string, int> := map[
    "solana" := 1_399_811_149, "base" := 8_453, "ethereum" := 1,
    "bnb_chain" := 56, "bsc" := 56, "bnb" := 56,
    "robinhood" := 4_663, "robinhood_chain" := 4_663]

  const CANONICAL: map<int, string> := map[
    1_399_811_149 := "solana", 8_453 := "base", 1 := "ethereum", 56 := "bnb_chain", 4_663 := "robinhood"]

  const WINDOWS: map<string, string> := map[
    "1m" := "1", "m1" := "1", "5m" := "5", "m5" := "5", "15m" := "15", "m15" := "15",
    "1h" := "60", "h1" := "60", "4h" := "240", "h4" := "240", "1d" := "1D", "d1" := "1D"]

  lemma ChainTable(chain: string)
    ensures var slug := AsciiLower(Trim(chain));
            NetworkId(chain) == if slug in CHAINS then Some(CHAINS[slug]) else None
  {
  }

  lemma CanonicalTable(n: int)
    ensures ChainSlug(n) == if n in CANONICAL then Some(CANONICAL[n]) else None
  {
  }

  lemma WindowTable(timeframe: string)
    ensures Resolution(timeframe) == if timeframe in WINDOWS then Some(WINDOWS[timeframe]) else None
  {
  }

  /** Letter case is ignored on Base, Ethereum and BNB Chain and nowhere else. */
  lemma CaseRule(chain: string)
    ensures CaseInsensitive(chain) <==>
              NetworkId(chain) == Some(8_453) || NetworkId(chain) == Some(1) || NetworkId(chain) == Some(56)
  {
  }

  /** Which lane prices belong to a target, by the fields themselves. */
  lemma PriceMatchesIff(t: Target, n: int, address: string)
    ensures PriceMatches(t, n, address) <==>
              && AsciiLower(Trim(t.chain)) in CHAINS && n == CHAINS[AsciiLower(Trim(t.chain))]
              && (address == t.address || (n in {8_453, 1, 56} && AsciiLower(address) == AsciiLower(t.address)))
  {
    ChainTable(t.chain);
    CaseRule(t.chain);
  }

  /** What a target must be: a known chain, one to 128 ASCII letters and digits, a known window. */
  lemma ValidatedIff(t: Target)
    ensures Validated(t) <==>
              && AsciiLower(Trim(t.chain)) in CHAINS && t.timeframe in WINDOWS
              && 1 <= |t.address| <= 128
              && forall c :: c in t.address ==> 'A' <= c <= 'Z' || 'a' <= c <= 'z' || '0' <= c <= '9'
  {
    ChainTable(t.chain);
    WindowTable(t.timeframe);
    assert forall i :: 0 <= i < |t.address| ==> t.address[i] in t.address;
  }
}
