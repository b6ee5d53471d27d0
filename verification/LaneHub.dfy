/**
 The fan-out hub of the realtime lane: a bounded state that folds published events,
 numbered by a wrapping 64-bit generation.
 */
module LaneHub {
  import opened Core
  import Bars

  datatype Token = Token(networkId: int, address: string)

  datatype Event =
    | TrendingEvent(category: string, tokens: seq<Token>, observedAtMs: int)
    | PriceEvent(networkId: int, address: string, priceUsd: Bars.Float, detail: Detail, observedAtMs: int)

  /** The optional figures a price tick may carry; they are passed on as they came. */
  datatype Detail = Detail(
    change24h: Option<Bars.Float>, marketCapUsd: Option<Bars.Float>,
    liquidityUsd: Option<Bars.Float>, volume24hUsd: Option<Bars.Float>)

  type Key = (int, string)

  /** `serial` is a history variable: the unwrapped number of the hub operation behind the entry. */
  datatype Trending = Trending(
    category: string, tokens: seq<Token>, observedAtMs: int, generation: int, serial: nat)

  datatype Price = Price(
    networkId: int, address: string, priceUsd: Bars.Float, detail: Detail, observedAtMs: int,
    generation: int, serial: nat)

  datatype LaneState = LaneState(
    generation: int, live: bool, trending: Option<Trending>, prices: map<Key, Price>)

  datatype Op = Publish(event: Event) | MarkStale

  datatype Limits = Limits(maxPrices: nat, maxTokens: nat)

  /** A hub and the log of everything ever done to it. */
  datatype Hub = Hub(state: LaneState, log: seq<Op>)

  const INITIAL: Hub := Hub(LaneState(0, false, None, map[]), [])

  /** `with_limits` floors both caps at one. */
  predicate LimitsOk(lim: Limits) {
    lim.maxPrices >= 1 && lim.maxTokens >= 1
  }

  function WrappingIncrement(generation: int): (r: int) {
    (generation + 1) % TWO_64
  }

  /** The first `max` tokens, or all of them if there are no more. */
  function Truncate(tokens: seq<Token>, max: nat): (r: seq<Token>)
    ensures r <= tokens && |r| == if |tokens| < max then |tokens| else max
  {
    if |tokens| > max then tokens[..max] else tokens
  }

  ghost predicate IsOldest(prices: map<Key, Price>, k: Key) {
    k in prices && forall j :: j in prices ==> prices[k].observedAtMs <= prices[j].observedAtMs
  }

  /** Which entry, if any, makes room for `key`: some entry of minimal observation time. */
  ghost predicate VictimOk(prices: map<Key, Price>, key: Key, max: nat, victim: Option<Key>) {
    if key !in prices && |prices| >= max then victim.Some? && IsOldest(prices, victim.value) else victim.None?
  }

  function Evict(prices: map<Key, Price>, victim: Option<Key>): (r: map<Key, Price>) {
    if victim.Some? then prices - {victim.value} else prices
  }

  function TrendingEntry(e: Event, serial: nat, lim: Limits): (r: Trending)
    requires e.TrendingEvent?
  {
    Trending(e.category, Truncate(e.tokens, lim.maxTokens), e.observedAtMs, serial % TWO_64, serial)
  }

  function PriceEntry(e: Event, serial: nat): (r: Price)
    requires e.PriceEvent?
  {
    Price(e.networkId, e.address, e.priceUsd, e.detail, e.observedAtMs, serial % TWO_64, serial)
  }

  // ---- Steps -------------------------------------------------------------

  ghost predicate Published(h: Hub, h': Hub, e: Event, victim: Option<Key>, lim: Limits) {
    var g := WrappingIncrement(h.state.generation);
    && h'.log == h.log + [Publish(e)]
    && h'.state.generation == g
    && h'.state.live
    && match e {
         case TrendingEvent(category, tokens, at) =>
           && victim.None?
           && h'.state.trending == Some(Trending(category, Truncate(tokens, lim.maxTokens), at, g, |h.log| + 1))
           && h'.state.prices == h.state.prices
         case PriceEvent(network, address, usd, detail, at) =>
           && VictimOk(h.state.prices, (network, address), lim.maxPrices, victim)
           && h'.state.trending == h.state.trending
           && h'.state.prices ==
              Evict(h.state.prices, victim)[(network, address) := Price(network, address, usd, detail, at, g, |h.log| + 1)]
       }
  }

  ghost predicate Next(h: Hub, h': Hub, lim: Limits) {
    || h' == Hub(h.state.(live := false, generation := WrappingIncrement(h.state.generation)), h.log + [MarkStale])
    || exists e, victim :: Published(h, h', e, victim, lim)
  }

  ghost predicate IsRun(hs: seq<Hub>, lim: Limits) {
    && hs != [] && hs[0] == INITIAL
    && forall i :: 0 <= i < |hs| - 1 ==> Next(hs[i], hs[i + 1], lim)
  }

  // ---- Reference semantics: the unbounded last-published map ----------------

  ghost function LastPrices(log: seq<Op>): map<Key, Price> {
    if log == [] then map[]
    else
      var m := LastPrices(Front(log));
      match Last(log)
      case Publish(PriceEvent(n, a, usd, d, at)) => m[(n, a) := PriceEntry(PriceEvent(n, a, usd, d, at), |log|)]
      case _ => m
  }

  ghost function LastTrending(log: seq<Op>, lim: Limits): Option<Trending> {
    if log == [] then None
    else if Last(log).Publish? && Last(log).event.TrendingEvent? then
      Some(TrendingEntry(Last(log).event, |log|, lim))
    else LastTrending(Front(log), lim)
  }

  ghost predicate Within(a: map<Key, Price>, b: map<Key, Price>) {
    forall k :: k in a ==> k in b && a[k] == b[k]
  }

  /** The hub state as a function of its log, up to evictions. */
  ghost predicate Inv(h: Hub, lim: Limits) {
    && h.state.generation == |h.log| % TWO_64
    && h.state.live == (h.log != [] && Last(h.log).Publish?)
    && h.state.trending == LastTrending(h.log, lim)
    && Within(h.state.prices, LastPrices(h.log))
    && |h.state.prices| <= lim.maxPrices
    && (h.log != [] && Last(h.log).Publish? && Last(h.log).event.PriceEvent? ==>
          (Last(h.log).event.networkId, Last(h.log).event.address) in h.state.prices)
    && (|LastPrices(h.log)| <= lim.maxPrices ==> h.state.prices == LastPrices(h.log))
  }

  lemma GenerationStep(n: nat)
    ensures WrappingIncrement(n % TWO_64) == (n + 1) % TWO_64
  {
  }

  lemma InsertCount(m: map<Key, Price>, key: Key, p: Price)
    ensures m[key := p].Keys == m.Keys + {key}
    ensures |m[key := p]| == if key in m then |m| else |m| + 1
  {
    assert m[key := p].Keys == m.Keys + {key};
    if key in m {
      assert m.Keys + {key} == m.Keys;
    }
  }

  lemma EvictCount(m: map<Key, Price>, k: Key)
    requires k in m
    ensures (m - {k}).Keys == m.Keys - {k} && |m - {k}| == |m| - 1
  {
    assert (m - {k}).Keys == m.Keys - {k};
  }

  /** Inserting `key` into a bounded submap, at the price of `victim`, stays within the bound. */
  lemma InsertStaysBounded(before: map<Key, Price>, key: Key, p: Price, victim: Option<Key>, max: nat)
    requires |before| <= max && max >= 1
    requires VictimOk(before, key, max, victim)
    ensures |Evict(before, victim)[key := p]| <= max
  {
    InsertCount(Evict(before, victim), key, p);
    if victim.Some? {
      EvictCount(before, victim.value);
    }
  }

  /** Nothing is evicted until more than `max` distinct keys have been published. */
  lemma InsertExact(before: map<Key, Price>, ref: map<Key, Price>, key: Key, p: Price, victim: Option<Key>, max: nat)
    requires Within(before, ref)
    requires |ref| <= max ==> before == ref
    requires VictimOk(before, key, max, victim)
    requires |ref[key := p]| <= max
    ensures Evict(before, victim)[key := p] == ref[key := p]
  {
    InsertCount(ref, key, p);
    assert before == ref;
  }

  lemma {:induction false} StepKeepsInv(h: Hub, h': Hub, lim: Limits)
    requires LimitsOk(lim) && Inv(h, lim) && Next(h, h', lim)
    ensures Inv(h', lim)
  {
    GenerationStep(|h.log|);
    FrontOfAppend(h.log, Last(h'.log));
    if h'.log != h.log + [MarkStale] {
      var e, victim :| Published(h, h', e, victim, lim);
      if e.PriceEvent? {
        PricePublishKeepsInv(h, h', e, victim, lim);
      }
    }
  }

  lemma PricePublishKeepsInv(h: Hub, h': Hub, e: Event, victim: Option<Key>, lim: Limits)
    requires LimitsOk(lim) && Inv(h, lim) && e.PriceEvent? && Published(h, h', e, victim, lim)
    ensures Within(h'.state.prices, LastPrices(h'.log))
    ensures |h'.state.prices| <= lim.maxPrices
    ensures |LastPrices(h'.log)| <= lim.maxPrices ==> h'.state.prices == LastPrices(h'.log)
  {
    GenerationStep(|h.log|);
    FrontOfAppend(h.log, Publish(e));
    var entry := PriceEntry(e, |h.log| + 1);
    assert LastPrices(h'.log) == LastPrices(h.log)[(e.networkId, e.address) := entry];
    var key := (e.networkId, e.address);
    InsertStaysBounded(h.state.prices, key, entry, victim, lim.maxPrices);
    if |LastPrices(h'.log)| <= lim.maxPrices {
      InsertExact(h.state.prices, LastPrices(h.log), key, entry, victim, lim.maxPrices);
    }
  }

  // ---- What the reference map says -----------------------------------------

  /** Entry `p` stands for operation number `p.serial` of the log, the last one on its key. */
  ghost predicate StandsFor(log: seq<Op>, k: Key, p: Price) {
    && 1 <= p.serial <= |log|
    && p.generation == p.serial % TWO_64
    && k == (p.networkId, p.address)
    && log[p.serial - 1] == Publish(PriceEvent(p.networkId, p.address, p.priceUsd, p.detail, p.observedAtMs))
    && forall i :: p.serial <= i < |log| && log[i].Publish? && log[i].event.PriceEvent? ==>
         (log[i].event.networkId, log[i].event.address) != k
  }

  lemma {:induction false} LastPricesStandFor(log: seq<Op>, k: Key)
    requires k in LastPrices(log)
    ensures StandsFor(log, k, LastPrices(log)[k])
  {
    var f := Front(log);
    if Last(log).Publish? && Last(log).event.PriceEvent? && (Last(log).event.networkId, Last(log).event.address) == k {
    } else {
      LastPricesStandFor(f, k);
      var p := LastPrices(log)[k];
      assert StandsFor(f, k, p);
      assert forall i :: 0 <= i < |f| ==> f[i] == log[i];
    }
  }

  ghost predicate TrendingStandsFor(log: seq<Op>, t: Trending, lim: Limits) {
    && 1 <= t.serial <= |log|
    && log[t.serial - 1].Publish? && log[t.serial - 1].event.TrendingEvent?
    && t.generation == t.serial % TWO_64
    && Shortened(t, log[t.serial - 1].event, lim)
  }

  /** The entry shows the event, with its list cut to the cap. */
  ghost predicate Shortened(t: Trending, e: Event, lim: Limits)
    requires e.TrendingEvent?
  {
    && t.category == e.category && t.observedAtMs == e.observedAtMs
    && t.tokens <= e.tokens && |t.tokens| == if |e.tokens| < lim.maxTokens then |e.tokens| else lim.maxTokens
  }

  lemma {:induction false} LastTrendingStandsFor(log: seq<Op>, lim: Limits)
    requires LastTrending(log, lim).Some?
    ensures TrendingStandsFor(log, LastTrending(log, lim).value, lim)
  {
    if !(Last(log).Publish? && Last(log).event.TrendingEvent?) {
      LastTrendingStandsFor(Front(log), lim);
    }
  }

  // ---- Main results ----------------------------------------------------------

  lemma {:induction false} RunKeepsInv(hs: seq<Hub>, lim: Limits)
    requires LimitsOk(lim) && IsRun(hs, lim)
    ensures forall i :: 0 <= i < |hs| ==> Inv(hs[i], lim)
  {
    if |hs| > 1 {
      RunKeepsInv(Front(hs), lim);
      var n := |hs| - 1;
      assert Inv(Front(hs)[n - 1], lim);
      assert Next(hs[n - 1], hs[n], lim);
      StepKeepsInv(hs[n - 1], hs[n], lim);
      forall i | 0 <= i < |hs|
        ensures Inv(hs[i], lim)
      {
        if i < n {
          assert hs[i] == Front(hs)[i];
        }
      }
    }
  }

  /** The bounded cache refines the unbounded last-published map: every retained key holds the
      event most recently published for it, two retained events come from different operations, and
      they carry equal generations only if those operations are a multiple of 2^64 apart. */
  lemma CacheRefinesLastPublished(hs: seq<Hub>, lim: Limits)
    requires LimitsOk(lim) && IsRun(hs, lim)
    ensures |Last(hs).state.prices| <= lim.maxPrices
    ensures forall k :: k in Last(hs).state.prices ==> StandsFor(Last(hs).log, k, Last(hs).state.prices[k])
    ensures forall j, k :: j in Last(hs).state.prices && k in Last(hs).state.prices && j != k ==>
              Last(hs).state.prices[j].serial != Last(hs).state.prices[k].serial
    ensures |LastPrices(Last(hs).log)| <= lim.maxPrices ==> Last(hs).state.prices == LastPrices(Last(hs).log)
  {
    RunKeepsInv(hs, lim);
    var h := Last(hs);
    forall k | k in h.state.prices
      ensures StandsFor(h.log, k, h.state.prices[k])
    {
      LastPricesStandFor(h.log, k);
    }
  }

  /** An operation drops at most one entry, only to make room at the cap, and only one of minimal
      observation time. */
  lemma LostEntryIsOldest(h: Hub, h': Hub, lim: Limits, k: Key)
    requires LimitsOk(lim) && Next(h, h', lim) && k in h.state.prices && k !in h'.state.prices
    ensures |h.state.prices| >= lim.maxPrices
    ensures forall j :: j in h.state.prices ==> h.state.prices[k].observedAtMs <= h.state.prices[j].observedAtMs
    ensures forall j :: j in h.state.prices && j != k ==> j in h'.state.prices && h'.state.prices[j] == h.state.prices[j]
    ensures Last(h'.log).Publish? && Last(h'.log).event.PriceEvent?
    ensures var key := (Last(h'.log).event.networkId, Last(h'.log).event.address);
            key !in h.state.prices && key in h'.state.prices
  {
    var e, victim :| Published(h, h', e, victim, lim);
    assert Last(h'.log) == Publish(e);
  }

  lemma GenerationIsSerial(log: seq<Op>, k: Key, p: Price)
    requires StandsFor(log, k, p) && |log| < TWO_64
    ensures p.generation == p.serial
  {
  }

  /** Without a wrap the stored generations themselves are distinct and bounded by the hub's. */
  lemma GenerationsDistinctBeforeWrap(hs: seq<Hub>, lim: Limits, j: Key, k: Key)
    requires LimitsOk(lim) && IsRun(hs, lim) && |Last(hs).log| < TWO_64
    requires j in Last(hs).state.prices && k in Last(hs).state.prices
    ensures 0 < Last(hs).state.prices[k].generation <= Last(hs).state.generation
    ensures j != k ==> Last(hs).state.prices[j].generation != Last(hs).state.prices[k].generation
  {
    var h := Last(hs);
    CacheRefinesLastPublished(hs, lim);
    GenerationIsSerial(h.log, j, h.state.prices[j]);
    GenerationIsSerial(h.log, k, h.state.prices[k]);
    assert h.state.generation == |h.log| by {
      RunKeepsInv(hs, lim);
    }
  }

  /** What a publish leaves behind, field by field. */
  lemma PublishedFacts(h: Hub, h': Hub, e: Event, victim: Option<Key>, lim: Limits)
    requires Published(h, h', e, victim, lim)
    ensures h'.state.live
    ensures e.TrendingEvent? ==>
              h'.state.prices == h.state.prices && h'.state.trending.Some? && Shortened(h'.state.trending.value, e, lim)
    ensures e.PriceEvent? ==>
              h'.state.trending == h.state.trending && (e.networkId, e.address) in h'.state.prices
              && Shows(h'.state.prices[(e.networkId, e.address)], e)
              && h'.state.prices[(e.networkId, e.address)].generation == h'.state.generation
  {
  }

  /** The entry has the fields of the event. */
  ghost predicate Shows(p: Price, e: Event)
    requires e.PriceEvent?
  {
    && p.networkId == e.networkId && p.address == e.address && p.priceUsd == e.priceUsd
    && p.detail == e.detail && p.observedAtMs == e.observedAtMs
  }

  lemma WrapsAround(g: int)
    requires 0 <= g < TWO_64
    ensures WrappingIncrement(g) == if g == TWO_64 - 1 then 0 else g + 1
  {
  }

  // ---- The hub object ----------------------------------------------------------

  class LaneHub {
    var state: LaneState
    const limits: Limits
    /** History variable: every operation so far. */
    var log: seq<Op>

    ghost predicate Valid()
      reads this
    {
      LimitsOk(limits) && Inv(View(), limits)
    }

    ghost function View(): Hub
      reads this
    {
      Hub(state, log)
    }

    constructor (maxPrices: nat, maxTokens: nat)
      ensures Valid() && View() == INITIAL
      ensures limits.maxPrices == if maxPrices == 0 then 1 else maxPrices
      ensures limits.maxTokens == if maxTokens == 0 then 1 else maxTokens
    {
      state := LaneState(0, false, None, map[]);
      limits := Limits(if maxPrices == 0 then 1 else maxPrices, if maxTokens == 0 then 1 else maxTokens);
      log := [];
    }

    /** `min_by_key` over the retained prices. */
    static method OldestKey(prices: map<Key, Price>) returns (k: Key)
      requires |prices| > 0
      ensures k in prices && forall j :: j in prices ==> prices[k].observedAtMs <= prices[j].observedAtMs
    {
      assert prices.Keys != {};
      k :| k in prices.Keys;
      var rest := prices.Keys - {k};
      while rest != {}
        invariant rest <= prices.Keys && k in prices
        invariant forall j :: j in prices && j !in rest ==> prices[k].observedAtMs <= prices[j].observedAtMs
        decreases |rest|
      {
        var j :| j in rest;
        rest := rest - {j};
        if prices[j].observedAtMs < prices[k].observedAtMs {
          k := j;
        }
      }
    }

    /** Only a new key in a full map costs an entry. */
    static method MakeRoom(prices: map<Key, Price>, key: Key, max: nat) returns (rest: map<Key, Price>, ghost victim: Option<Key>)
      requires max >= 1
      ensures VictimOk(prices, key, max, victim) && rest == Evict(prices, victim)
      ensures rest.Keys <= prices.Keys && (key in prices || |prices| < max ==> rest == prices)
    {
      rest, victim := prices, None;
      if key !in prices && |prices| >= max {
        var oldest := OldestKey(prices);
        rest, victim := prices - {oldest}, Some(oldest);
      }
    }

    method Publish(event: Event)
      requires Valid()
      modifies this
      ensures Valid()
      ensures exists victim :: Published(old(View()), View(), event, victim, limits)
      ensures log == old(log) + [Op.Publish(event)] && state.live
      ensures state.generation == if old(state.generation) == TWO_64 - 1 then 0 else old(state.generation) + 1
      ensures event.TrendingEvent? ==>
                state.prices == old(state.prices) && state.trending.Some? && Shortened(state.trending.value, event, limits)
      ensures event.PriceEvent? ==>
                && state.trending == old(state.trending) && (event.networkId, event.address) in state.prices
                && Shows(state.prices[(event.networkId, event.address)], event)
                && state.prices[(event.networkId, event.address)].generation == state.generation
    {
      ghost var before := View();
      ghost var gone: Option<Key> := None;
      var generation := WrappingIncrement(state.generation);
      state := state.(generation := generation, live := true);
      match event {
        case TrendingEvent(category, tokens, at) =>
          state := state.(trending :=
            Some(Trending(category, Truncate(tokens, limits.maxTokens), at, generation, |log| + 1)));
        case PriceEvent(network, address, usd, detail, at) =>
          var key := (network, address);
          var prices;
          prices, gone := MakeRoom(state.prices, key, limits.maxPrices);
          state := state.(prices := prices[key := Price(network, address, usd, detail, at, generation, |log| + 1)]);
      }
      log := log + [Op.Publish(event)];
      assert Published(before, View(), event, gone, limits);
      PublishedFacts(before, View(), event, gone, limits);
      WrapsAround(before.state.generation);
      StepKeepsInv(before, View(), limits);
    }

    method MarkStale()
      requires Valid()
      modifies this
      ensures Valid()
      ensures !state.live && log == old(log) + [Op.MarkStale]
      ensures Next(old(View()), View(), limits)
      ensures state.prices == old(state.prices) && state.trending == old(state.trending)
      ensures state.generation == if old(state.generation) == TWO_64 - 1 then 0 else old(state.generation) + 1
    {
      ghost var before := View();
      state := state.(live := false, generation := WrappingIncrement(state.generation));
      log := log + [Op.MarkStale];
      StepKeepsInv(before, View(), limits);
    }
  }
}
