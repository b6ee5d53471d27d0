/**
 The exact condition under which the prices of a target never go back. A case-insensitive chain, an address
 with a letter in it and a hub that keeps two prices are enough for a run that shows an older price after a
 newer one; without any one of them no run does.

 The run: spelling `a` is published, then spelling `b` with an earlier observation time. The session is shown
 `b`. Other prices fill the hub until one must go, and the earliest is `b`. The session is then shown `a`.
 */
module SessionSpellings {
  import opened Core
  import opened Bars
  import opened Identity
  import opened LaneHub
  import opened SessionMachine
  import opened SessionAlignment
  import opened SessionOrder
  import opened SessionPrices
  import opened Text

  // ---- Spellings ----------------------------------------------------------------------------

  predicate IsLetter(c: char) {
    'A' <= c <= 'Z' || 'a' <= c <= 'z'
  }

  predicate HasLetter(address: string) {
    exists i :: 0 <= i < |address| && IsLetter(address[i])
  }

  function Flip(c: char): (r: char)
    requires IsLetter(c)
    ensures IsLetter(r) && r != c && LowerChar(r) == LowerChar(c)
  {
    if 'A' <= c <= 'Z' then (c as int + 32) as char else (c as int - 32) as char
  }

  /** Without a letter there is one spelling. */
  lemma PlainHasOneSpelling(address: string, other: string)
    requires !HasLetter(address) && EqIgnoreAsciiCase(other, address)
    ensures other == address
  {
    forall i | 0 <= i < |address|
      ensures other[i] == address[i]
    {
      assert AsciiLower(other)[i] == AsciiLower(address)[i];
      assert !IsLetter(address[i]);
    }
  }

  /** With a letter there are two, both of them valid addresses. */
  lemma LetterHasTwoSpellings(address: string) returns (other: string)
    requires ValidAddress(address) && HasLetter(address)
    ensures other != address && ValidAddress(other) && EqIgnoreAsciiCase(other, address)
  {
    var i :| 0 <= i < |address| && IsLetter(address[i]);
    other := address[i := Flip(address[i])];
    assert other[i] != address[i];
    assert forall j :: 0 <= j < |address| ==> AsciiLower(other)[j] == AsciiLower(address)[j];
  }

  lemma PositiveNetwork(chain: string)
    requires NetworkId(chain).Some?
    ensures NetworkId(chain).value > 0
  {
  }

  // ---- The hub ------------------------------------------------------------------------------

  /** A target and two spellings of its address on its network. */
  datatype Pair = Pair(t: Target, n: int, a: string, b: string)

  ghost predicate PairOk(p: Pair) {
    Validated(p.t) && PriceMatches(p.t, p.n, p.a) && PriceMatches(p.t, p.n, p.b) && p.a != p.b
  }

  function Tick(n: int, address: string, at: int): (e: Event) {
    PriceEvent(n, address, Finite(1.0), Detail(None, None, None, None), at)
  }

  function Quote(n: int, address: string, at: int, serial: nat): (q: Price) {
    PriceEntry(Tick(n, address, at), serial)
  }

  function Older(p: Pair): (q: Price) { Quote(p.n, p.a, 1, 1) }

  function Newer(p: Pair): (q: Price) { Quote(p.n, p.b, 0, 2) }

  function OnlyOlder(p: Pair): (h: Hub) {
    Hub(LaneState(1, true, None, map[(p.n, p.a) := Older(p)]), [Publish(Tick(p.n, p.a, 1))])
  }

  /** A network no target is on. */
  function Elsewhere(k: nat): (n: int)
    ensures n <= 0
  {
    0 - k
  }

  /** Both spellings and `k` prices of other networks. */
  function Stock(p: Pair, k: nat): (h: Hub) {
    if k == 0 then
      Hub(LaneState(2, true, None, map[(p.n, p.a) := Older(p), (p.n, p.b) := Newer(p)]),
          [Publish(Tick(p.n, p.a, 1)), Publish(Tick(p.n, p.b, 0))])
    else
      var h := Stock(p, k - 1);
      Hub(LaneState((k + 2) % TWO_64, true, None, h.state.prices[(Elsewhere(k), p.a) := Quote(Elsewhere(k), p.a, 2, k + 2)]),
          h.log + [Publish(Tick(Elsewhere(k), p.a, 2))])
  }

  /** One price more than fits: the newer spelling has made room. */
  function Crowded(p: Pair, k: nat): (h: Hub) {
    var h := Stock(p, k);
    Hub(LaneState((k + 3) % TWO_64, true, None,
                  (h.state.prices - {(p.n, p.b)})[(Elsewhere(k + 1), p.a) := Quote(Elsewhere(k + 1), p.a, 2, k + 3)]),
        h.log + [Publish(Tick(Elsewhere(k + 1), p.a, 2))])
  }

  ghost predicate StockOk(p: Pair, k: nat, h: Hub) {
    && |h.log| == k + 2 && h.state.generation == (k + 2) % TWO_64 && |h.state.prices| == k + 2
    && h.state.live && h.state.trending.None?
    && (p.n, p.a) in h.state.prices && h.state.prices[(p.n, p.a)] == Older(p)
    && (p.n, p.b) in h.state.prices && h.state.prices[(p.n, p.b)] == Newer(p)
    && (forall key :: key in h.state.prices ==>
          && key == (h.state.prices[key].networkId, h.state.prices[key].address) && key.0 >= Elsewhere(k)
          && (key.0 == p.n ==> key == (p.n, p.a) || key == (p.n, p.b))
          && (key != (p.n, p.b) ==> h.state.prices[key].observedAtMs >= 1))
  }

  lemma {:induction false} StockFacts(p: Pair, k: nat)
    requires p.n > 0 && p.a != p.b
    ensures StockOk(p, k, Stock(p, k))
  {
    if k == 0 {
      assert Stock(p, 0).state.prices.Keys == {(p.n, p.a), (p.n, p.b)};
    } else {
      StockFacts(p, k - 1);
      StockedOk(p, k, Stock(p, k - 1), Stock(p, k));
    }
  }

  lemma StockedOk(p: Pair, k: nat, h: Hub, h': Hub)
    requires p.n > 0 && k > 0 && StockOk(p, k - 1, h)
    requires h'.state.prices == h.state.prices[(Elsewhere(k), p.a) := Quote(Elsewhere(k), p.a, 2, k + 2)]
    requires h'.state.generation == (k + 2) % TWO_64 && h'.state.live && h'.state.trending.None? && |h'.log| == |h.log| + 1
    ensures StockOk(p, k, h')
  {
    InsertCount(h.state.prices, (Elsewhere(k), p.a), Quote(Elsewhere(k), p.a, 2, k + 2));
  }

  lemma FirstTicks(p: Pair, lim: Limits)
    requires p.a != p.b && lim.maxPrices >= 2
    ensures Next(INITIAL, OnlyOlder(p), lim) && Next(OnlyOlder(p), Stock(p, 0), lim)
  {
    var h := OnlyOlder(p);
    assert |h.state.prices| == 1 by { assert h.state.prices.Keys == {(p.n, p.a)}; }
    assert Published(INITIAL, h, Tick(p.n, p.a, 1), None, lim);
    assert Stock(p, 0).log == h.log + [Publish(Tick(p.n, p.b, 0))];
    assert Stock(p, 0).state.prices == h.state.prices[(p.n, p.b) := Newer(p)];
    assert Published(h, Stock(p, 0), Tick(p.n, p.b, 0), None, lim);
  }

  lemma StockGrows(p: Pair, k: nat, lim: Limits)
    requires p.n > 0 && p.a != p.b && k + 2 < lim.maxPrices
    ensures Next(Stock(p, k), Stock(p, k + 1), lim)
  {
    StockFacts(p, k);
    GenerationStep(k + 2);
    assert Published(Stock(p, k), Stock(p, k + 1), Tick(Elsewhere(k + 1), p.a, 2), None, lim);
  }

  lemma NewerIsEvicted(p: Pair, k: nat, lim: Limits)
    requires p.n > 0 && p.a != p.b && k + 2 == lim.maxPrices
    ensures Next(Stock(p, k), Crowded(p, k), lim)
  {
    StockFacts(p, k);
    GenerationStep(k + 2);
    assert IsOldest(Stock(p, k).state.prices, (p.n, p.b));
    assert Published(Stock(p, k), Crowded(p, k), Tick(Elsewhere(k + 1), p.a, 2), Some((p.n, p.b)), lim);
  }

  /** In the crowded hub the older spelling is the only price of the target. */
  lemma OlderIsForced(p: Pair, k: nat, pick: Option<Price>)
    requires PairOk(p) && p.n > 0
    ensures PickOk(Crowded(p, k), p.t, pick) <==> pick == Some(Older(p))
    ensures (p.n, p.b) !in Crowded(p, k).state.prices
  {
    StockFacts(p, k);
    var prices := Crowded(p, k).state.prices;
    assert (p.n, p.a) in prices && prices[(p.n, p.a)] == Older(p);
  }

  lemma NewerMayBePicked(p: Pair)
    requires PairOk(p)
    ensures PickOk(Stock(p, 0), p.t, Some(Newer(p)))
  {
    var prices := Stock(p, 0).state.prices;
    assert (p.n, p.b) in prices && prices[(p.n, p.b)] == Newer(p);
  }

  // ---- The session --------------------------------------------------------------------------

  const CANDLE: Bar := Bar(1, Finite(1.0), Finite(1.0), Finite(1.0), Finite(1.0), Finite(0.0))

  lemma CandleSurvives()
    ensures Normalize([CANDLE]) != []
  {
    NormalizeKeepsNewest([CANDLE]);
    assert [CANDLE][0].timeMs in ValidTimes([CANDLE]);
  }

  function Slug(p: Pair): (slug: string) {
    if ChainSlug(p.n).Some? then ChainSlug(p.n).value else ""
  }

  function Shows(p: Pair, q: Price): (f: Frame) {
    MarketPrice(Slug(p), p.t.address, q)
  }

  function BoundSession(t: Target): (x: Session) {
    NEW_SESSION.(binding := Some(t))
  }

  function SnapshotOf(t: Target): (f: Frame) {
    OhlcvSnapshot(EntityKey(t), t.timeframe, Normalize([CANDLE]))
  }

  function AfterSnapshot(t: Target): (x: Session) {
    BoundSession(t).(remembered := Some(t), priceEpoch := 1, emitted := [SnapshotOf(t)])
  }

  /** After the call that shows the newer spelling; the status is still queued. */
  function AfterNewer(p: Pair): (x: Session) {
    AfterSnapshot(p.t).(lane := Some(LaneRecord(Some(Ws), None, Some(2), [MarketStatus(Ws, 2)])),
                        emitted := [SnapshotOf(p.t), Shows(p, Newer(p))],
                        finished := [Done([], Returned(Shows(p, Newer(p))))])
  }

  function AfterStatus(p: Pair): (x: Session) {
    AfterNewer(p).(lane := Some(LaneRecord(Some(Ws), None, Some(2), [])),
                   emitted := [SnapshotOf(p.t), Shows(p, Newer(p)), MarketStatus(Ws, 2)],
                   finished := [Done([], Returned(Shows(p, Newer(p)))), Done([], Returned(MarketStatus(Ws, 2)))])
  }

  lemma SnapshotShown(t: Target, raw: seq<Bar>)
    requires Normalize(raw) != []
    ensures FinishSnapshot(BoundSession(t).(call := SnapshotFetch(t)), Fetched(raw))
         == BoundSession(t).(remembered := Some(t), priceEpoch := 1,
                             emitted := [OhlcvSnapshot(EntityKey(t), t.timeframe, Normalize(raw))])
  {
  }

  lemma SlugOk(p: Pair)
    requires PairOk(p)
    ensures p.n > 0 && ChainSlug(p.n) == Some(Slug(p))
    ensures PriceFrame(p.t, Newer(p)) == Some(Shows(p, Newer(p))) && PriceFrame(p.t, Older(p)) == Some(Shows(p, Older(p)))
  {
    PositiveNetwork(p.t.chain);
    SlugRoundTrip(p.t.chain);
  }

  lemma NewerIsQueued(t: Target, h: Hub, q: Price, f: Frame)
    requires h.state.live && h.state.trending.None? && |h.log| == 2
    requires PriceFrame(t, q) == Some(f) && q.generation == 2
    ensures LaneSection(AfterSnapshot(t), h, t, Some(q))
         == AfterSnapshot(t).(lane := Some(LaneRecord(Some(Ws), None, Some(2), [f, MarketStatus(Ws, 2)])))
  {
    assert [] + [f] + [MarketStatus(Ws, 2)] == [f, MarketStatus(Ws, 2)];
  }

  lemma NewerIsShown(p: Pair, c: Config)
    requires PairOk(p)
    ensures LoopHead(AfterSnapshot(p.t), Some(Stock(p, 0)), c, 0, [], Some(Newer(p))) == AfterNewer(p)
  {
    SlugOk(p);
    var f := Shows(p, Newer(p));
    NewerIsQueued(p.t, Stock(p, 0), Newer(p), f);
    assert [f, MarketStatus(Ws, 2)][1..] == [MarketStatus(Ws, 2)];
    assert [SnapshotOf(p.t)] + [f] == AfterNewer(p).emitted;
  }

  lemma StatusIsShown(p: Pair, c: Config)
    ensures LoopHead(AfterNewer(p), Some(Stock(p, 0)), c, 0, [], Some(Newer(p))) == AfterStatus(p)
  {
    assert [MarketStatus(Ws, 2)][1..] == [];
    assert AfterNewer(p).emitted + [MarketStatus(Ws, 2)] == AfterStatus(p).emitted;
  }

  lemma OlderIsShown(p: Pair, c: Config, k: nat)
    requires PairOk(p)
    ensures var x := LoopHead(AfterStatus(p), Some(Crowded(p, k)), c, 0, [], Some(Older(p)));
            && x.priceEpoch == 1
            && x.emitted == [SnapshotOf(p.t), Shows(p, Newer(p)), MarketStatus(Ws, 2), Shows(p, Older(p))]
  {
    SlugOk(p);
    var x, f := AfterStatus(p), Shows(p, Older(p));
    assert [] + [f] == [f];
    assert Pending(LaneSection(x, Crowded(p, k), p.t, Some(Older(p)))) == [f];
    assert x.emitted + [f] == [SnapshotOf(p.t), Shows(p, Newer(p)), MarketStatus(Ws, 2), f];
  }

  // ---- Runs ---------------------------------------------------------------------------------

  /** The scan of the price map meets entry `key` first: it is picked whenever it is there. */
  ghost predicate Prefers(s: State, step: Step, key: Key) {
    s.hub.Some? && key in s.hub.value.state.prices && (step.DeltaBegins? || step.PollArrives? || step.PollFailed?) ==>
      step.pick == Some(s.hub.value.state.prices[key])
  }

  /** A run with its steps, in which the order of the price map never changes. */
  ghost predicate IsSteadyRun(ss: seq<State>, steps: seq<Step>, c: Config, key: Key) {
    IsSteppedRun(ss, steps, c) && forall i :: 0 <= i < |steps| ==> Prefers(ss[i], steps[i], key)
  }

  lemma SteadyRunIsRun(ss: seq<State>, steps: seq<Step>, c: Config, key: Key)
    requires IsSteadyRun(ss, steps, c, key)
    ensures IsSessionRun(ss, c)
  {
    forall i | 0 <= i < |ss| - 1
      ensures Moves(ss[i], ss[i + 1], c)
    {
      assert Takes(ss[i], ss[i + 1], c, steps[i]);
    }
  }

  lemma Extend(ss: seq<State>, steps: seq<Step>, c: Config, key: Key, s: State, step: Step)
    requires IsSteadyRun(ss, steps, c, key) && Takes(Last(ss), s, c, step) && Prefers(Last(ss), step, key)
    ensures IsSteadyRun(ss + [s], steps + [step], c, key) && Last(ss + [s]) == s
  {
    var ss', steps' := ss + [s], steps + [step];
    forall i | 0 <= i < |steps'|
      ensures Takes(ss'[i], ss'[i + 1], c, steps'[i]) && Prefers(ss'[i], steps'[i], key)
    {
      if i < |steps| {
        assert ss'[i] == ss[i] && ss'[i + 1] == ss[i + 1] && steps'[i] == steps[i];
      } else {
        assert ss'[i] == Last(ss) && ss'[i + 1] == s && steps'[i] == step;
      }
    }
  }

  /** Up to the snapshot of the target. */
  lemma RunToSnapshot(t: Target, c: Config, key: Key) returns (ss: seq<State>, steps: seq<Step>)
    requires Validated(t)
    ensures IsSteadyRun(ss, steps, c, key) && Last(ss) == State(AfterSnapshot(t), Some(INITIAL))
  {
    CandleSurvives();
    SnapshotShown(t, [CANDLE]);
    var x := BoundSession(t);
    var s0, s1 := State(NEW_SESSION, Some(INITIAL)), State(x, Some(INITIAL));
    var s2, s3 := State(x.(call := SnapshotFetch(t)), Some(INITIAL)), State(AfterSnapshot(t), Some(INITIAL));
    ss, steps := [s0], [];
    Extend(ss, steps, c, key, s1, Bound(t));
    ss, steps := ss + [s1], steps + [Bound(t)];
    Extend(ss, steps, c, key, s2, SnapshotBegins);
    ss, steps := ss + [s2], steps + [SnapshotBegins];
    Extend(ss, steps, c, key, s3, SnapshotArrives(Fetched([CANDLE])));
    ss, steps := ss + [s3], steps + [SnapshotArrives(Fetched([CANDLE]))];
  }

  /** A hub operation while the session is idle. */
  lemma Publishes(ss: seq<State>, steps: seq<Step>, c: Config, key: Key, x: Session, h: Hub, h': Hub)
    requires IsSteadyRun(ss, steps, c, key) && Last(ss) == State(x, Some(h)) && Next(h, h', c.limits)
    ensures IsSteadyRun(ss + [State(x, Some(h'))], steps + [HubMoves], c, key)
    ensures Last(ss + [State(x, Some(h'))]) == State(x, Some(h'))
  {
    Extend(ss, steps, c, key, State(x, Some(h')), HubMoves);
  }

  /** One `next_delta_for` call that returns at once. */
  lemma Calls(ss: seq<State>, steps: seq<Step>, c: Config, key: Key, x: Session, h: Hub, pick: Price, y: Session)
    requires IsSteadyRun(ss, steps, c, key) && Last(ss) == State(x, Some(h)) && x.call.Idle? && x.binding.Some?
    requires PickOk(h, x.binding.value, Some(pick)) && (key in h.state.prices ==> h.state.prices[key] == pick)
    requires y == LoopHead(x, Some(h), c, 0, [], Some(pick))
    ensures IsSteadyRun(ss + [State(y, Some(h))], steps + [DeltaBegins(Some(pick))], c, key)
    ensures Last(ss + [State(y, Some(h))]) == State(y, Some(h))
  {
    Extend(ss, steps, c, key, State(y, Some(h)), DeltaBegins(Some(pick)));
  }

  /** Up to the two calls that show the newer spelling and the status. */
  lemma RunToStatus(p: Pair, c: Config) returns (ss: seq<State>, steps: seq<Step>)
    requires PairOk(p) && c.limits.maxPrices >= 2
    ensures IsSteadyRun(ss, steps, c, (p.n, p.b)) && Last(ss) == State(AfterStatus(p), Some(Stock(p, 0)))
  {
    var key, x, h := (p.n, p.b), AfterSnapshot(p.t), Stock(p, 0);
    ss, steps := RunToSnapshot(p.t, c, key);
    FirstTicks(p, c.limits);
    Publishes(ss, steps, c, key, x, INITIAL, OnlyOlder(p));
    ss, steps := ss + [State(x, Some(OnlyOlder(p)))], steps + [HubMoves];
    Publishes(ss, steps, c, key, x, OnlyOlder(p), h);
    ss, steps := ss + [State(x, Some(h))], steps + [HubMoves];
    NewerMayBePicked(p);
    NewerIsShown(p, c);
    Calls(ss, steps, c, key, x, h, Newer(p), AfterNewer(p));
    ss, steps := ss + [State(AfterNewer(p), Some(h))], steps + [DeltaBegins(Some(Newer(p)))];
    StatusIsShown(p, c);
    Calls(ss, steps, c, key, AfterNewer(p), h, Newer(p), AfterStatus(p));
    ss, steps := ss + [State(AfterStatus(p), Some(h))], steps + [DeltaBegins(Some(Newer(p)))];
  }

  lemma {:induction false} RunToStock(p: Pair, c: Config, k: nat) returns (ss: seq<State>, steps: seq<Step>)
    requires PairOk(p) && k + 2 <= c.limits.maxPrices
    ensures IsSteadyRun(ss, steps, c, (p.n, p.b)) && Last(ss) == State(AfterStatus(p), Some(Stock(p, k)))
  {
    if k == 0 {
      ss, steps := RunToStatus(p, c);
    } else {
      ss, steps := RunToStock(p, c, k - 1);
      SlugOk(p);
      StockGrows(p, k - 1, c.limits);
      Publishes(ss, steps, c, (p.n, p.b), AfterStatus(p), Stock(p, k - 1), Stock(p, k));
      ss, steps := ss + [State(AfterStatus(p), Some(Stock(p, k)))], steps + [HubMoves];
    }
  }

  // ---- Main results -------------------------------------------------------------------------

  /** For every target, every two spellings of its address and every hub that keeps two prices: a run, with one
      unchanging order of the price map, that shows the target the price of `b`, published second, and then
      the price of `a`, published first, with no snapshot and no reset in between. */
  lemma TwoSpellingsGoBack(p: Pair, c: Config) returns (ss: seq<State>, steps: seq<Step>)
    requires PairOk(p) && c.limits.maxPrices >= 2
    ensures IsSteadyRun(ss, steps, c, (p.n, p.b)) && IsSessionRun(ss, c)
    ensures var x := Last(ss).session;
            && x.binding == Some(p.t) && Shown(x.emitted) == Some(p.t) && x.priceEpoch <= |x.emitted|
            && x.emitted[x.priceEpoch..] == [Shows(p, Newer(p)), MarketStatus(Ws, 2), Shows(p, Older(p))]
            && PriceSerials(x.emitted[x.priceEpoch..]) == [2, 1]
  {
    var k := c.limits.maxPrices - 2;
    var h, key := Crowded(p, k), (p.n, p.b);
    ss, steps := RunToStock(p, c, k);
    SlugOk(p);
    NewerIsEvicted(p, k, c.limits);
    Publishes(ss, steps, c, key, AfterStatus(p), Stock(p, k), h);
    ss, steps := ss + [State(AfterStatus(p), Some(h))], steps + [HubMoves];
    OlderIsForced(p, k, Some(Older(p)));
    var x := LoopHead(AfterStatus(p), Some(h), c, 0, [], Some(Older(p)));
    Calls(ss, steps, c, key, AfterStatus(p), h, Older(p), x);
    ss, steps := ss + [State(x, Some(h))], steps + [DeltaBegins(Some(Older(p)))];
    SteadyRunIsRun(ss, steps, c, key);
    OlderIsShown(p, c, k);
    EmittedFacts(p);
  }

  lemma EmittedFacts(p: Pair)
    requires PairOk(p)
    ensures var fs := [SnapshotOf(p.t), Shows(p, Newer(p)), MarketStatus(Ws, 2), Shows(p, Older(p))];
            && Shown(fs) == Some(p.t)
            && fs[1..] == [Shows(p, Newer(p)), MarketStatus(Ws, 2), Shows(p, Older(p))]
            && PriceSerials(fs[1..]) == [2, 1]
  {
    TargetOfEntityKey(p.t);
    FourShown(SnapshotOf(p.t), Shows(p, Newer(p)), MarketStatus(Ws, 2), Shows(p, Older(p)));
    ThreeSerials(Shows(p, Newer(p)), MarketStatus(Ws, 2), Shows(p, Older(p)));
  }

  lemma FourShown(s: Frame, n: Frame, m: Frame, o: Frame)
    requires s.OhlcvSnapshot? && n.MarketPrice? && m.MarketStatus? && o.MarketPrice?
    ensures Shown([s, n, m, o]) == Some(TargetOf(s.key, s.timeframe))
    ensures [s, n, m, o][1..] == [n, m, o]
  {
    assert [s, n, m, o] == [s, n, m] + [o] && [s, n, m] == [s, n] + [m] && [s, n] == [s] + [n] && [s] == [] + [s];
    ShownAfter([], s);
    ShownAfter([s], n);
    ShownAfter([s, n], m);
    ShownAfter([s, n, m], o);
  }

  lemma ThreeSerials(n: Frame, m: Frame, o: Frame)
    requires n.MarketPrice? && m.MarketStatus? && o.MarketPrice?
    ensures PriceSerials([n, m, o]) == [n.quote.serial, o.quote.serial]
  {
    assert [n, m, o] == [n, m] + [o] && [n, m] == [n] + [m] && [n] == [] + [n];
    ProjectAppend([], n);
    ProjectAppend([n], m);
    ProjectAppend([n, m], o);
  }

  /** In every run that ends showing `t`, the prices since the last snapshot or reset come in hub order. */
  ghost predicate PricesKeepOrder(t: Target, c: Config) {
    forall ss: seq<State> :: IsSessionRun(ss, c) && Shown(Last(ss).session.emitted) == Some(t) ==>
      Increasing(PriceSerials(SincePriceEpoch(Last(ss).session)))
  }

  ghost function SincePriceEpoch(x: Session): seq<Frame> {
    if x.priceEpoch <= |x.emitted| then x.emitted[x.priceEpoch..] else []
  }

  /** The exact condition, for every target and every configuration: the order is kept in all runs if and only if
      the hub keeps a single price, the chain compares addresses exactly, or the address has no letter. */
  lemma PricesKeepOrderIff(t: Target, c: Config)
    requires Validated(t) && ConfigOk(c)
    ensures PricesKeepOrder(t, c) <==> c.limits.maxPrices == 1 || !CaseInsensitive(t.chain) || !HasLetter(t.address)
  {
    if c.limits.maxPrices == 1 || !CaseInsensitive(t.chain) || !HasLetter(t.address) {
      forall ss: seq<State> | IsSessionRun(ss, c) && Shown(Last(ss).session.emitted) == Some(t)
        ensures Increasing(PriceSerials(SincePriceEpoch(Last(ss).session)))
      {
        if Last(ss).hub.Some? {
          ConditionSettles(Last(ss).hub.value.log, t, c.limits);
        }
        PricesNeverGoBack(ss, c);
      }
    } else {
      var other := LetterHasTwoSpellings(t.address);
      var ss, steps := TwoSpellingsGoBack(Pair(t, NetworkId(t.chain).value, t.address, other), c);
      var serials := PriceSerials(SincePriceEpoch(Last(ss).session));
      assert serials[0] > serials[1];
    }
  }

  lemma ConditionSettles(log: seq<Op>, t: Target, lim: Limits)
    requires lim.maxPrices == 1 || !CaseInsensitive(t.chain) || !HasLetter(t.address)
    ensures Settled(log, t, lim)
  {
    if lim.maxPrices != 1 && !HasLetter(t.address) {
      forall i | 0 <= i < |log| && PublishesFor(log[i], t)
        ensures log[i].event.address == t.address
      {
        if CaseInsensitive(t.chain) {
          PlainHasOneSpelling(t.address, log[i].event.address);
        }
      }
    }
  }
}
