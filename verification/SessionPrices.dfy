/**
 Prices of one shown target come in the order of the hub operations behind them, provided the hub can
 never hold two of them at once: because the target was published under one spelling of its address
 only, or because the hub keeps a single price. `SessionSpellings` shows that nothing less will do.
 */
module SessionPrices {
  import opened Core
  import opened Bars
  import opened Identity
  import opened LaneHub
  import opened SessionMachine
  import opened SessionAlignment
  import opened SessionOrder

  ghost predicate PublishesFor(op: Op, t: Target) {
    op.Publish? && op.event.PriceEvent? && PriceMatches(t, op.event.networkId, op.event.address)
  }

  /** All prices ever published for the target use one spelling of its address. */
  ghost predicate OneSpelling(log: seq<Op>, t: Target) {
    forall i, j :: 0 <= i < |log| && 0 <= j < |log| && PublishesFor(log[i], t) && PublishesFor(log[j], t) ==>
      log[i].event.address == log[j].event.address
  }

  /** The hub never holds two prices of the target at once. */
  ghost predicate Settled(log: seq<Op>, t: Target, lim: Limits) {
    lim.maxPrices == 1 || OneSpelling(log, t)
  }

  lemma ExactChainHasOneSpelling(log: seq<Op>, t: Target)
    requires !CaseInsensitive(t.chain)
    ensures OneSpelling(log, t)
  {
  }

  /** Nothing the hub retains for the target is older than operation `serial`. */
  ghost predicate NothingOlder(h: Hub, t: Target, serial: nat) {
    forall k :: k in h.state.prices && PriceMatches(t, h.state.prices[k].networkId, h.state.prices[k].address) ==>
      h.state.prices[k].serial >= serial
  }

  ghost predicate PriceOrdered(flow: seq<Frame>, r: LaneRecord, hub: Option<Hub>, t: Target) {
    var serials := PriceSerials(flow);
    && Increasing(serials)
    && (serials != [] ==>
          && r.priceGeneration == Some(Last(serials) % TWO_64)
          && hub.Some? && Last(serials) <= |hub.value.log| && NothingOlder(hub.value, t, Last(serials)))
  }

  /** The invariant: prices since the last fresh start are ordered, as far as the hub is settled. */
  ghost predicate PricesInOrder(x: Session, hub: Option<Hub>, lim: Limits) {
    && x.priceEpoch <= |x.emitted|
    && (Shown(x.emitted).Some? && (hub.Some? ==> Settled(hub.value.log, Shown(x.emitted).value, lim)) ==>
          PriceOrdered(Flow(x.emitted, x.priceEpoch, Pending(x)), Record(x), hub, Shown(x.emitted).value))
  }

  lemma RetainedIsLogged(h: Hub, lim: Limits, k: Key)
    requires Inv(h, lim) && k in h.state.prices
    ensures StandsFor(h.log, k, h.state.prices[k])
  {
    LastPricesStandFor(h.log, k);
  }

  /** A settled hub retains at most one entry for the target. */
  lemma OneEntry(h: Hub, lim: Limits, t: Target, j: Key, k: Key)
    requires Inv(h, lim) && Settled(h.log, t, lim) && j in h.state.prices && k in h.state.prices
    requires PriceMatches(t, h.state.prices[j].networkId, h.state.prices[j].address)
    requires PriceMatches(t, h.state.prices[k].networkId, h.state.prices[k].address)
    ensures j == k
  {
    if lim.maxPrices == 1 && j != k {
      SubsetCount({j, k}, h.state.prices.Keys);
    }
    RetainedIsLogged(h, lim, j);
    RetainedIsLogged(h, lim, k);
    var p, q := h.state.prices[j], h.state.prices[k];
    assert PublishesFor(h.log[p.serial - 1], t) && PublishesFor(h.log[q.serial - 1], t);
  }

  lemma OnlyEntryIsNewest(h: Hub, lim: Limits, t: Target, k: Key)
    requires Inv(h, lim) && Settled(h.log, t, lim) && k in h.state.prices
    requires PriceMatches(t, h.state.prices[k].networkId, h.state.prices[k].address)
    ensures NothingOlder(h, t, h.state.prices[k].serial)
  {
    forall j | j in h.state.prices && PriceMatches(t, h.state.prices[j].networkId, h.state.prices[j].address)
      ensures h.state.prices[j].serial >= h.state.prices[k].serial
    {
      OneEntry(h, lim, t, j, k);
    }
  }

  /** Taking the hub's entry keeps the order: it is not older, and its generation differs. */
  lemma PushPriceOrdered(flow: seq<Frame>, r: LaneRecord, h: Hub, lim: Limits, t: Target, p: Price, f: Frame)
    requires Inv(h, lim) && Settled(h.log, t, lim) && PickOk(h, t, Some(p))
    requires PriceOrdered(flow, r, Some(h), t) && r.priceGeneration != Some(p.generation)
    requires f.MarketPrice? && f.quote == p
    ensures PriceOrdered(flow + [f], r.(priceGeneration := Some(p.generation)), Some(h), t)
  {
    var k :| k in h.state.prices && h.state.prices[k] == p;
    RetainedIsLogged(h, lim, k);
    ProjectAppend(flow, f);
    IncreasingAppend(PriceSerials(flow), p.serial);
    OnlyEntryIsNewest(h, lim, t, k);
  }

  lemma PushOtherKeepsPrices(flow: seq<Frame>, r: LaneRecord, hub: Option<Hub>, t: Target, f: Frame)
    requires PriceOrdered(flow, r, hub, t) && !f.MarketPrice?
    ensures PriceOrdered(flow + [f], r, hub, t)
  {
    ProjectAppend(flow, f);
  }

  // ---- Stages -------------------------------------------------------------------------------

  lemma TrendingStagePrices(emitted: seq<Frame>, from: nat, r: LaneRecord, h: Hub, t: Target)
    requires from <= |emitted| && PriceOrdered(Flow(emitted, from, r.pending), r, Some(h), t)
    ensures PriceOrdered(Flow(emitted, from, TrendingStage(r, h).pending), TrendingStage(r, h), Some(h), t)
  {
    var s := TrendingStage(r, h);
    if s != r {
      FlowPush(emitted, from, r.pending, Last(s.pending));
      PushOtherKeepsPrices(Flow(emitted, from, r.pending), r, Some(h), t, Last(s.pending));
    }
  }

  lemma PriceStagePrices(emitted: seq<Frame>, from: nat, r: LaneRecord, h: Hub, lim: Limits, t: Target, pick: Option<Price>)
    requires from <= |emitted| && Inv(h, lim) && Settled(h.log, t, lim) && PickOk(h, t, pick)
    requires PriceOrdered(Flow(emitted, from, r.pending), r, Some(h), t)
    ensures PriceOrdered(Flow(emitted, from, PriceStage(r, t, pick).pending), PriceStage(r, t, pick), Some(h), t)
  {
    if pick.Some? && r.priceGeneration != Some(pick.value.generation) {
      var p := pick.value;
      SlugRoundTrip(t.chain);
      var f := PriceFrame(t, p).value;
      FlowPush(emitted, from, r.pending, f);
      PushPriceOrdered(Flow(emitted, from, r.pending), r, h, lim, t, p, f);
    }
  }

  lemma PushStatusPrices(emitted: seq<Frame>, from: nat, r: LaneRecord, p: Provenance, ops: nat, hub: Option<Hub>, t: Target)
    requires from <= |emitted| && PriceOrdered(Flow(emitted, from, r.pending), r, hub, t)
    ensures PriceOrdered(Flow(emitted, from, PushStatus(r, p, ops).pending), PushStatus(r, p, ops), hub, t)
  {
    FlowPush(emitted, from, r.pending, MarketStatus(p, ops));
    PushOtherKeepsPrices(Flow(emitted, from, r.pending), r, hub, t, MarketStatus(p, ops));
  }

  lemma StatusStagePrices(emitted: seq<Frame>, from: nat, r: LaneRecord, h: Hub, t: Target)
    requires from <= |emitted| && PriceOrdered(Flow(emitted, from, r.pending), r, Some(h), t)
    ensures PriceOrdered(Flow(emitted, from, StatusStage(r, h).pending), StatusStage(r, h), Some(h), t)
  {
    PushStatusPrices(emitted, from, r, if h.state.live then Ws else Polling, |h.log|, Some(h), t);
  }

  lemma LaneSectionPrices(x: Session, h: Hub, t: Target, pick: Option<Price>, lim: Limits)
    requires Inv(h, lim) && PickOk(h, t, pick)
    requires Aligned(x) && Pending(x) == [] && PricesInOrder(x, Some(h), lim)
    ensures PricesInOrder(LaneSection(x, h, t, pick), Some(h), lim)
  {
    var r, y := Record(x), LaneSection(x, h, t, pick);
    if Shown(x.emitted).Some? && Settled(h.log, Shown(x.emitted).value, lim) {
      var shown := Shown(x.emitted).value;
      if h.state.live && x.remembered == Some(t) {
        TrendingStagePrices(x.emitted, x.priceEpoch, r, h, t);
        PriceStagePrices(x.emitted, x.priceEpoch, TrendingStage(r, h), h, lim, t, pick);
        StatusStagePrices(x.emitted, x.priceEpoch, PriceStage(TrendingStage(r, h), t, pick), h, t);
      } else if h.state.live {
        assert Flow(x.emitted, |x.emitted|, []) == [];
        StatusStagePrices(x.emitted, |x.emitted|, r.(priceGeneration := None), h, shown);
      } else {
        StatusStagePrices(x.emitted, x.priceEpoch, r, h, shown);
      }
    }
  }

  // ---- Calls --------------------------------------------------------------------------------

  lemma DeliverPrices(x: Session, hub: Option<Hub>, fetches: seq<Fetch>, lim: Limits)
    requires Pending(x) != [] && !Pending(x)[0].OhlcvSnapshot? && PricesInOrder(x, hub, lim)
    ensures PricesInOrder(Deliver(x, fetches), hub, lim)
  {
    FlowDeliver(x.emitted, x.priceEpoch, Pending(x));
    ShownAfter(x.emitted, Pending(x)[0]);
  }

  lemma LoopHeadPrices(x: Session, hub: Option<Hub>, c: Config, failures: nat, fetches: seq<Fetch>, pick: Option<Price>)
    requires HubOk(State(x, hub), c) && PickFits(State(x, hub), c, pick)
    requires Aligned(x) && PricesInOrder(x, hub, c.limits)
    ensures PricesInOrder(LoopHead(x, hub, c, failures, fetches, pick), hub, c.limits)
  {
    match Resolve(x, c)
    case None =>
    case Some(t) =>
      if Pending(x) != [] {
        DeliverPrices(x, hub, fetches, c.limits);
      } else if hub.Some? {
        LaneSectionPrices(x, hub.value, t, pick, c.limits);
        LaneSectionAligned(x, hub.value, t, pick);
        var y := LaneSection(x, hub.value, t, pick);
        if Pending(y) != [] {
          DeliverPrices(y, hub, fetches, c.limits);
        }
      }
  }

  /** A snapshot starts the price sequence afresh. */
  lemma EmitSnapshotPrices(x: Session, hub: Option<Hub>, t: Target, f: Frame, lim: Limits)
    requires Pending(x) == []
    ensures PricesInOrder(EmitSnapshot(x, t, f), hub, lim)
  {
    var y := EmitSnapshot(x, t, f);
    assert Flow(y.emitted, y.priceEpoch, Pending(y)) == [];
  }

  lemma FinishDeltaPrices(x: Session, hub: Option<Hub>, fetches: seq<Fetch>, f: Frame, lim: Limits)
    requires Pending(x) == [] && f.OhlcvDelta? && PricesInOrder(x, hub, lim)
    ensures PricesInOrder(Finish(x, fetches, Returned(f)), hub, lim)
  {
    FlowEmit(x.emitted, x.priceEpoch, f);
    ShownAfter(x.emitted, f);
    ProjectAppend(Flow(x.emitted, x.priceEpoch, []), f);
  }

  /** Leaving the fetch behind changes nothing that matters here. */
  lemma IdlePrices(x: Session, hub: Option<Hub>, c: Config, pick: Option<Price>)
    requires PickFits(State(x, hub), c, pick) && x.call.DeltaFetch? && Aligned(x) && PricesInOrder(x, hub, c.limits)
    ensures var y := x.(call := Idle);
            PickFits(State(y, hub), c, pick) && Aligned(y) && PricesInOrder(y, hub, c.limits) && Pending(y) == []
  {
  }

  lemma PollSucceedsPrices(x: Session, hub: Option<Hub>, c: Config, raw: seq<Bar>, pick: Option<Price>)
    requires HubOk(State(x, hub), c) && PickFits(State(x, hub), c, pick)
    requires x.call.DeltaFetch? && Aligned(x) && NoStaleOutage(x, hub) && PricesInOrder(x, hub, c.limits)
    ensures PricesInOrder(PollSucceeds(x, hub, c, raw, pick), hub, c.limits)
  {
    var y, t, bars := x.(call := Idle), x.call.target, Normalize(raw);
    IdlePrices(x, hub, c, pick);
    assert Recover(y, hub) == y;
    if bars == [] {
      LoopHeadPrices(y, hub, c, 0, x.call.fetches + [Fetched(raw)], pick);
    } else if x.call.switched {
      EmitSnapshotPrices(y, hub, t, OhlcvSnapshot(EntityKey(t), t.timeframe, bars), c.limits);
    } else {
      FinishDeltaPrices(y, hub, x.call.fetches + [Fetched(raw)], DeltaFrame(t, Last(bars)), c.limits);
    }
  }

  lemma ReportOutagePrices(x: Session, h: Hub, fetches: seq<Fetch>, lim: Limits)
    requires Pending(x) == [] && PricesInOrder(x, Some(h), lim)
    ensures PricesInOrder(ReportOutage(x, h, fetches), Some(h), lim)
  {
    var y := x.(lane := Some(PushStatus(Record(x), Unavailable, |h.log|)));
    if Shown(x.emitted).Some? && Settled(h.log, Shown(x.emitted).value, lim) {
      PushStatusPrices(x.emitted, x.priceEpoch, Record(x), Unavailable, |h.log|, Some(h), Shown(x.emitted).value);
    }
    DeliverPrices(y, Some(h), fetches, lim);
  }

  lemma PollFailsPrices(x: Session, hub: Option<Hub>, c: Config, pick: Option<Price>)
    requires HubOk(State(x, hub), c) && PickFits(State(x, hub), c, pick)
    requires x.call.DeltaFetch? && Aligned(x) && PricesInOrder(x, hub, c.limits)
    ensures PricesInOrder(PollFails(x, hub, c, pick), hub, c.limits)
  {
    var y, failures, fetches := x.(call := Idle), x.call.failures + 1, x.call.fetches + [Failed];
    IdlePrices(x, hub, c, pick);
    if failures < MAX_STREAM_FAILURES {
      if hub.Some? && Record(x).provenance != Some(Unavailable) {
        ReportOutagePrices(y, hub.value, fetches, c.limits);
      } else {
        LoopHeadPrices(y, hub, c, failures, fetches, pick);
      }
    }
  }

  // ---- Hub moves --------------------------------------------------------------------------

  lemma OneSpellingBefore(log: seq<Op>, op: Op, t: Target)
    requires OneSpelling(log + [op], t)
    ensures OneSpelling(log, t)
  {
    var longer := log + [op];
    forall i, j | 0 <= i < |log| && 0 <= j < |log| && PublishesFor(log[i], t) && PublishesFor(log[j], t)
      ensures log[i].event.address == log[j].event.address
    {
      assert longer[i] == log[i] && longer[j] == log[j];
    }
  }

  /** An operation only makes the retained entries younger. */
  lemma NothingOlderNext(h: Hub, h': Hub, lim: Limits, t: Target, serial: nat)
    requires Next(h, h', lim) && NothingOlder(h, t, serial) && serial <= |h.log|
    ensures NothingOlder(h', t, serial)
  {
    if h'.state.prices != h.state.prices {
      var e, victim :| Published(h, h', e, victim, lim);
      forall k | k in h'.state.prices && PriceMatches(t, h'.state.prices[k].networkId, h'.state.prices[k].address)
        ensures h'.state.prices[k].serial >= serial
      {
        if k != (e.networkId, e.address) {
          assert k in h.state.prices && h'.state.prices[k] == h.state.prices[k];
        }
      }
    }
  }

  lemma HubMovePrices(x: Session, h: Hub, h': Hub, lim: Limits)
    requires Next(h, h', lim) && PricesInOrder(x, Some(h), lim)
    ensures PricesInOrder(x, Some(h'), lim)
  {
    if Shown(x.emitted).Some? && Settled(h'.log, Shown(x.emitted).value, lim) {
      var t, serials := Shown(x.emitted).value, PriceSerials(Flow(x.emitted, x.priceEpoch, Pending(x)));
      if OneSpelling(h'.log, t) {
        OneSpellingBefore(h.log, Last(h'.log), t);
      }
      if serials != [] {
        NothingOlderNext(h, h', lim, t, Last(serials));
      }
    }
  }

  lemma StepPrices(s: State, s': State, c: Config, step: Step)
    requires HubOk(s, c) && Takes(s, s', c, step)
    requires Aligned(s.session) && NoStaleOutage(s.session, s.hub) && PricesInOrder(s.session, s.hub, c.limits)
    ensures PricesInOrder(s'.session, s'.hub, c.limits)
  {
    var x := s.session;
    match step
    case SnapshotArrives(fetch) => SnapshotPrices(x, s.hub, fetch, c.limits);
    case DeltaBegins(pick) => LoopHeadPrices(x, s.hub, c, 0, [], pick);
    case PollArrives(raw, pick) => PollSucceedsPrices(x, s.hub, c, raw, pick);
    case PollFailed(pick) => PollFailsPrices(x, s.hub, c, pick);
    case HubMoves => HubMovePrices(x, s.hub.value, s'.hub.value, c.limits);
    case _ =>
      if step.SnapshotBegins? || step.LaneEvicted? {
        DroppedPrices(s'.session, s.hub, c.limits);
      } else {
        SamePrices(x, s'.session, s.hub, c.limits);
      }
  }

  lemma SnapshotPrices(x: Session, hub: Option<Hub>, fetch: Fetch, lim: Limits)
    requires x.call.SnapshotFetch? && Aligned(x) && PricesInOrder(x, hub, lim)
    ensures PricesInOrder(FinishSnapshot(x, fetch), hub, lim)
  {
    if fetch.Fetched? && Normalize(fetch.raw) != [] {
      EmitSnapshotPrices(x, hub, x.call.target, SnapshotFrame(x.call.target, Normalize(fetch.raw)).value, lim);
    } else {
      SamePrices(x, FinishSnapshot(x, fetch), hub, lim);
    }
  }

  lemma DroppedPrices(y: Session, hub: Option<Hub>, lim: Limits)
    requires y.lane == None && y.priceEpoch == |y.emitted|
    ensures PricesInOrder(y, hub, lim)
  {
    assert Flow(y.emitted, |y.emitted|, []) == [];
  }

  lemma SamePrices(x: Session, y: Session, hub: Option<Hub>, lim: Limits)
    requires PricesInOrder(x, hub, lim) && y.lane == x.lane && y.emitted == x.emitted && y.priceEpoch == x.priceEpoch
    ensures PricesInOrder(y, hub, lim)
  {
  }

  lemma {:induction false} RunPrices(ss: seq<State>, c: Config)
    requires ConfigOk(c) && IsSessionRun(ss, c)
    ensures PricesInOrder(Last(ss).session, Last(ss).hub, c.limits)
  {
    if |ss| > 1 {
      RunPrices(Front(ss), c);
      RunAligned(Front(ss), c);
      RunOrdered(Front(ss), c);
      var s, s' := ss[|ss| - 2], ss[|ss| - 1];
      assert Moves(s, s', c);
      var step :| Takes(s, s', c, step);
      StepPrices(s, s', c, step);
    }
  }

  // ---- Main results ----------------------------------------------------------------------

  /** Since the last ohlcv snapshot (or the last reset of the price bookkeeping, if that is later), the
      prices of the shown target stem from strictly later and later hub operations, provided the target
      was only ever published under one spelling or the hub keeps a single price. */
  lemma PricesNeverGoBack(ss: seq<State>, c: Config)
    requires ConfigOk(c) && IsSessionRun(ss, c)
    requires Shown(Last(ss).session.emitted).Some?
    requires Last(ss).hub.Some? ==> Settled(Last(ss).hub.value.log, Shown(Last(ss).session.emitted).value, c.limits)
    ensures var x := Last(ss).session;
            x.priceEpoch <= |x.emitted| && Increasing(PriceSerials(x.emitted[x.priceEpoch..]))
  {
    RunPrices(ss, c);
    var x := Last(ss).session;
    EmittedPrefix(x.emitted[x.priceEpoch..], Pending(x));
  }

  /** On a byte-exact chain no condition is left. */
  lemma ExactChainPricesNeverGoBack(ss: seq<State>, c: Config)
    requires ConfigOk(c) && IsSessionRun(ss, c)
    requires Shown(Last(ss).session.emitted).Some? && !CaseInsensitive(Shown(Last(ss).session.emitted).value.chain)
    ensures var x := Last(ss).session;
            x.priceEpoch <= |x.emitted| && Increasing(PriceSerials(x.emitted[x.priceEpoch..]))
  {
    if Last(ss).hub.Some? {
      ExactChainHasOneSpelling(Last(ss).hub.value.log, Shown(Last(ss).session.emitted).value);
    }
    PricesNeverGoBack(ss, c);
  }
}
