/**
 Where a session's frames come from. Every frame labelled `fomo-ws` stands for an operation in the
 hub's log, and through the lane client for an event of a batch that passed the provenance gate.
 */
module SessionProvenance {
  import opened Core
  import opened Bars
  import opened Identity
  import opened LaneHub
  import opened LaneClient
  import opened SessionMachine
  import opened SessionAlignment
  import opened SessionOrder
  import opened SessionPrices

  /** A quote stands for the price event published as operation `serial`. */
  ghost predicate QuoteLogged(log: seq<Op>, q: Price) {
    && 1 <= q.serial <= |log|
    && q.generation == q.serial % TWO_64
    && log[q.serial - 1] == Publish(PriceEvent(q.networkId, q.address, q.priceUsd, q.detail, q.observedAtMs))
  }

  ghost predicate FrameLogged(f: Frame, log: seq<Op>, lim: Limits) {
    match f
    case MarketTrending(e) => TrendingStandsFor(log, e, lim)
    case MarketPrice(chain, address, quote) => QuoteLogged(log, quote)
    case MarketStatus(p, ops) => ops <= |log| && (p == Ws ==> ops > 0 && log[ops - 1].Publish?)
    case _ => true
  }

  ghost predicate AllLogged(fs: seq<Frame>, log: seq<Op>, lim: Limits) {
    forall i :: 0 <= i < |fs| ==> FrameLogged(fs[i], log, lim)
  }

  /** Without a lane there is nothing to log and nothing of the lane is ever shown. */
  ghost function LogOf(hub: Option<Hub>): seq<Op> {
    if hub.Some? then hub.value.log else []
  }

  ghost predicate Logged(x: Session, hub: Option<Hub>, lim: Limits) {
    AllLogged(x.emitted, LogOf(hub), lim) && AllLogged(Pending(x), LogOf(hub), lim)
  }

  lemma LogGrows(f: Frame, log: seq<Op>, op: Op, lim: Limits)
    requires FrameLogged(f, log, lim)
    ensures FrameLogged(f, log + [op], lim)
  {
  }

  lemma TrendingStageLogged(r: LaneRecord, h: Hub, lim: Limits)
    requires Inv(h, lim) && AllLogged(r.pending, h.log, lim)
    ensures AllLogged(TrendingStage(r, h).pending, h.log, lim)
  {
    if h.state.trending.Some? {
      LastTrendingStandsFor(h.log, lim);
    }
  }

  lemma PriceStageLogged(r: LaneRecord, h: Hub, t: Target, pick: Option<Price>, lim: Limits)
    requires Inv(h, lim) && PickOk(h, t, pick) && AllLogged(r.pending, h.log, lim)
    ensures AllLogged(PriceStage(r, t, pick).pending, h.log, lim)
  {
    if pick.Some? {
      var k :| k in h.state.prices && h.state.prices[k] == pick.value;
      LastPricesStandFor(h.log, k);
      assert QuoteLogged(h.log, pick.value);
    }
  }

  /** `fomo-ws` is only queued from a hub whose last operation was a publish. */
  lemma StatusStageLogged(r: LaneRecord, h: Hub, lim: Limits)
    requires Inv(h, lim) && AllLogged(r.pending, h.log, lim)
    ensures AllLogged(StatusStage(r, h).pending, h.log, lim)
  {
  }

  lemma LaneSectionLogged(x: Session, h: Hub, t: Target, pick: Option<Price>, lim: Limits)
    requires Inv(h, lim) && PickOk(h, t, pick) && Logged(x, Some(h), lim)
    ensures Logged(LaneSection(x, h, t, pick), Some(h), lim)
  {
    var r := Record(x);
    if h.state.live && x.remembered == Some(t) {
      TrendingStageLogged(r, h, lim);
      PriceStageLogged(TrendingStage(r, h), h, t, pick, lim);
      StatusStageLogged(PriceStage(TrendingStage(r, h), t, pick), h, lim);
    } else {
      StatusStageLogged(r, h, lim);
      StatusStageLogged(r.(priceGeneration := None), h, lim);
    }
  }

  lemma DeliverLogged(x: Session, hub: Option<Hub>, lim: Limits, fetches: seq<Fetch>)
    requires Pending(x) != [] && Logged(x, hub, lim)
    ensures Logged(Deliver(x, fetches), hub, lim)
  {
  }

  lemma LoopHeadLogged(x: Session, hub: Option<Hub>, c: Config, failures: nat, fetches: seq<Fetch>, pick: Option<Price>)
    requires HubOk(State(x, hub), c) && PickFits(State(x, hub), c, pick) && Logged(x, hub, c.limits)
    ensures Logged(LoopHead(x, hub, c, failures, fetches, pick), hub, c.limits)
  {
    match Resolve(x, c)
    case None =>
    case Some(t) =>
      if Pending(x) != [] {
        DeliverLogged(x, hub, c.limits, fetches);
      } else if hub.Some? {
        LaneSectionLogged(x, hub.value, t, pick, c.limits);
        var y := LaneSection(x, hub.value, t, pick);
        if Pending(y) != [] {
          DeliverLogged(y, hub, c.limits, fetches);
        }
      }
  }

  lemma PollSucceedsLogged(x: Session, hub: Option<Hub>, c: Config, raw: seq<Bar>, pick: Option<Price>)
    requires HubOk(State(x, hub), c) && PickFits(State(x, hub), c, pick) && x.call.DeltaFetch?
    requires Logged(x, hub, c.limits)
    ensures Logged(PollSucceeds(x, hub, c, raw, pick), hub, c.limits)
  {
    var y := Recover(x.(call := Idle), hub);
    assert Logged(y, hub, c.limits);
    if Normalize(raw) == [] {
      LoopHeadLogged(y, hub, c, 0, x.call.fetches + [Fetched(raw)], pick);
    }
  }

  lemma ReportOutageLogged(x: Session, h: Hub, lim: Limits, fetches: seq<Fetch>)
    requires Logged(x, Some(h), lim)
    ensures Logged(ReportOutage(x, h, fetches), Some(h), lim)
  {
    DeliverLogged(x.(lane := Some(PushStatus(Record(x), Unavailable, |h.log|))), Some(h), lim, fetches);
  }

  lemma PollFailsLogged(x: Session, hub: Option<Hub>, c: Config, pick: Option<Price>)
    requires HubOk(State(x, hub), c) && PickFits(State(x, hub), c, pick) && x.call.DeltaFetch?
    requires Logged(x, hub, c.limits)
    ensures Logged(PollFails(x, hub, c, pick), hub, c.limits)
  {
    var y, failures, fetches := x.(call := Idle), x.call.failures + 1, x.call.fetches + [Failed];
    if failures < MAX_STREAM_FAILURES {
      if hub.Some? && Record(x).provenance != Some(Unavailable) {
        ReportOutageLogged(y, hub.value, c.limits, fetches);
      } else {
        LoopHeadLogged(y, hub, c, failures, fetches, pick);
      }
    }
  }

  lemma HubMoveLogged(x: Session, h: Hub, h': Hub, lim: Limits)
    requires Next(h, h', lim) && Logged(x, Some(h), lim)
    ensures Logged(x, Some(h'), lim)
  {
    assert h'.log == h.log + [Last(h'.log)];
    forall f | FrameLogged(f, h.log, lim)
      ensures FrameLogged(f, h'.log, lim)
    {
      LogGrows(f, h.log, Last(h'.log), lim);
    }
  }

  lemma StepLogged(s: State, s': State, c: Config, step: Step)
    requires HubOk(s, c) && Takes(s, s', c, step) && Logged(s.session, s.hub, c.limits)
    ensures Logged(s'.session, s'.hub, c.limits)
  {
    var x := s.session;
    match step
    case DeltaBegins(pick) => LoopHeadLogged(x, s.hub, c, 0, [], pick);
    case PollArrives(raw, pick) => PollSucceedsLogged(x, s.hub, c, raw, pick);
    case PollFailed(pick) => PollFailsLogged(x, s.hub, c, pick);
    case HubMoves => HubMoveLogged(x, s.hub.value, s'.hub.value, c.limits);
    case _ =>
  }

  lemma {:induction false} RunLogged(ss: seq<State>, c: Config)
    requires ConfigOk(c) && IsSessionRun(ss, c)
    ensures Logged(Last(ss).session, Last(ss).hub, c.limits)
  {
    if |ss| > 1 {
      RunLogged(Front(ss), c);
      RunOrdered(Front(ss), c);
      var s, s' := ss[|ss| - 2], ss[|ss| - 1];
      assert Moves(s, s', c);
      var step :| Takes(s, s', c, step);
      StepLogged(s, s', c, step);
    }
  }

  // ---- Main results ----------------------------------------------------------------------

  /** The lane event a frame was built from. */
  ghost predicate BuiltFrom(f: Frame, e: Event, lim: Limits) {
    match f
    case MarketTrending(t) => e.TrendingEvent? && Shortened(t, e, lim)
    case MarketPrice(chain, address, q) => e.PriceEvent? && Shows(q, e)
    case _ => false
  }

  /** End to end: every data frame labelled `fomo-ws` was built from an event of a batch that the bridge
      labelled `websocket` and promoted, through client buffer, hub and session queue. */
  lemma WsFramesPassedTheGate(ss: seq<State>, c: Config, ps: seq<Pipeline>, i: nat)
    requires ConfigOk(c) && IsSessionRun(ss, c) && IsPipelineRun(ps, c.limits)
    requires Last(ss).hub == Some(Last(ps).hub)
    requires i < |Last(ss).session.emitted|
    requires var f := Last(ss).session.emitted[i]; f.MarketTrending? || f.MarketPrice?
    ensures exists e, r :: BuiltFrom(Last(ss).session.emitted[i], e, c.limits) && CarriedBy(Last(ps).responses, r, e)
  {
    RunLogged(ss, c);
    var f, log := Last(ss).session.emitted[i], Last(ps).hub.log;
    assert FrameLogged(f, log, c.limits);
    var n := (if f.MarketTrending? then f.event.serial else f.quote.serial) - 1;
    HubLogIsGated(ps, c.limits, n);
    var r :| CarriedBy(Last(ps).responses, r, log[n].event);
    assert BuiltFrom(f, log[n].event, c.limits);
  }

  /** A `fomo-ws` status was queued at a moment when the hub's last operation was a publish. */
  lemma WsStatusFollowsPublish(ss: seq<State>, c: Config, i: nat)
    requires ConfigOk(c) && IsSessionRun(ss, c) && i < |Last(ss).session.emitted|
    requires Last(ss).session.emitted[i].MarketStatus? && Last(ss).session.emitted[i].provenance == Ws
    ensures Last(ss).hub.Some?
    ensures var n := Last(ss).session.emitted[i].hubOps;
            0 < n <= |Last(ss).hub.value.log| && Last(ss).hub.value.log[n - 1].Publish?
  {
    RunLogged(ss, c);
    assert FrameLogged(Last(ss).session.emitted[i], LogOf(Last(ss).hub), c.limits);
  }

  ghost function TrendingGenerations(fs: seq<Frame>): seq<int> {
    if fs == [] then []
    else TrendingGenerations(Front(fs)) + (if Last(fs).MarketTrending? then [Last(fs).event.generation] else [])
  }

  ghost function PriceGenerations(fs: seq<Frame>): seq<int> {
    if fs == [] then []
    else PriceGenerations(Front(fs)) + (if Last(fs).MarketPrice? then [Last(fs).quote.generation] else [])
  }

  /** Until the hub has done 2^64 operations, the generations on the frames are the operation numbers, so
      the orders proved for operation numbers hold for generations. */
  lemma {:induction false} GenerationsAreSerials(fs: seq<Frame>, log: seq<Op>, lim: Limits)
    requires AllLogged(fs, log, lim) && |log| < TWO_64
    ensures TrendingGenerations(fs) == TrendingSerials(fs)
    ensures PriceGenerations(fs) == PriceSerials(fs)
  {
    if fs != [] {
      GenerationsAreSerials(Front(fs), log, lim);
      assert FrameLogged(fs[|fs| - 1], log, lim);
    }
  }

  lemma TrendingGenerationsIncrease(ss: seq<State>, c: Config)
    requires ConfigOk(c) && IsSessionRun(ss, c) && |LogOf(Last(ss).hub)| < TWO_64
    ensures var x := Last(ss).session;
            && x.laneEpoch <= |x.emitted|
            && var g := TrendingGenerations(x.emitted[x.laneEpoch..]);
               forall i, j :: 0 <= i < j < |g| ==> g[i] < g[j]
  {
    RunLogged(ss, c);
    TrendingNeverRepeats(ss, c);
    var x := Last(ss).session;
    GenerationsAreSerials(x.emitted[x.laneEpoch..], LogOf(Last(ss).hub), c.limits);
  }

  /** On a chain with exact addresses, so do the generations of the shown target's prices since the last snapshot
      or reset. */
  lemma PriceGenerationsIncrease(ss: seq<State>, c: Config)
    requires ConfigOk(c) && IsSessionRun(ss, c) && |LogOf(Last(ss).hub)| < TWO_64
    requires Shown(Last(ss).session.emitted).Some? && !CaseInsensitive(Shown(Last(ss).session.emitted).value.chain)
    ensures var x := Last(ss).session;
            && x.priceEpoch <= |x.emitted|
            && var g := PriceGenerations(x.emitted[x.priceEpoch..]);
               forall i, j :: 0 <= i < j < |g| ==> g[i] < g[j]
  {
    RunLogged(ss, c);
    ExactChainPricesNeverGoBack(ss, c);
    var x := Last(ss).session;
    GenerationsAreSerials(x.emitted[x.priceEpoch..], LogOf(Last(ss).hub), c.limits);
  }
}
