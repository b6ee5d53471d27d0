/**
 The order of a session's lane frames: between two resets of its bookkeeping, trending and price
 events come in the order of the hub operations behind them and are never repeated, statuses never
 repeat, and the poll never finds the `unavailable` label it would have to recover from.
 */
module SessionOrder {
  import opened Core
  import opened Bars
  import opened Identity
  import opened LaneHub
  import opened SessionMachine
  import opened SessionAlignment

  // ---- Projections of a frame sequence ---------------------------------------------

  ghost function TrendingSerials(fs: seq<Frame>): seq<nat> {
    if fs == [] then []
    else TrendingSerials(Front(fs)) + (if Last(fs).MarketTrending? then [Last(fs).event.serial] else [])
  }

  ghost function PriceSerials(fs: seq<Frame>): seq<nat> {
    if fs == [] then []
    else PriceSerials(Front(fs)) + (if Last(fs).MarketPrice? then [Last(fs).quote.serial] else [])
  }

  ghost function Statuses(fs: seq<Frame>): seq<Provenance> {
    if fs == [] then []
    else Statuses(Front(fs)) + (if Last(fs).MarketStatus? then [Last(fs).provenance] else [])
  }

  ghost predicate Increasing(s: seq<nat>) {
    forall i, j :: 0 <= i < j < |s| ==> s[i] < s[j]
  }

  ghost predicate NeverRepeats(s: seq<Provenance>) {
    forall i :: 0 < i < |s| ==> s[i - 1] != s[i]
  }

  lemma ProjectAppend(fs: seq<Frame>, f: Frame)
    ensures TrendingSerials(fs + [f]) == TrendingSerials(fs) + (if f.MarketTrending? then [f.event.serial] else [])
    ensures PriceSerials(fs + [f]) == PriceSerials(fs) + (if f.MarketPrice? then [f.quote.serial] else [])
    ensures Statuses(fs + [f]) == Statuses(fs) + (if f.MarketStatus? then [f.provenance] else [])
  {
    FrontOfAppend(fs, f);
  }

  // ---- Emitted and queued frames as one stream ----------------------------------------

  /** What was emitted since position `from`, followed by what is queued. */
  ghost function Flow(emitted: seq<Frame>, from: nat, pending: seq<Frame>): seq<Frame>
    requires from <= |emitted|
  {
    emitted[from..] + pending
  }

  lemma FlowDeliver(emitted: seq<Frame>, from: nat, pending: seq<Frame>)
    requires from <= |emitted| && pending != []
    ensures Flow(emitted + [pending[0]], from, pending[1..]) == Flow(emitted, from, pending)
  {
  }

  lemma FlowPush(emitted: seq<Frame>, from: nat, pending: seq<Frame>, f: Frame)
    requires from <= |emitted|
    ensures Flow(emitted, from, pending + [f]) == Flow(emitted, from, pending) + [f]
  {
  }

  lemma FlowEmit(emitted: seq<Frame>, from: nat, f: Frame)
    requires from <= |emitted|
    ensures Flow(emitted + [f], from, []) == Flow(emitted, from, []) + [f]
  {
  }

  // ---- The invariant on one record ------------------------------------------------------

  /** Trending events of the flow, against the record and the hub. */
  ghost predicate TrendingOrdered(flow: seq<Frame>, r: LaneRecord, hub: Option<Hub>) {
    var serials := TrendingSerials(flow);
    && Increasing(serials)
    && (serials != [] ==>
          && r.trendingGeneration == Some(Last(serials) % TWO_64)
          && hub.Some? && hub.value.state.trending.Some?
          && Last(serials) <= hub.value.state.trending.value.serial)
  }

  ghost predicate StatusesOrdered(flow: seq<Frame>, r: LaneRecord) {
    && NeverRepeats(Statuses(flow))
    && (Statuses(flow) != [] ==> r.provenance == Some(Last(Statuses(flow))))
  }

  ghost predicate Ordered(x: Session, hub: Option<Hub>) {
    && x.laneEpoch <= |x.emitted|
    && var flow := Flow(x.emitted, x.laneEpoch, Pending(x));
       TrendingOrdered(flow, Record(x), hub) && StatusesOrdered(flow, Record(x))
  }

  /** With a lane attached, a parked poll never holds the `unavailable` label or a failure count. */
  ghost predicate NoStaleOutage(x: Session, hub: Option<Hub>) {
    hub.Some? && (x.call.Asleep? || x.call.DeltaFetch?) ==>
      Record(x).provenance != Some(Unavailable) && x.call.failures == 0
  }

  // ---- Pushing ---------------------------------------------------------------------------

  lemma {:induction false} IncreasingAppend(s: seq<nat>, n: nat)
    requires Increasing(s) && (s != [] ==> Last(s) < n)
    ensures Increasing(s + [n])
  {
    if s != [] {
      assert forall i :: 0 <= i < |s| ==> s[i] <= Last(s);
    }
  }

  /** Generations differ, so the serials differ; the hub's is never behind, so it is ahead. */
  lemma PushTrendingOrdered(flow: seq<Frame>, r: LaneRecord, h: Hub)
    requires h.state.trending.Some?
    requires var e := h.state.trending.value;
             e.generation == e.serial % TWO_64 && r.trendingGeneration != Some(e.generation)
    requires TrendingOrdered(flow, r, Some(h))
    ensures var e := h.state.trending.value;
            TrendingOrdered(flow + [MarketTrending(e)], r.(trendingGeneration := Some(e.generation)), Some(h))
  {
    var e := h.state.trending.value;
    ProjectAppend(flow, MarketTrending(e));
    IncreasingAppend(TrendingSerials(flow), e.serial);
  }

  lemma PushStatusOrdered(flow: seq<Frame>, r: LaneRecord, p: Provenance, ops: nat)
    requires StatusesOrdered(flow, r) && r.provenance != Some(p)
    ensures StatusesOrdered(flow + [MarketStatus(p, ops)], PushStatus(r, p, ops))
  {
    ProjectAppend(flow, MarketStatus(p, ops));
  }

  /** A frame that is neither trending nor status leaves both orders as they were. */
  lemma PushOtherOrdered(flow: seq<Frame>, r: LaneRecord, hub: Option<Hub>, f: Frame)
    requires TrendingOrdered(flow, r, hub) && StatusesOrdered(flow, r)
    ensures !f.MarketTrending? ==> TrendingOrdered(flow + [f], r, hub)
    ensures !f.MarketStatus? ==> StatusesOrdered(flow + [f], r)
  {
    ProjectAppend(flow, f);
  }

  // ---- Stages -------------------------------------------------------------------------------

  lemma TrendingStageOrdered(emitted: seq<Frame>, from: nat, r: LaneRecord, h: Hub, lim: Limits)
    requires from <= |emitted| && Inv(h, lim)
    requires TrendingOrdered(Flow(emitted, from, r.pending), r, Some(h)) && StatusesOrdered(Flow(emitted, from, r.pending), r)
    ensures var s := TrendingStage(r, h);
            TrendingOrdered(Flow(emitted, from, s.pending), s, Some(h)) && StatusesOrdered(Flow(emitted, from, s.pending), s)
  {
    if h.state.trending.Some? && r.trendingGeneration != Some(h.state.trending.value.generation) {
      var flow, f := Flow(emitted, from, r.pending), MarketTrending(h.state.trending.value);
      FlowPush(emitted, from, r.pending, f);
      LastTrendingStandsFor(h.log, lim);
      PushTrendingOrdered(flow, r, h);
      PushOtherOrdered(flow, r, Some(h), f);
    }
  }

  lemma PriceStageOrdered(emitted: seq<Frame>, from: nat, r: LaneRecord, t: Target, pick: Option<Price>, hub: Option<Hub>)
    requires from <= |emitted|
    requires TrendingOrdered(Flow(emitted, from, r.pending), r, hub) && StatusesOrdered(Flow(emitted, from, r.pending), r)
    ensures var s := PriceStage(r, t, pick);
            TrendingOrdered(Flow(emitted, from, s.pending), s, hub) && StatusesOrdered(Flow(emitted, from, s.pending), s)
  {
    var s := PriceStage(r, t, pick);
    if s.pending != r.pending {
      var f := Last(s.pending);
      FlowPush(emitted, from, r.pending, f);
      PushOtherOrdered(Flow(emitted, from, r.pending), r, hub, f);
    }
  }

  lemma PushStatusFlow(emitted: seq<Frame>, from: nat, r: LaneRecord, p: Provenance, ops: nat, hub: Option<Hub>)
    requires from <= |emitted| && r.provenance != Some(p)
    requires TrendingOrdered(Flow(emitted, from, r.pending), r, hub) && StatusesOrdered(Flow(emitted, from, r.pending), r)
    ensures var s := PushStatus(r, p, ops);
            TrendingOrdered(Flow(emitted, from, s.pending), s, hub) && StatusesOrdered(Flow(emitted, from, s.pending), s)
  {
    var flow, f := Flow(emitted, from, r.pending), MarketStatus(p, ops);
    FlowPush(emitted, from, r.pending, f);
    PushOtherOrdered(flow, r, hub, f);
    PushStatusOrdered(flow, r, p, ops);
  }

  lemma LaneSectionOrdered(x: Session, h: Hub, t: Target, pick: Option<Price>, lim: Limits)
    requires Inv(h, lim) && Ordered(x, Some(h))
    ensures Ordered(LaneSection(x, h, t, pick), Some(h))
    ensures Record(LaneSection(x, h, t, pick)).provenance == Some(if h.state.live then Ws else Polling)
  {
    var r := Record(x);
    var p := if h.state.live then Ws else Polling;
    var before := r;
    if h.state.live && x.remembered == Some(t) {
      TrendingStageOrdered(x.emitted, x.laneEpoch, r, h, lim);
      PriceStageOrdered(x.emitted, x.laneEpoch, TrendingStage(r, h), t, pick, Some(h));
      before := PriceStage(TrendingStage(r, h), t, pick);
    } else if h.state.live {
      before := r.(priceGeneration := None);
    }
    if before.provenance != Some(p) {
      PushStatusFlow(x.emitted, x.laneEpoch, before, p, |h.log|, Some(h));
    }
  }

  // ---- Calls --------------------------------------------------------------------------------

  lemma DeliverOrdered(x: Session, hub: Option<Hub>, fetches: seq<Fetch>)
    requires Pending(x) != [] && Ordered(x, hub)
    ensures Ordered(Deliver(x, fetches), hub)
  {
    FlowDeliver(x.emitted, x.laneEpoch, Pending(x));
  }

  lemma EmitOrdered(x: Session, hub: Option<Hub>, f: Frame)
    requires Pending(x) == [] && Ordered(x, hub) && (f.OhlcvSnapshot? || f.OhlcvDelta?)
    ensures Ordered(x.(emitted := x.emitted + [f]), hub)
  {
    FlowEmit(x.emitted, x.laneEpoch, f);
    PushOtherOrdered(Flow(x.emitted, x.laneEpoch, []), Record(x), hub, f);
  }

  lemma LoopHeadOrdered(x: Session, hub: Option<Hub>, c: Config, failures: nat, fetches: seq<Fetch>, pick: Option<Price>)
    requires hub.Some? ==> Inv(hub.value, c.limits) && failures == 0
    requires Ordered(x, hub)
    ensures Ordered(LoopHead(x, hub, c, failures, fetches, pick), hub)
    ensures NoStaleOutage(LoopHead(x, hub, c, failures, fetches, pick), hub)
  {
    match Resolve(x, c)
    case None =>
    case Some(t) =>
      if Pending(x) != [] {
        DeliverOrdered(x, hub, fetches);
      } else if hub.Some? {
        LaneSectionOrdered(x, hub.value, t, pick, c.limits);
        var y := LaneSection(x, hub.value, t, pick);
        if Pending(y) != [] {
          DeliverOrdered(y, hub, fetches);
        }
      }
  }

  lemma PollSucceedsOrdered(x: Session, hub: Option<Hub>, c: Config, raw: seq<Bar>, pick: Option<Price>)
    requires hub.Some? ==> Inv(hub.value, c.limits)
    requires x.call.DeltaFetch? && Pending(x) == [] && Ordered(x, hub) && NoStaleOutage(x, hub)
    ensures Ordered(PollSucceeds(x, hub, c, raw, pick), hub)
    ensures NoStaleOutage(PollSucceeds(x, hub, c, raw, pick), hub)
  {
    var y, t, bars := x.(call := Idle), x.call.target, Normalize(raw);
    assert Recover(y, hub) == y;
    if bars == [] {
      LoopHeadOrdered(y, hub, c, 0, x.call.fetches + [Fetched(raw)], pick);
    } else if x.call.switched {
      EmitOrdered(y, hub, OhlcvSnapshot(EntityKey(t), t.timeframe, bars));
    } else {
      EmitOrdered(y, hub, DeltaFrame(t, Last(bars)));
    }
  }

  lemma PollFailsOrdered(x: Session, hub: Option<Hub>, c: Config, pick: Option<Price>)
    requires hub.Some? ==> Inv(hub.value, c.limits)
    requires x.call.DeltaFetch? && Pending(x) == [] && Ordered(x, hub) && NoStaleOutage(x, hub)
    ensures Ordered(PollFails(x, hub, c, pick), hub)
    ensures NoStaleOutage(PollFails(x, hub, c, pick), hub)
  {
    var y := x.(call := Idle);
    if hub.Some? {
      var r := Record(y);
      PushStatusFlow(y.emitted, y.laneEpoch, r, Unavailable, |hub.value.log|, hub);
      DeliverOrdered(y.(lane := Some(PushStatus(r, Unavailable, |hub.value.log|))), hub, x.call.fetches + [Failed]);
    } else if x.call.failures + 1 < MAX_STREAM_FAILURES {
      LoopHeadOrdered(y, hub, c, x.call.failures + 1, x.call.fetches + [Failed], pick);
    }
  }

  lemma HubMoveOrdered(x: Session, h: Hub, h': Hub, lim: Limits)
    requires LimitsOk(lim) && Inv(h, lim) && Next(h, h', lim) && Ordered(x, Some(h))
    ensures Ordered(x, Some(h'))
  {
    if h.state.trending.Some? {
      LastTrendingStandsFor(h.log, lim);
      assert h'.state.trending.Some? && h.state.trending.value.serial <= h'.state.trending.value.serial;
    }
  }

  ghost predicate HubOk(s: State, c: Config) {
    s.hub.Some? ==> Inv(s.hub.value, c.limits)
  }

  lemma StepHubOk(s: State, s': State, c: Config, step: Step)
    requires ConfigOk(c) && HubOk(s, c) && Takes(s, s', c, step)
    ensures HubOk(s', c)
  {
    if step.HubMoves? {
      StepKeepsInv(s.hub.value, s'.hub.value, c.limits);
    }
  }

  lemma StepOrdered(s: State, s': State, c: Config, step: Step)
    requires ConfigOk(c) && HubOk(s, c) && Takes(s, s', c, step)
    requires Aligned(s.session) && Ordered(s.session, s.hub) && NoStaleOutage(s.session, s.hub)
    ensures Ordered(s'.session, s'.hub) && NoStaleOutage(s'.session, s'.hub)
  {
    var x := s.session;
    match step
    case SnapshotArrives(fetch) => SnapshotOrdered(x, s.hub, fetch);
    case DeltaBegins(pick) => LoopHeadOrdered(x, s.hub, c, 0, [], pick);
    case PollArrives(raw, pick) => PollSucceedsOrdered(x, s.hub, c, raw, pick);
    case PollFailed(pick) => PollFailsOrdered(x, s.hub, c, pick);
    case HubMoves => HubMoveOrdered(x, s.hub.value, s'.hub.value, c.limits);
    case _ => OtherStepOrdered(s, s', c, step);
  }

  lemma OtherStepOrdered(s: State, s': State, c: Config, step: Step)
    requires Takes(s, s', c, step) && !step.DeltaBegins? && !step.PollArrives? && !step.PollFailed? && !step.HubMoves?
    requires !step.SnapshotArrives?
    requires Ordered(s.session, s.hub) && NoStaleOutage(s.session, s.hub)
    ensures Ordered(s'.session, s'.hub) && NoStaleOutage(s'.session, s'.hub)
  {
    if step.SnapshotBegins? || step.LaneEvicted? {
      DroppedOrdered(s.session, s'.session, s.hub);
    } else {
      SameLaneOrdered(s.session, s'.session, s.hub);
    }
  }

  lemma DroppedOrdered(x: Session, y: Session, hub: Option<Hub>)
    requires Ordered(x, hub) && y.lane == None && y.emitted == x.emitted && y.laneEpoch == |x.emitted|
    ensures Ordered(y, hub)
  {
    assert Flow(y.emitted, y.laneEpoch, Pending(y)) == [];
  }

  lemma SameLaneOrdered(x: Session, y: Session, hub: Option<Hub>)
    requires Ordered(x, hub) && y.lane == x.lane && y.emitted == x.emitted && y.laneEpoch == x.laneEpoch
    ensures Ordered(y, hub)
  {
  }

  lemma SnapshotOrdered(x: Session, hub: Option<Hub>, fetch: Fetch)
    requires x.call.SnapshotFetch? && Aligned(x) && Ordered(x, hub) && NoStaleOutage(x, hub)
    ensures Ordered(FinishSnapshot(x, fetch), hub) && NoStaleOutage(FinishSnapshot(x, fetch), hub)
  {
    if fetch.Fetched? && Normalize(fetch.raw) != [] {
      EmitOrdered(x, hub, SnapshotFrame(x.call.target, Normalize(fetch.raw)).value);
    }
  }

  lemma {:induction false} RunOrdered(ss: seq<State>, c: Config)
    requires ConfigOk(c) && IsSessionRun(ss, c)
    ensures HubOk(Last(ss), c) && Ordered(Last(ss).session, Last(ss).hub)
    ensures NoStaleOutage(Last(ss).session, Last(ss).hub)
  {
    if |ss| > 1 {
      RunOrdered(Front(ss), c);
      RunAligned(Front(ss), c);
      var s, s' := ss[|ss| - 2], ss[|ss| - 1];
      assert Moves(s, s', c);
      var step :| Takes(s, s', c, step);
      StepHubOk(s, s', c, step);
      StepOrdered(s, s', c, step);
    }
  }

  // ---- Main results ----------------------------------------------------------------------

  lemma {:induction false} EmittedPrefix(fs: seq<Frame>, more: seq<Frame>)
    ensures TrendingSerials(fs) <= TrendingSerials(fs + more)
    ensures PriceSerials(fs) <= PriceSerials(fs + more)
    ensures Statuses(fs) <= Statuses(fs + more)
  {
    if more == [] {
      assert fs + more == fs;
    } else {
      EmittedPrefix(fs, Front(more));
      assert fs + more == (fs + Front(more)) + [Last(more)];
      ProjectAppend(fs + Front(more), Last(more));
    }
  }

  /** Since the session's lane record last vanished, emitted trending events stem from strictly later
      and later hub operations, so none is sent twice, even across a wrap of the 64-bit generation. */
  lemma TrendingNeverRepeats(ss: seq<State>, c: Config)
    requires ConfigOk(c) && IsSessionRun(ss, c)
    ensures var x := Last(ss).session;
            x.laneEpoch <= |x.emitted| && Increasing(TrendingSerials(x.emitted[x.laneEpoch..]))
  {
    RunOrdered(ss, c);
    var x := Last(ss).session;
    EmittedPrefix(x.emitted[x.laneEpoch..], Pending(x));
  }

  /** Since then no two consecutive status frames report the same provenance. */
  lemma StatusNeverRepeats(ss: seq<State>, c: Config)
    requires ConfigOk(c) && IsSessionRun(ss, c)
    ensures var x := Last(ss).session;
            x.laneEpoch <= |x.emitted| && NeverRepeats(Statuses(x.emitted[x.laneEpoch..]))
  {
    RunOrdered(ss, c);
    var x := Last(ss).session;
    EmittedPrefix(x.emitted[x.laneEpoch..], Pending(x));
  }

  /** The recovery branch of a successful poll is dead code: in no reachable state does it change anything. */
  lemma RecoveryIsUnreachable(ss: seq<State>, c: Config)
    requires ConfigOk(c) && IsSessionRun(ss, c) && Last(ss).session.call.DeltaFetch?
    ensures Recover(Last(ss).session, Last(ss).hub) == Last(ss).session
  {
    RunOrdered(ss, c);
  }
}
