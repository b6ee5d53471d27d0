/**
 What a session is shown stays aligned: every ohlcv delta and every price belongs to the most recent
 ohlcv snapshot of that session, however rebindings, evictions and cancellations interleave.
 */
module SessionAlignment {
  import opened Core
  import opened Bars
  import opened Identity
  import opened LaneHub
  import opened SessionMachine

  /** The target of the most recent ohlcv snapshot, read back from the frame itself. */
  ghost function Shown(fs: seq<Frame>): Option<Target> {
    if fs == [] then None
    else if Last(fs).OhlcvSnapshot? then Some(TargetOf(Last(fs).key, Last(fs).timeframe))
    else Shown(Front(fs))
  }

  /** A price frame carries the network and the exact address of the shown target. */
  ghost predicate PriceFits(f: Frame, shown: Option<Target>)
    requires f.MarketPrice?
  {
    && shown.Some?
    && NetworkId(shown.value.chain) == Some(f.quote.networkId)
    && ChainSlug(f.quote.networkId) == Some(f.chain)
    && f.address == shown.value.address
  }

  ghost predicate FrameFits(f: Frame, shown: Option<Target>) {
    match f
    case OhlcvDelta(key, timeframe, candle) => shown == Some(TargetOf(key, timeframe))
    case MarketPrice(chain, address, quote) => PriceFits(f, shown)
    case _ => true
  }

  ghost predicate HistoryFits(fs: seq<Frame>) {
    fs == [] || (HistoryFits(Front(fs)) && FrameFits(Last(fs), Shown(Front(fs))))
  }

  /** Queued frames are lane frames, and the prices among them fit what is shown now. */
  ghost predicate QueueFits(q: seq<Frame>, shown: Option<Target>) {
    forall i :: 0 <= i < |q| ==> !q[i].OhlcvSnapshot? && !q[i].OhlcvDelta? && FrameFits(q[i], shown)
  }

  /** No unknown chain, malformed address or unknown window is ever stored. */
  ghost predicate TargetsOk(x: Session) {
    && (x.binding.Some? ==> Validated(x.binding.value))
    && (x.remembered.Some? ==> Validated(x.remembered.value))
    && (x.call.SnapshotFetch? || x.call.DeltaFetch? ==> Validated(x.call.target))
  }

  ghost predicate Aligned(x: Session) {
    var shown := Shown(x.emitted);
    && (x.remembered.Some? ==> shown == x.remembered)
    && (x.call.DeltaFetch? && !x.call.switched ==> shown == Some(x.call.target))
    && HistoryFits(x.emitted)
    && QueueFits(Pending(x), shown)
    && (!x.call.Idle? ==> Pending(x) == [])
    && |Pending(x)| <= 2
  }

  lemma ShownAfter(fs: seq<Frame>, f: Frame)
    ensures Shown(fs + [f]) == if f.OhlcvSnapshot? then Some(TargetOf(f.key, f.timeframe)) else Shown(fs)
    ensures HistoryFits(fs) && FrameFits(f, Shown(fs)) ==> HistoryFits(fs + [f])
  {
    FrontOfAppend(fs, f);
  }

  lemma FinishAligned(x: Session, fetches: seq<Fetch>, result: Result)
    requires Aligned(x)
    requires result.Returned? ==> !result.frame.OhlcvSnapshot? && FrameFits(result.frame, Shown(x.emitted))
    ensures Aligned(Finish(x, fetches, result))
  {
    if result.Returned? {
      ShownAfter(x.emitted, result.frame);
    }
  }

  /** Delivering drains the queue from the front; three queued frames leave two. */
  lemma DeliverAligned(x: Session, fetches: seq<Fetch>)
    requires 0 < |Pending(x)| <= 3
    requires Aligned(x.(lane := None, call := Idle)) && QueueFits(Pending(x), Shown(x.emitted))
    ensures Aligned(Deliver(x, fetches))
  {
    ShownAfter(x.emitted, Pending(x)[0]);
  }

  lemma PriceStageFits(r: LaneRecord, t: Target, pick: Option<Price>, shown: Option<Target>)
    requires QueueFits(r.pending, shown) && shown == Some(t)
    ensures QueueFits(PriceStage(r, t, pick).pending, shown)
    ensures |PriceStage(r, t, pick).pending| <= |r.pending| + 1
  {
  }

  lemma LaneSectionAligned(x: Session, h: Hub, t: Target, pick: Option<Price>)
    requires Aligned(x) && Pending(x) == []
    ensures var y := LaneSection(x, h, t, pick);
            && |Pending(y)| <= 3 && QueueFits(Pending(y), Shown(x.emitted))
            && y.emitted == x.emitted && y.binding == x.binding && y.remembered == x.remembered
  {
    if h.state.live && x.remembered == Some(t) {
      var r := TrendingStage(Record(x), h);
      PriceStageFits(r, t, pick, Shown(x.emitted));
    }
  }

  lemma LoopHeadAligned(x: Session, hub: Option<Hub>, c: Config, failures: nat, fetches: seq<Fetch>, pick: Option<Price>)
    requires Aligned(x)
    ensures Aligned(LoopHead(x, hub, c, failures, fetches, pick))
  {
    match Resolve(x, c)
    case None => FinishAligned(x, fetches, NoTarget);
    case Some(t) =>
      if Pending(x) != [] {
        DeliverAligned(x, fetches);
      } else if hub.Some? {
        LaneSectionAligned(x, hub.value, t, pick);
        var y := LaneSection(x, hub.value, t, pick);
        if Pending(y) != [] {
          DeliverAligned(y, fetches);
        }
      }
  }

  /** A snapshot shows exactly the target it was built for. */
  lemma SnapshotShows(fs: seq<Frame>, t: Target, bars: seq<Bar>)
    requires ValidAddress(t.address) && HistoryFits(fs)
    ensures Shown(fs + [OhlcvSnapshot(EntityKey(t), t.timeframe, bars)]) == Some(t)
    ensures HistoryFits(fs + [OhlcvSnapshot(EntityKey(t), t.timeframe, bars)])
  {
    ShownAfter(fs, OhlcvSnapshot(EntityKey(t), t.timeframe, bars));
    TargetOfEntityKey(t);
  }

  lemma EmitSnapshotAligned(x: Session, t: Target, bars: seq<Bar>)
    requires Aligned(x.(call := Idle)) && ValidAddress(t.address)
    requires |Pending(x)| <= 1 && (|Pending(x)| == 1 ==> Pending(x)[0].MarketStatus?)
    ensures Aligned(EmitSnapshot(x, t, OhlcvSnapshot(EntityKey(t), t.timeframe, bars)))
  {
    SnapshotShows(x.emitted, t, bars);
  }

  lemma RecoverAligned(x: Session, hub: Option<Hub>)
    requires Aligned(x) && x.call.Idle? && Pending(x) == []
    ensures var y := Recover(x, hub);
            Aligned(y) && |Pending(y)| <= 1 && (|Pending(y)| == 1 ==> Pending(y)[0].MarketStatus?)
  {
  }

  lemma PollSucceedsAligned(s: State, c: Config, raw: seq<Bar>, pick: Option<Price>)
    requires Aligned(s.session) && s.session.call.DeltaFetch? && ValidAddress(s.session.call.target.address)
    ensures Aligned(PollSucceeds(s.session, s.hub, c, raw, pick))
  {
    var x, t, bars := s.session, s.session.call.target, Normalize(raw);
    var fetches := x.call.fetches + [Fetched(raw)];
    RecoverAligned(x.(call := Idle), s.hub);
    var y := Recover(x.(call := Idle), s.hub);
    if bars == [] {
      LoopHeadAligned(y, s.hub, c, 0, fetches, pick);
    } else if x.call.switched {
      EmitSnapshotAligned(y, t, bars);
    } else {
      TargetOfEntityKey(t);
      FinishAligned(y, fetches, Returned(DeltaFrame(t, Last(bars))));
    }
  }

  lemma ReportOutageAligned(x: Session, h: Hub, fetches: seq<Fetch>)
    requires Aligned(x) && Pending(x) == []
    ensures Aligned(ReportOutage(x, h, fetches))
  {
    DeliverAligned(x.(lane := Some(PushStatus(Record(x), Unavailable, |h.log|))), fetches);
  }

  lemma PollFailsAligned(s: State, c: Config, pick: Option<Price>)
    requires Aligned(s.session) && s.session.call.DeltaFetch?
    ensures Aligned(PollFails(s.session, s.hub, c, pick))
  {
    var x, failures, fetches := s.session.(call := Idle), s.session.call.failures + 1, s.session.call.fetches + [Failed];
    if failures >= MAX_STREAM_FAILURES {
      FinishAligned(x, fetches, Ended);
    } else if s.hub.Some? && Record(x).provenance != Some(Unavailable) {
      ReportOutageAligned(x, s.hub.value, fetches);
    } else {
      LoopHeadAligned(x, s.hub, c, failures, fetches, pick);
    }
  }

  lemma LoopHeadTargetsOk(x: Session, hub: Option<Hub>, c: Config, failures: nat, fetches: seq<Fetch>, pick: Option<Price>)
    requires TargetsOk(x)
    ensures TargetsOk(LoopHead(x, hub, c, failures, fetches, pick))
  {
    var y := LoopHead(x, hub, c, failures, fetches, pick);
    assert y.binding == x.binding && y.remembered == x.remembered;
    assert y.call.Idle? || y.call.Asleep?;
  }

  lemma PollSucceedsTargetsOk(x: Session, hub: Option<Hub>, c: Config, raw: seq<Bar>, pick: Option<Price>)
    requires TargetsOk(x) && x.call.DeltaFetch?
    ensures TargetsOk(PollSucceeds(x, hub, c, raw, pick))
  {
    LoopHeadTargetsOk(Recover(x.(call := Idle), hub), hub, c, 0, x.call.fetches + [Fetched(raw)], pick);
  }

  lemma PollFailsTargetsOk(x: Session, hub: Option<Hub>, c: Config, pick: Option<Price>)
    requires TargetsOk(x) && x.call.DeltaFetch?
    ensures TargetsOk(PollFails(x, hub, c, pick))
  {
    LoopHeadTargetsOk(x.(call := Idle), hub, c, x.call.failures + 1, x.call.fetches + [Failed], pick);
  }

  lemma StepTargetsOk(s: State, s': State, c: Config, step: Step)
    requires ConfigOk(c) && TargetsOk(s.session) && Takes(s, s', c, step)
    ensures TargetsOk(s'.session)
  {
    var x := s.session;
    match step
    case DeltaBegins(pick) => LoopHeadTargetsOk(x, s.hub, c, 0, [], pick);
    case PollArrives(raw, pick) => PollSucceedsTargetsOk(x, s.hub, c, raw, pick);
    case PollFailed(pick) => PollFailsTargetsOk(x, s.hub, c, pick);
    case _ =>
  }

  /** Every step of the session, and everything the rest of the process can do to it, keeps it aligned. */
  lemma StepAligned(s: State, s': State, c: Config, step: Step)
    requires TargetsOk(s.session) && Aligned(s.session) && Takes(s, s', c, step)
    ensures Aligned(s'.session)
  {
    var x := s.session;
    match step
    case SnapshotBegins =>
    case SnapshotArrives(fetch) =>
      if fetch.Fetched? && Normalize(fetch.raw) != [] {
        EmitSnapshotAligned(x, x.call.target, Normalize(fetch.raw));
      }
    case DeltaBegins(pick) => LoopHeadAligned(x, s.hub, c, 0, [], pick);
    case Wakes =>
      if Resolve(x, c).None? {
        FinishAligned(x, x.call.fetches, NoTarget);
      }
    case PollArrives(raw, pick) => PollSucceedsAligned(s, c, raw, pick);
    case PollFailed(pick) => PollFailsAligned(s, c, pick);
    case _ =>
  }

  lemma {:induction false} RunAligned(ss: seq<State>, c: Config)
    requires ConfigOk(c) && IsSessionRun(ss, c)
    ensures TargetsOk(Last(ss).session) && Aligned(Last(ss).session)
  {
    if |ss| > 1 {
      RunAligned(Front(ss), c);
      var s, s' := ss[|ss| - 2], ss[|ss| - 1];
      assert Moves(s, s', c);
      var step :| Takes(s, s', c, step);
      StepTargetsOk(s, s', c, step);
      StepAligned(s, s', c, step);
    }
  }

  lemma {:induction false} HistoryFitsAt(fs: seq<Frame>, i: nat)
    requires HistoryFits(fs) && i < |fs|
    ensures FrameFits(fs[i], Shown(fs[..i]))
  {
    if i < |fs| - 1 {
      HistoryFitsAt(Front(fs), i);
      assert Front(fs)[..i] == fs[..i];
    }
  }

  // ---- Main results ----------------------------------------------------------------------

  /** Every ohlcv delta carries chain, address and timeframe of the latest ohlcv snapshot before it. */
  lemma DeltasFollowTheirSnapshot(ss: seq<State>, c: Config, i: nat)
    requires ConfigOk(c) && IsSessionRun(ss, c)
    requires i < |Last(ss).session.emitted| && Last(ss).session.emitted[i].OhlcvDelta?
    ensures var fs := Last(ss).session.emitted;
            Shown(fs[..i]) == Some(TargetOf(fs[i].key, fs[i].timeframe))
  {
    RunAligned(ss, c);
    HistoryFitsAt(Last(ss).session.emitted, i);
  }

  /** Every price frame has the network and exact address of the latest ohlcv snapshot before it, even
      if the target was rebound while the frame was queued. */
  lemma PricesFollowTheirSnapshot(ss: seq<State>, c: Config, i: nat)
    requires ConfigOk(c) && IsSessionRun(ss, c)
    requires i < |Last(ss).session.emitted| && Last(ss).session.emitted[i].MarketPrice?
    ensures var fs := Last(ss).session.emitted;
            PriceFits(fs[i], Shown(fs[..i]))
  {
    RunAligned(ss, c);
    HistoryFitsAt(Last(ss).session.emitted, i);
  }

  /** The queue is empty while a call is parked at an await, hence at every snapshot, and never holds
      more than two frames between calls. */
  lemma QueueIsDrained(ss: seq<State>, c: Config)
    requires ConfigOk(c) && IsSessionRun(ss, c)
    ensures |Pending(Last(ss).session)| <= 2
    ensures !Last(ss).session.call.Idle? ==> Pending(Last(ss).session) == []
  {
    RunAligned(ss, c);
  }
}
