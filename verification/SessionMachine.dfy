/**
 One session of the realtime stream source, as a transition system. A step is the code between two
 awaits of `snapshot_for` or `next_delta_for`, an effect of the rest of the process on the session
 (a rebinding, an eviction caused by another session, a hub operation), or a cancellation at an await.
 */
module SessionMachine {
  import opened Core
  import opened Bars
  import opened Identity
  import opened LaneHub

  const MAX_STREAM_FAILURES: nat := 6

  datatype Provenance = Ws | Polling | Unavailable

  /** Frames handed to the stream driver. Entries of the hub are carried whole; `hubOps` is a history
      variable, the length of the hub log when the status was queued. */
  datatype Frame =
    | OhlcvSnapshot(key: string, timeframe: string, candles: seq<Bar>)
    | OhlcvDelta(key: string, timeframe: string, candle: Bar)
    | MarketTrending(event: Trending)
    | MarketPrice(chain: string, address: string, quote: Price)
    | MarketStatus(provenance: Provenance, hubOps: nat)

  /** Per-session lane bookkeeping. */
  datatype LaneRecord = LaneRecord(
    provenance: Option<Provenance>,
    trendingGeneration: Option<int>,
    priceGeneration: Option<int>,
    pending: seq<Frame>)

  const FRESH_RECORD: LaneRecord := LaneRecord(None, None, None, [])

  datatype Fetch = Failed | Fetched(raw: seq<Bar>)

  /** The call in flight, parked at an await. `fetches` is a history variable: what this call fetched. */
  datatype Call =
    | Idle
    | SnapshotFetch(target: Target)
    | Asleep(failures: nat, fetches: seq<Fetch>)
    | DeltaFetch(failures: nat, target: Target, switched: bool, fetches: seq<Fetch>)

  datatype Result = NoTarget | Ended | Returned(frame: Frame)

  /** A completed `next_delta_for` call. */
  datatype Done = Done(fetches: seq<Fetch>, result: Result)

  /** History variables: `emitted` and `finished`, and the points of `emitted` at which the lane record
      last vanished (`laneEpoch`) and the price sequence last started afresh (`priceEpoch`). */
  datatype Session = Session(
    binding: Option<Target>,
    remembered: Option<Target>,
    lane: Option<LaneRecord>,
    call: Call,
    emitted: seq<Frame>,
    laneEpoch: nat,
    priceEpoch: nat,
    finished: seq<Done>)

  const NEW_SESSION: Session := Session(None, None, None, Idle, [], 0, 0, [])

  datatype State = State(session: Session, hub: Option<Hub>)

  /** What never changes: the operator's seed target and the hub's caps. */
  datatype Config = Config(seed: Option<Target>, limits: Limits)

  predicate ConfigOk(c: Config) {
    LimitsOk(c.limits) && (c.seed.Some? ==> Validated(c.seed.value))
  }

  // ---- Frames ------------------------------------------------------------------

  function SnapshotFrame(t: Target, bars: seq<Bar>): (f: Option<Frame>) {
    if bars == [] then None else Some(OhlcvSnapshot(EntityKey(t), t.timeframe, bars))
  }

  function DeltaFrame(t: Target, bar: Bar): (f: Frame) {
    OhlcvDelta(EntityKey(t), t.timeframe, bar)
  }

  /** The `market:price` frame: canonical slug of the event's network, the target's own address. */
  function PriceFrame(t: Target, p: Price): (f: Option<Frame>) {
    if !PriceMatches(t, p.networkId, p.address) || ChainSlug(p.networkId).None? then None
    else Some(MarketPrice(ChainSlug(p.networkId).value, t.address, p))
  }

  // ---- Small state updates -------------------------------------------------------

  function Resolve(x: Session, c: Config): (t: Option<Target>) {
    if x.binding.Some? then x.binding else c.seed
  }

  function Record(x: Session): (r: LaneRecord) {
    if x.lane.Some? then x.lane.value else FRESH_RECORD
  }

  function Pending(x: Session): (q: seq<Frame>) {
    Record(x).pending
  }

  /** The lane record disappears: reset on (re)connect, or evicted for another session. */
  function DropLane(x: Session): (y: Session) {
    x.(lane := None, laneEpoch := |x.emitted|, priceEpoch := |x.emitted|)
  }

  function Finish(x: Session, fetches: seq<Fetch>, result: Result): (y: Session) {
    x.(call := Idle,
       emitted := if result.Returned? then x.emitted + [result.frame] else x.emitted,
       finished := x.finished + [Done(fetches, result)])
  }

  /** `pop_lane_frame` followed by `return Some(frame)`. */
  function Deliver(x: Session, fetches: seq<Fetch>): (y: Session)
    requires Pending(x) != []
  {
    var r := Record(x);
    Finish(x.(lane := Some(r.(pending := r.pending[1..]))), fetches, Returned(r.pending[0]))
  }

  function PushStatus(r: LaneRecord, p: Provenance, hubOps: nat): (s: LaneRecord) {
    r.(provenance := Some(p), pending := r.pending + [MarketStatus(p, hubOps)])
  }

  // ---- The lane section of `next_delta_for` ----------------------------------------

  /** `find` over the hub's prices: any matching entry, and none only if there is none. */
  ghost predicate PickOk(h: Hub, t: Target, pick: Option<Price>) {
    match pick
    case Some(p) =>
      (exists k :: k in h.state.prices && h.state.prices[k] == p) && PriceMatches(t, p.networkId, p.address)
    case None =>
      forall k :: k in h.state.prices ==>
        !PriceMatches(t, h.state.prices[k].networkId, h.state.prices[k].address)
  }

  function TrendingStage(r: LaneRecord, h: Hub): (s: LaneRecord) {
    match h.state.trending
    case Some(e) =>
      if r.trendingGeneration != Some(e.generation) then
        r.(trendingGeneration := Some(e.generation), pending := r.pending + [MarketTrending(e)])
      else r
    case None => r
  }

  function PriceStage(r: LaneRecord, t: Target, pick: Option<Price>): (s: LaneRecord) {
    match pick
    case Some(p) =>
      if r.priceGeneration != Some(p.generation) then
        var s := r.(priceGeneration := Some(p.generation));
        match PriceFrame(t, p)
        case Some(f) => s.(pending := s.pending + [f])
        case None => s
      else r
    case None => r
  }

  function StatusStage(r: LaneRecord, h: Hub): (s: LaneRecord) {
    var p := if h.state.live then Ws else Polling;
    if r.provenance != Some(p) then PushStatus(r, p, |h.log|) else r
  }

  function LaneSection(x: Session, h: Hub, t: Target, pick: Option<Price>): (y: Session) {
    var switched := x.remembered != Some(t);
    if h.state.live && !switched then
      x.(lane := Some(StatusStage(PriceStage(TrendingStage(Record(x), h), t, pick), h)))
    else if h.state.live then
      x.(lane := Some(StatusStage(Record(x).(priceGeneration := None), h)), priceEpoch := |x.emitted|)
    else
      x.(lane := Some(StatusStage(Record(x), h)))
  }

  /** From the head of the loop to the next await or return. */
  function LoopHead(x: Session, hub: Option<Hub>, c: Config, failures: nat, fetches: seq<Fetch>, pick: Option<Price>):
      (y: Session)
  {
    match Resolve(x, c)
    case None => Finish(x, fetches, NoTarget)
    case Some(t) =>
      if Pending(x) != [] then Deliver(x, fetches)
      else if hub.None? then x.(call := Asleep(failures, fetches))
      else
        var y := LaneSection(x, hub.value, t, pick);
        if Pending(y) != [] then Deliver(y, fetches) else y.(call := Asleep(failures, fetches))
  }

  // ---- Steps of the session's own calls ----------------------------------------------

  function BeginSnapshot(x: Session, c: Config): (y: Session) {
    var y := DropLane(x);
    match Resolve(x, c)
    case None => y
    case Some(t) => y.(call := SnapshotFetch(t))
  }

  function EmitSnapshot(x: Session, t: Target, f: Frame): (y: Session) {
    x.(remembered := Some(t), emitted := x.emitted + [f], priceEpoch := |x.emitted| + 1, call := Idle)
  }

  function FinishSnapshot(x: Session, fetch: Fetch): (y: Session)
    requires x.call.SnapshotFetch?
  {
    match fetch
    case Failed => x.(call := Idle)
    case Fetched(raw) =>
      match SnapshotFrame(x.call.target, Normalize(raw))
      case None => x.(call := Idle)
      case Some(f) => EmitSnapshot(x, x.call.target, f)
  }

  function Wake(x: Session, c: Config): (y: Session)
    requires x.call.Asleep?
  {
    match Resolve(x, c)
    case None => Finish(x, x.call.fetches, NoTarget)
    case Some(t) => x.(call := DeltaFetch(x.call.failures, t, x.remembered != Some(t), x.call.fetches))
  }

  /** The recovery branch of a successful poll. */
  function Recover(x: Session, hub: Option<Hub>): (y: Session) {
    if hub.Some? && Record(x).provenance == Some(Unavailable) then
      x.(lane := Some(PushStatus(Record(x), Polling, |hub.value.log|)))
    else x
  }

  function PollSucceeds(x: Session, hub: Option<Hub>, c: Config, raw: seq<Bar>, pick: Option<Price>): (y: Session)
    requires x.call.DeltaFetch?
  {
    var t, bars := x.call.target, Normalize(raw);
    var fetches := x.call.fetches + [Fetched(raw)];
    var y := Recover(x.(call := Idle), hub);
    if bars == [] then LoopHead(y, hub, c, 0, fetches, pick)
    else if x.call.switched then
      var f := OhlcvSnapshot(EntityKey(t), t.timeframe, bars);
      EmitSnapshot(y, t, f).(finished := y.finished + [Done(fetches, Returned(f))])
    else Finish(y, fetches, Returned(DeltaFrame(t, Last(bars))))
  }

  /** With a lane attached an outage is reported at once as an `unavailable` status. */
  function ReportOutage(x: Session, h: Hub, fetches: seq<Fetch>): (y: Session) {
    Deliver(x.(lane := Some(PushStatus(Record(x), Unavailable, |h.log|))), fetches)
  }

  function PollFails(x: Session, hub: Option<Hub>, c: Config, pick: Option<Price>): (y: Session)
    requires x.call.DeltaFetch?
  {
    var failures, fetches := x.call.failures + 1, x.call.fetches + [Failed];
    var running := x.(call := Idle);
    if failures >= MAX_STREAM_FAILURES then Finish(running, fetches, Ended)
    else if hub.Some? && Record(x).provenance != Some(Unavailable) then ReportOutage(running, hub.value, fetches)
    else LoopHead(running, hub, c, failures, fetches, pick)
  }

  // ---- The transition relation ---------------------------------------------------------

  datatype Step =
    | SnapshotBegins | SnapshotArrives(fetch: Fetch)
    | DeltaBegins(pick: Option<Price>) | Wakes
    | PollArrives(raw: seq<Bar>, pick: Option<Price>) | PollFailed(pick: Option<Price>)
    | Cancelled
    | Bound(target: Target) | Unbound
    | RememberedEvicted | LaneEvicted
    | HubMoves

  ghost predicate PickFits(s: State, c: Config, pick: Option<Price>) {
    s.hub.Some? && Resolve(s.session, c).Some? ==> PickOk(s.hub.value, Resolve(s.session, c).value, pick)
  }

  ghost predicate Takes(s: State, s': State, c: Config, step: Step) {
    var x := s.session;
    match step
    case SnapshotBegins => x.call.Idle? && s' == s.(session := BeginSnapshot(x, c))
    case SnapshotArrives(fetch) => x.call.SnapshotFetch? && s' == s.(session := FinishSnapshot(x, fetch))
    case DeltaBegins(pick) =>
      x.call.Idle? && PickFits(s, c, pick) && s' == s.(session := LoopHead(x, s.hub, c, 0, [], pick))
    case Wakes => x.call.Asleep? && s' == s.(session := Wake(x, c))
    case PollArrives(raw, pick) =>
      x.call.DeltaFetch? && PickFits(s, c, pick) && s' == s.(session := PollSucceeds(x, s.hub, c, raw, pick))
    case PollFailed(pick) =>
      x.call.DeltaFetch? && PickFits(s, c, pick) && s' == s.(session := PollFails(x, s.hub, c, pick))
    case Cancelled => s' == s.(session := x.(call := Idle))
    case Bound(t) => Validated(t) && s' == s.(session := x.(binding := Some(t)))
    case Unbound => s' == s.(session := x.(binding := None))
    case RememberedEvicted => s' == s.(session := x.(remembered := None))
    case LaneEvicted => s' == s.(session := DropLane(x))
    case HubMoves =>
      s.hub.Some? && s'.hub.Some? && s'.session == x && Next(s.hub.value, s'.hub.value, c.limits)
  }

  ghost predicate Moves(s: State, s': State, c: Config) {
    exists step :: Takes(s, s', c, step)
  }

  ghost predicate Initial(s: State) {
    s.session == NEW_SESSION && (s.hub.Some? ==> s.hub.value == INITIAL)
  }

  ghost predicate IsSessionRun(ss: seq<State>, c: Config) {
    && ss != [] && Initial(ss[0])
    && forall i :: 0 <= i < |ss| - 1 ==> Moves(ss[i], ss[i + 1], c)
  }

  /** A run with the steps it takes. */
  ghost predicate IsSteppedRun(ss: seq<State>, steps: seq<Step>, c: Config) {
    && |ss| == |steps| + 1 && Initial(ss[0])
    && forall i :: 0 <= i < |steps| ==> Takes(ss[i], ss[i + 1], c, steps[i])
  }
}
