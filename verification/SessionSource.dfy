/**
 The session-aware stream source itself: bounded maps shared by all sessions, updated in place. Each
 method is the code of `snapshot_for` or `next_delta_for` between two awaits, or an operation of the
 rest of the process. The object invariant says that every session, whatever the interleaving, meets
 everything proved of the per-session transition system.
 */
module SessionSource {
  import opened Core
  import opened Bars
  import opened Identity
  import opened LaneHub
  import opened SessionMachine
  import opened SessionAlignment
  import opened SessionOrder
  import opened SessionPrices
  import opened SessionProvenance
  import opened SessionFailures

  type Kid = seq<byte>

  const MIN_STREAM_POLL_MS: nat := 1_000
  const MAX_STREAM_POLL_MS: nat := 60_000
  const MAX_ENTRIES: nat := 4096

  ghost predicate Good(s: State, c: Config) {
    && HubOk(s, c) && TargetsOk(s.session) && Aligned(s.session)
    && Ordered(s.session, s.hub) && NoStaleOutage(s.session, s.hub)
    && PricesInOrder(s.session, s.hub, c.limits) && Logged(s.session, s.hub, c.limits) && Counted(s.session, s.hub)
  }

  lemma GoodStep(s: State, s': State, c: Config, step: Step)
    requires ConfigOk(c) && Good(s, c) && Takes(s, s', c, step)
    ensures Good(s', c)
  {
    StepHubOk(s, s', c, step);
    StepTargetsOk(s, s', c, step);
    StepAligned(s, s', c, step);
    StepOrdered(s, s', c, step);
    StepPrices(s, s', c, step);
    StepLogged(s, s', c, step);
    StepCounted(s, s', c, step);
  }

  function Lookup<V>(m: map<Kid, V>, kid: Kid): (r: Option<V>) {
    if kid in m then Some(m[kid]) else None
  }

  /** How the per-session maps grow: at the cap, a new key pushes out an arbitrary other one. */
  ghost predicate Inserted<V>(m: map<Kid, V>, m': map<Kid, V>, kid: Kid, v: V, gone: Option<Kid>) {
    && (gone.Some? <==> |m| >= MAX_ENTRIES && kid !in m)
    && (gone.Some? ==> gone.value in m && gone.value != kid)
    && m' == (if gone.Some? then m - {gone.value} else m)[kid := v]
  }

  method BoundedInsert<V>(m: map<Kid, V>, kid: Kid, v: V) returns (m': map<Kid, V>, ghost gone: Option<Kid>)
    requires |m| <= MAX_ENTRIES
    ensures Inserted(m, m', kid, v, gone)
    ensures |m'| <= MAX_ENTRIES
  {
    gone := None;
    m' := m;
    if |m| >= MAX_ENTRIES && kid !in m {
      assert m.Keys != {};
      var evict :| evict in m.Keys;
      m' := m - {evict};
      gone := Some(evict);
      assert m'.Keys == m.Keys - {evict};
    }
    assert m'[kid := v].Keys == m'.Keys + {kid};
    if kid in m {
      assert m'.Keys + {kid} == m.Keys;
    }
    m' := m'[kid := v];
  }

  ghost function ViewIn(views: map<Kid, Session>, kid: Kid): Session {
    if kid in views then views[kid] else NEW_SESSION
  }

  /** The stored entries of `kid` are the ones its view shows. */
  ghost predicate Agree(views: map<Kid, Session>, b: map<Kid, Target>, s: map<Kid, Target>, l: map<Kid, LaneRecord>, kid: Kid) {
    && ViewIn(views, kid).binding == Lookup(b, kid)
    && ViewIn(views, kid).remembered == Lookup(s, kid)
    && ViewIn(views, kid).lane == Lookup(l, kid)
  }

  ghost function ViewsAfterLane(views: map<Kid, Session>, kid: Kid, r: LaneRecord, gone: Option<Kid>): map<Kid, Session> {
    var stored := views[kid := ViewIn(views, kid).(lane := Some(r))];
    if gone.Some? then stored[gone.value := DropLane(ViewIn(views, gone.value))] else stored
  }

  ghost function ViewsAfterRemember(views: map<Kid, Session>, kid: Kid, t: Target, gone: Option<Kid>): map<Kid, Session> {
    var stored := views[kid := ViewIn(views, kid).(remembered := Some(t))];
    if gone.Some? then stored[gone.value := ViewIn(views, gone.value).(remembered := None)] else stored
  }

  lemma LaneInsertAgrees(views: map<Kid, Session>, b: map<Kid, Target>, s: map<Kid, Target>, l: map<Kid, LaneRecord>,
                         l': map<Kid, LaneRecord>, kid: Kid, r: LaneRecord, gone: Option<Kid>, k: Kid)
    requires Agree(views, b, s, l, k) && Inserted(l, l', kid, r, gone)
    ensures Agree(ViewsAfterLane(views, kid, r, gone), b, s, l', k)
  {
  }

  lemma RememberAgrees(views: map<Kid, Session>, b: map<Kid, Target>, s: map<Kid, Target>, l: map<Kid, LaneRecord>,
                       s': map<Kid, Target>, kid: Kid, t: Target, gone: Option<Kid>, k: Kid)
    requires Agree(views, b, s, l, k) && Inserted(s, s', kid, t, gone)
    ensures Agree(ViewsAfterRemember(views, kid, t, gone), b, s', l, k)
  {
  }

  /** Every other session keeps its state or loses an evicted entry. */
  ghost predicate OthersOnlyEvicted(before: map<Kid, Session>, after: map<Kid, Session>, kid: Kid) {
    forall k :: k != kid ==>
      || ViewIn(after, k) == ViewIn(before, k)
      || ViewIn(after, k) == ViewIn(before, k).(remembered := None)
      || ViewIn(after, k) == DropLane(ViewIn(before, k))
  }

  lemma OwnUpdate(before: map<Kid, Session>, mid: map<Kid, Session>, kid: Kid, x: Session)
    requires OthersOnlyEvicted(before, mid, kid)
    ensures OthersOnlyEvicted(before, mid[kid := x], kid)
    ensures ViewIn(mid[kid := x], kid) == x
  {
    forall k | k != kid
      ensures ViewIn(mid[kid := x], k) == ViewIn(mid, k)
    {
    }
  }

  /** `kid`'s machine takes `step`, the others at most lose an entry. */
  ghost predicate Steps(before: map<Kid, Session>, after: map<Kid, Session>, hub: Option<Hub>, c: Config, kid: Kid, step: Step) {
    && OthersOnlyEvicted(before, after, kid)
    && Takes(State(ViewIn(before, kid), hub), State(ViewIn(after, kid), hub), c, step)
  }

  ghost predicate AllGood(views: map<Kid, Session>, hub: Option<Hub>, c: Config) {
    forall kid {:trigger Good(State(ViewIn(views, kid), hub), c)} :: Good(State(ViewIn(views, kid), hub), c)
  }

  /** What a parked poll may rely on. */
  lemma GoodPoll(views: map<Kid, Session>, hub: Option<Hub>, c: Config, kid: Kid)
    requires AllGood(views, hub, c) && ViewIn(views, kid).call.DeltaFetch?
    ensures hub.Some? ==> Record(ViewIn(views, kid)).provenance != Some(Unavailable)
    ensures Recover(ViewIn(views, kid).(call := Idle), hub) == ViewIn(views, kid).(call := Idle)
  {
    assert Good(State(ViewIn(views, kid), hub), c);
  }

  /** Whatever one session does, and whatever it evicts, every session stays good. */
  lemma StepsKeepGood(before: map<Kid, Session>, after: map<Kid, Session>, hub: Option<Hub>, c: Config, kid: Kid, step: Step)
    requires ConfigOk(c) && AllGood(before, hub, c) && Steps(before, after, hub, c, kid, step)
    ensures AllGood(after, hub, c)
  {
    forall k
      ensures Good(State(ViewIn(after, k), hub), c)
    {
      var s, s' := State(ViewIn(before, k), hub), State(ViewIn(after, k), hub);
      assert Good(s, c);
      if k == kid {
        GoodStep(s, s', c, step);
      } else if s'.session == s.session.(remembered := None) {
        GoodStep(s, s', c, RememberedEvicted);
      } else if s'.session == DropLane(s.session) {
        GoodStep(s, s', c, LaneEvicted);
      }
    }
  }

  ghost function ViewsAfterBind(views: map<Kid, Session>, kid: Kid, t: Target, gone: Option<Kid>): map<Kid, Session> {
    var stored := views[kid := ViewIn(views, kid).(binding := Some(t))];
    if gone.Some? then stored[gone.value := ViewIn(views, gone.value).(binding := None)] else stored
  }

  lemma RemovedCount<V>(m: map<Kid, V>, kid: Kid)
    ensures |m - {kid}| <= |m|
  {
    SubsetCount((m - {kid}).Keys, m.Keys);
  }

  lemma UnbindAgrees(views: map<Kid, Session>, bindings: map<Kid, Target>, sessions: map<Kid, Target>,
                     laneSessions: map<Kid, LaneRecord>, kid: Kid, k: Kid)
    requires Agree(views, bindings, sessions, laneSessions, k)
    ensures Agree(views[kid := ViewIn(views, kid).(binding := None)], bindings - {kid}, sessions, laneSessions, k)
  {
  }

  lemma ResetAgrees(views: map<Kid, Session>, bindings: map<Kid, Target>, sessions: map<Kid, Target>,
                    laneSessions: map<Kid, LaneRecord>, kid: Kid, k: Kid)
    requires Agree(views, bindings, sessions, laneSessions, k)
    ensures Agree(views[kid := DropLane(ViewIn(views, kid))], bindings, sessions, laneSessions - {kid}, k)
  {
  }

  lemma BindAgrees(views: map<Kid, Session>, b: map<Kid, Target>, s: map<Kid, Target>, l: map<Kid, LaneRecord>,
                   b': map<Kid, Target>, kid: Kid, t: Target, gone: Option<Kid>, k: Kid)
    requires Agree(views, b, s, l, k) && Inserted(b, b', kid, t, gone)
    ensures Agree(ViewsAfterBind(views, kid, t, gone), b', s, l, k)
  {
  }

  lemma BindKeepsGood(views: map<Kid, Session>, hub: Option<Hub>, c: Config, kid: Kid, t: Target, gone: Option<Kid>)
    requires ConfigOk(c) && AllGood(views, hub, c) && Validated(t) && (gone.Some? ==> gone.value != kid)
    ensures AllGood(ViewsAfterBind(views, kid, t, gone), hub, c)
  {
    var after := ViewsAfterBind(views, kid, t, gone);
    forall k
      ensures Good(State(ViewIn(after, k), hub), c)
    {
      var s, s' := State(ViewIn(views, k), hub), State(ViewIn(after, k), hub);
      assert Good(s, c);
      if k == kid {
        GoodStep(s, s', c, Bound(t));
      } else if gone == Some(k) {
        GoodStep(s, s', c, Unbound);
      }
    }
  }

  lemma HubMoveKeepsGood(views: map<Kid, Session>, h: Hub, h': Hub, c: Config)
    requires ConfigOk(c) && AllGood(views, Some(h), c) && Next(h, h', c.limits)
    ensures AllGood(views, Some(h'), c)
  {
    forall k
      ensures Good(State(ViewIn(views, k), Some(h')), c)
    {
      assert Good(State(ViewIn(views, k), Some(h)), c);
      GoodStep(State(ViewIn(views, k), Some(h)), State(ViewIn(views, k), Some(h')), c, HubMoves);
    }
  }

  /** Some admissible answer of `find`. */
  ghost function SomePick(h: Hub, t: Target): (pick: Option<Price>)
    ensures PickOk(h, t, pick)
  {
    if k :| k in h.state.prices && PriceMatches(t, h.state.prices[k].networkId, h.state.prices[k].address)
    then Some(h.state.prices[k]) else None
  }

  ghost function AnyPick(s: State, c: Config): (pick: Option<Price>)
    ensures PickFits(s, c, pick)
  {
    if s.hub.Some? && Resolve(s.session, c).Some? then SomePick(s.hub.value, Resolve(s.session, c).value) else None
  }

  /** What a completed segment reports, against the history of its call. */
  ghost predicate Answers(p: Poll, x: Session, y: Session, fetches: seq<Fetch>) {
    match p
    case Parked => !y.call.Idle? && y.finished == x.finished && y.emitted == x.emitted
    case Ready(Some(f)) =>
      y.call.Idle? && y.emitted == x.emitted + [f] && y.finished == x.finished + [Done(fetches, Returned(f))]
    case Ready(None) =>
      && y.call.Idle? && y.emitted == x.emitted
      && (y.finished == x.finished + [Done(fetches, NoTarget)] || y.finished == x.finished + [Done(fetches, Ended)])
  }

  /** Outcome of a segment of `next_delta_for`: a return value, or parked at the next await. */
  datatype Poll = Ready(frame: Option<Frame>) | Parked

  /** `order` is an order in which an iteration over the map may yield its keys. */
  ghost predicate Enumerates(order: seq<Key>, prices: map<Key, Price>) {
    forall k :: k in prices <==> k in order
  }

  predicate Fits(t: Target, prices: map<Key, Price>, k: Key) {
    k in prices && PriceMatches(t, prices[k].networkId, prices[k].address)
  }

  /** The first price of the target in iteration order; the same map in the same order yields the same price. */
  ghost function FirstMatch(t: Target, prices: map<Key, Price>, order: seq<Key>): (pick: Option<Price>) {
    if order == [] then None
    else if Fits(t, prices, order[0]) then Some(prices[order[0]])
    else FirstMatch(t, prices, order[1..])
  }

  class StreamSource {
    const config: Config
    const lane: LaneHub?
    var bindings: map<Kid, Target>
    var sessions: map<Kid, Target>
    var laneSessions: map<Kid, LaneRecord>
    /** The per-session transition systems this object implements. */
    ghost var views: map<Kid, Session>

    ghost function HubView(): Option<Hub>
      reads this, lane
    {
      if lane == null then None else Some(lane.View())
    }

    ghost function View(kid: Kid): Session
      reads this
    {
      ViewIn(views, kid)
    }

    ghost predicate Matches(kid: Kid)
      reads this
    {
      Agree(views, bindings, sessions, laneSessions, kid)
    }

    /** The maps are within their caps and hold what the per-session views say. */
    ghost predicate Wired()
      reads this, lane
    {
      && ConfigOk(config)
      && (lane != null ==> lane.Valid() && lane.limits == config.limits)
      && |bindings| <= MAX_ENTRIES && |sessions| <= MAX_ENTRIES && |laneSessions| <= MAX_ENTRIES
      && forall kid :: Matches(kid)
    }

    ghost predicate Valid()
      reads this, lane
    {
      Wired() && AllGood(views, HubView(), config)
    }

    constructor (seed: Option<Target>, hub: LaneHub?, limits: Limits)
      requires LimitsOk(limits) && (seed.Some? ==> Validated(seed.value))
      requires hub != null ==> hub.Valid() && hub.limits == limits
      ensures Valid() && config == Config(seed, limits) && lane == hub
      ensures forall kid :: View(kid) == NEW_SESSION
    {
      config := Config(seed, limits);
      lane := hub;
      bindings, sessions, laneSessions := map[], map[], map[];
      views := map[];
    }

    /** A cadence out of range or a malformed seed target refuses the whole source. */
    static method Create(seed: Option<Target>, intervalMs: nat, hub: LaneHub?, limits: Limits) returns (r: Option<StreamSource>)
      requires LimitsOk(limits) && (hub != null ==> hub.Valid() && hub.limits == limits)
      ensures r.Some? <==> MIN_STREAM_POLL_MS <= intervalMs <= MAX_STREAM_POLL_MS && (seed.Some? ==> Validated(seed.value))
      ensures r.Some? ==> fresh(r.value) && r.value.Valid() && r.value.config == Config(seed, limits) && r.value.lane == hub
      ensures r.Some? ==> forall kid :: r.value.View(kid) == NEW_SESSION
    {
      if intervalMs < MIN_STREAM_POLL_MS || intervalMs > MAX_STREAM_POLL_MS {
        return None;
      }
      if seed.Some? && !Validated(seed.value) {
        return None;
      }
      var source := new StreamSource(seed, hub, limits);
      return Some(source);
    }

    // ---- Reads -----------------------------------------------------------------------

    /** The session's own binding first, then the operator's seed. */
    function ResolveTarget(kid: Kid): (t: Option<Target>)
      requires Wired()
      reads this, lane
      ensures t == Resolve(View(kid), config)
    {
      assert Matches(kid);
      if kid in bindings then Some(bindings[kid]) else config.seed
    }

    function RecordOf(kid: Kid): (r: LaneRecord)
      requires Wired()
      reads this, lane
      ensures r == Record(View(kid))
    {
      assert Matches(kid);
      if kid in laneSessions then laneSessions[kid] else FRESH_RECORD
    }

    function Switched(kid: Kid, t: Target): (b: bool)
      requires Wired()
      reads this, lane
      ensures b == (View(kid).remembered != Some(t))
    {
      assert Matches(kid);
      Lookup(sessions, kid) != Some(t)
    }

    /** `find` over the hub's prices, in the order in which the map yields them. */
    static method FindPrice(t: Target, state: LaneState, order: seq<Key>, ghost log: seq<Op>) returns (pick: Option<Price>)
      requires Enumerates(order, state.prices)
      ensures PickOk(Hub(state, log), t, pick)
      ensures pick == FirstMatch(t, state.prices, order)
    {
      var i := 0;
      pick := None;
      while i < |order|
        invariant i <= |order| && FirstMatch(t, state.prices, order) == FirstMatch(t, state.prices, order[i..])
        invariant forall j :: 0 <= j < i ==> !Fits(t, state.prices, order[j])
      {
        if Fits(t, state.prices, order[i]) {
          pick := Some(state.prices[order[i]]);
          return;
        }
        i := i + 1;
      }
    }

    // ---- Primitive updates ------------------------------------------------------------

    /** `with_lane_session` with an update: write the record back, evicting at the cap. */
    method StoreLane(kid: Kid, record: LaneRecord)
      requires Wired()
      modifies this
      ensures Wired() && OthersOnlyEvicted(old(views), views, kid)
      ensures View(kid) == old(View(kid)).(lane := Some(record))
    {
      assert Matches(kid);
      ghost var gone;
      laneSessions, gone := BoundedInsert(laneSessions, kid, record);
      views := ViewsAfterLane(views, kid, record, gone);
      forall k
        ensures Matches(k)
      {
        assert old(Matches(k));
        LaneInsertAgrees(old(views), bindings, sessions, old(laneSessions), laneSessions, kid, record, gone, k);
      }
    }

    /** `remember`: the target just shown, evicting at the cap. */
    method Remember(kid: Kid, t: Target)
      requires Wired()
      modifies this
      ensures Wired() && OthersOnlyEvicted(old(views), views, kid)
      ensures View(kid) == old(View(kid)).(remembered := Some(t))
    {
      assert Matches(kid);
      ghost var gone;
      sessions, gone := BoundedInsert(sessions, kid, t);
      views := ViewsAfterRemember(views, kid, t, gone);
      forall k
        ensures Matches(k)
      {
        assert old(Matches(k));
        RememberAgrees(old(views), bindings, old(sessions), laneSessions, sessions, kid, t, gone, k);
      }
    }

    /** `reset_lane_session`: forget the session's record. */
    method ResetLaneSession(kid: Kid)
      requires Wired()
      modifies this
      ensures Wired() && OthersOnlyEvicted(old(views), views, kid)
      ensures View(kid) == DropLane(old(View(kid)))
    {
      laneSessions := laneSessions - {kid};
      OwnUpdate(views, views, kid, DropLane(View(kid)));
      views := views[kid := DropLane(View(kid))];
      RemovedCount(old(laneSessions), kid);
      forall k
        ensures Matches(k)
      {
        assert old(Matches(k));
        ResetAgrees(old(views), bindings, sessions, old(laneSessions), kid, k);
      }
    }

    /** Bookkeeping of the view only: nothing the source stores changes. */
    ghost method Advance(kid: Kid, x: Session, before: map<Kid, Session>)
      requires Wired() && OthersOnlyEvicted(before, views, kid)
      requires x.binding == View(kid).binding && x.remembered == View(kid).remembered && x.lane == View(kid).lane
      modifies this`views
      ensures Wired() && OthersOnlyEvicted(before, views, kid) && View(kid) == x
    {
      OwnUpdate(before, views, kid, x);
      views := views[kid := x];
      forall k
        ensures Matches(k)
      {
        assert old(Matches(k));
      }
    }

    // ---- `next_delta_for` -------------------------------------------------------------

    /** The lane-first part of the loop: queue what is new for this session. */
    static method ConsultLane(h: Hub, order: seq<Key>, t: Target, switched: bool, before: LaneRecord)
        returns (record: LaneRecord, pick: Option<Price>)
      requires Enumerates(order, h.state.prices)
      ensures PickOk(h, t, pick) && pick == FirstMatch(t, h.state.prices, order)
      ensures record ==
              if h.state.live && !switched then StatusStage(PriceStage(TrendingStage(before, h), t, pick), h)
              else if h.state.live then StatusStage(before.(priceGeneration := None), h)
              else StatusStage(before, h)
    {
      record := before;
      pick := FindPrice(t, h.state, order, h.log);
      if h.state.live && !switched {
        if h.state.trending.Some? && record.trendingGeneration != Some(h.state.trending.value.generation) {
          var e := h.state.trending.value;
          record := record.(trendingGeneration := Some(e.generation), pending := record.pending + [MarketTrending(e)]);
        }
        if pick.Some? && record.priceGeneration != Some(pick.value.generation) {
          record := record.(priceGeneration := Some(pick.value.generation));
          var frame := PriceFrame(t, pick.value);
          if frame.Some? {
            record := record.(pending := record.pending + [frame.value]);
          }
        }
      } else if h.state.live {
        record := record.(priceGeneration := None);
      }
      var provenance := if h.state.live then Ws else Polling;
      if record.provenance != Some(provenance) {
        record := PushStatus(record, provenance, |h.log|);
      }
    }

    /** Hand out the first frame of `record`'s queue. */
    method PopFrame(kid: Kid, record: LaneRecord, ghost x: Session, ghost fetches: seq<Fetch>) returns (frame: Frame)
      requires Wired() && record.pending != []
      requires x.binding == View(kid).binding && x.remembered == View(kid).remembered && x.lane == Some(record)
      modifies this
      ensures Wired() && OthersOnlyEvicted(old(views), views, kid)
      ensures frame == record.pending[0] && View(kid) == Deliver(x, fetches)
    {
      frame := record.pending[0];
      StoreLane(kid, record.(pending := record.pending[1..]));
      Advance(kid, Deliver(x, fetches), old(views));
    }

    /** Store a record and park the call at the sleep. */
    method ParkWith(kid: Kid, record: LaneRecord, ghost x: Session, ghost failures: nat, ghost fetches: seq<Fetch>)
      requires Wired()
      requires x.binding == View(kid).binding && x.remembered == View(kid).remembered && x.lane == Some(record)
      modifies this
      ensures Wired() && OthersOnlyEvicted(old(views), views, kid)
      ensures View(kid) == x.(call := Asleep(failures, fetches))
    {
      StoreLane(kid, record);
      Advance(kid, x.(call := Asleep(failures, fetches)), old(views));
    }

    /** Nothing was queued: consult the lane, then hand out the first new frame or park. */
    method HeadWithLane(kid: Kid, t: Target, order: seq<Key>, failures: nat, ghost fetches: seq<Fetch>)
        returns (p: Poll, ghost pick: Option<Price>)
      requires Wired() && lane != null && Enumerates(order, lane.state.prices) && Pending(View(kid)) == []
      modifies this
      ensures Wired() && OthersOnlyEvicted(old(views), views, kid)
      ensures PickOk(old(HubView()).value, t, pick)
      ensures var y := LaneSection(old(View(kid)).(call := Idle), old(HubView()).value, t, pick);
              View(kid) == if Pending(y) != [] then Deliver(y, fetches) else y.(call := Asleep(failures, fetches))
      ensures Answers(p, old(View(kid)), View(kid), fetches)
    {
      ghost var x, h := View(kid).(call := Idle), lane.View();
      assert Matches(kid);
      var switched := Switched(kid, t);
      var record, found := ConsultLane(Hub(lane.state, lane.log), order, t, switched, RecordOf(kid));
      pick := found;
      ghost var y := LaneSection(x, h, t, pick);
      assert y.lane == Some(record);
      if record.pending != [] {
        var frame := PopFrame(kid, record, y, fetches);
        p := Ready(Some(frame));
      } else {
        ParkWith(kid, record, y, failures, fetches);
        p := Parked;
      }
    }

    /** From the head of the loop to the next await or return. */
    method RunHead(kid: Kid, order: seq<Key>, failures: nat, ghost fetches: seq<Fetch>) returns (p: Poll, ghost pick: Option<Price>)
      requires Wired() && (lane != null ==> Enumerates(order, lane.state.prices))
      modifies this
      ensures Wired() && OthersOnlyEvicted(old(views), views, kid)
      ensures PickFits(old(State(View(kid).(call := Idle), HubView())), config, pick)
      ensures View(kid) == LoopHead(old(View(kid)).(call := Idle), HubView(), config, failures, fetches, pick)
      ensures Answers(p, old(View(kid)), View(kid), fetches)
    {
      ghost var x := View(kid).(call := Idle);
      assert Matches(kid);
      pick := AnyPick(State(x, HubView()), config);
      var resolved := ResolveTarget(kid);
      var record := RecordOf(kid);
      if resolved.None? {
        Advance(kid, Finish(x, fetches, NoTarget), old(views));
        p := Ready(None);
      } else if record.pending != [] {
        assert x.lane == Some(record);
        var frame := PopFrame(kid, record, x, fetches);
        p := Ready(Some(frame));
      } else if lane == null {
        Advance(kid, x.(call := Asleep(failures, fetches)), old(views));
        p := Parked;
      } else {
        p, pick := HeadWithLane(kid, resolved.value, order, failures, fetches);
      }
    }

    /** `next_delta_for` up to its first await. */
    method NextDeltaStarts(kid: Kid, order: seq<Key>) returns (p: Poll, ghost pick: Option<Price>)
      requires Valid() && View(kid).call.Idle? && (lane != null ==> Enumerates(order, lane.state.prices))
      modifies this
      ensures Valid() && Answers(p, old(View(kid)), View(kid), [])
      ensures Steps(old(views), views, old(HubView()), config, kid, DeltaBegins(pick))
    {
      p, pick := RunHead(kid, order, 0, []);
      assert old(View(kid)).(call := Idle) == old(View(kid));
      StepsKeepGood(old(views), views, HubView(), config, kid, DeltaBegins(pick));
    }

    /** The sleep is over: resolve again and decide whether this is a switch. */
    method NextDeltaWakes(kid: Kid, failures: nat) returns (poll: Option<(Target, bool)>)
      requires Valid() && View(kid).call.Asleep? && View(kid).call.failures == failures
      modifies this
      ensures Valid() && Steps(old(views), views, old(HubView()), config, kid, Wakes)
      ensures poll.None? ==> View(kid).call.Idle?
      ensures poll.Some? <==> kid in bindings || config.seed.Some?
      ensures poll.Some? ==> poll.value.0 == if kid in bindings then bindings[kid] else config.seed.value
      ensures poll.Some? ==> (poll.value.1 <==> kid !in old(sessions) || old(sessions)[kid] != poll.value.0)
      ensures poll.Some? ==>
                View(kid).call == DeltaFetch(failures, poll.value.0, poll.value.1, old(View(kid)).call.fetches)
    {
      ghost var x := View(kid);
      var resolved := ResolveTarget(kid);
      if resolved.None? {
        poll := None;
      } else {
        poll := Some((resolved.value, Switched(kid, resolved.value)));
      }
      Advance(kid, Wake(x, config), old(views));
      StepsKeepGood(old(views), views, HubView(), config, kid, Wakes);
    }

    /** A poll with candles: a snapshot after a switch, else a delta. */
    method ShowCandles(kid: Kid, t: Target, switched: bool, ghost raw: seq<Bar>, bars: seq<Bar>, ghost pick: Option<Price>)
        returns (frame: Frame)
      requires Wired() && View(kid).call.DeltaFetch? && View(kid).call.target == t && View(kid).call.switched == switched
      requires bars == Normalize(raw) != [] && Recover(View(kid).(call := Idle), HubView()) == View(kid).(call := Idle)
      modifies this
      ensures Wired() && OthersOnlyEvicted(old(views), views, kid)
      ensures View(kid) == PollSucceeds(old(View(kid)), HubView(), config, raw, pick)
      ensures Answers(Ready(Some(frame)), old(View(kid)), View(kid), old(View(kid)).call.fetches + [Fetched(raw)])
    {
      ghost var x := View(kid);
      if switched {
        frame := OhlcvSnapshot(EntityKey(t), t.timeframe, bars);
        Remember(kid, t);
      } else {
        frame := DeltaFrame(t, bars[|bars| - 1]);
      }
      Advance(kid, PollSucceeds(x, HubView(), config, raw, pick), old(views));
    }

    /** The poll answered. The recovery branch on `unavailable` is not reachable here. */
    method PollAnswers(kid: Kid, t: Target, switched: bool, raw: seq<Bar>, order: seq<Key>) returns (p: Poll, ghost pick: Option<Price>)
      requires lane != null ==> Enumerates(order, lane.state.prices)
      requires Valid() && View(kid).call.DeltaFetch? && View(kid).call.target == t && View(kid).call.switched == switched
      modifies this
      ensures Valid() && Steps(old(views), views, old(HubView()), config, kid, PollArrives(raw, pick))
      ensures Answers(p, old(View(kid)), View(kid), old(View(kid)).call.fetches + [Fetched(raw)])
    {
      ghost var s := State(View(kid), HubView());
      GoodPoll(views, HubView(), config, kid);
      var bars := Normalize(raw);
      if bars == [] {
        p, pick := RunHead(kid, order, 0, s.session.call.fetches + [Fetched(raw)]);
      } else {
        pick := AnyPick(s, config);
        var frame := ShowCandles(kid, t, switched, raw, bars, pick);
        p := Ready(Some(frame));
      }
      assert Takes(s, State(View(kid), s.hub), config, PollArrives(raw, pick));
      StepsKeepGood(old(views), views, HubView(), config, kid, PollArrives(raw, pick));
    }

    /** With a lane: report the outage. */
    method ReportPollOutage(kid: Kid, ghost fetches: seq<Fetch>) returns (frame: Frame)
      requires Wired() && lane != null
      modifies this
      ensures Wired() && OthersOnlyEvicted(old(views), views, kid)
      ensures View(kid) == ReportOutage(old(View(kid)).(call := Idle), old(HubView()).value, fetches)
      ensures Answers(Ready(Some(frame)), old(View(kid)), View(kid), fetches)
    {
      assert Matches(kid);
      ghost var x := View(kid).(call := Idle);
      var record := PushStatus(RecordOf(kid), Unavailable, |lane.log|);
      frame := PopFrame(kid, record, x.(lane := Some(record)), fetches);
    }

    /** The poll failed: give up after six in a row, report it if a lane is attached, else go on. */
    method CountFailure(kid: Kid, failed: nat) returns (p: Poll, ghost pick: Option<Price>)
      requires Wired() && View(kid).call.DeltaFetch? && View(kid).call.failures == failed
      requires lane != null ==> Record(View(kid)).provenance != Some(Unavailable)
      modifies this
      ensures Wired() && OthersOnlyEvicted(old(views), views, kid)
      ensures PickFits(old(State(View(kid), HubView())), config, pick)
      ensures View(kid) == PollFails(old(View(kid)), old(HubView()), config, pick)
      ensures Answers(p, old(View(kid)), View(kid), old(View(kid)).call.fetches + [Failed])
    {
      ghost var x := View(kid);
      ghost var fetches := x.call.fetches + [Failed];
      pick := AnyPick(State(x, HubView()), config);
      var failures := failed + 1;
      if failures >= MAX_STREAM_FAILURES {
        Advance(kid, Finish(x.(call := Idle), fetches, Ended), old(views));
        p := Ready(None);
      } else if lane != null {
        var frame := ReportPollOutage(kid, fetches);
        p := Ready(Some(frame));
      } else {
        p, pick := RunHead(kid, [], failures, fetches);
      }
    }

    method PollErrs(kid: Kid, failed: nat) returns (p: Poll, ghost pick: Option<Price>)
      requires Valid() && View(kid).call.DeltaFetch? && View(kid).call.failures == failed
      modifies this
      ensures Valid() && Steps(old(views), views, old(HubView()), config, kid, PollFailed(pick))
      ensures Answers(p, old(View(kid)), View(kid), old(View(kid)).call.fetches + [Failed])
    {
      ghost var s := State(View(kid), HubView());
      GoodPoll(views, HubView(), config, kid);
      p, pick := CountFailure(kid, failed);
      assert Takes(s, State(View(kid), s.hub), config, PollFailed(pick));
      StepsKeepGood(old(views), views, HubView(), config, kid, PollFailed(pick));
    }

    // ---- `snapshot_for` ----------------------------------------------------------------

    method SnapshotStarts(kid: Kid) returns (target: Option<Target>)
      requires Valid() && View(kid).call.Idle?
      modifies this
      ensures Valid() && Steps(old(views), views, old(HubView()), config, kid, SnapshotBegins)
      ensures target == Resolve(old(View(kid)), config) == if kid in old(bindings) then Some(old(bindings)[kid]) else config.seed
      ensures kid !in laneSessions
    {
      ghost var x := View(kid);
      target := ResolveTarget(kid);
      ResetLaneSession(kid);
      Advance(kid, BeginSnapshot(x, config), old(views));
      assert Matches(kid);
      StepsKeepGood(old(views), views, HubView(), config, kid, SnapshotBegins);
    }

    method SnapshotAnswers(kid: Kid, t: Target, fetch: Fetch) returns (frame: Option<Frame>)
      requires Valid() && View(kid).call == SnapshotFetch(t)
      modifies this
      ensures Valid() && Steps(old(views), views, old(HubView()), config, kid, SnapshotArrives(fetch))
      ensures View(kid).emitted == old(View(kid)).emitted + if frame.Some? then [frame.value] else []
      ensures frame.Some? <==> fetch.Fetched? && Normalize(fetch.raw) != []
      ensures frame.Some? ==>
                && frame.value == OhlcvSnapshot("ohlcv:" + t.chain + ":" + t.address, t.timeframe, Normalize(fetch.raw))
                && kid in sessions && sessions[kid] == t
    {
      ghost var x := View(kid);
      frame := None;
      if fetch.Fetched? {
        frame := SnapshotFrame(t, Normalize(fetch.raw));
        if frame.Some? {
          Remember(kid, t);
        }
      }
      Advance(kid, FinishSnapshot(x, fetch), old(views));
      assert Matches(kid);
      StepsKeepGood(old(views), views, HubView(), config, kid, SnapshotArrives(fetch));
    }

    // ---- The rest of the process -----------------------------------------------------------

    /** The driver drops the future at an await. */
    ghost method Cancel(kid: Kid)
      requires Valid()
      modifies this`views
      ensures Valid() && Steps(old(views), views, old(HubView()), config, kid, Cancelled)
    {
      Advance(kid, View(kid).(call := Idle), old(views));
      StepsKeepGood(old(views), views, HubView(), config, kid, Cancelled);
    }

    /** `RealtimeTargetRegistry::set`: bind or rebind a session, evicting at the cap. */
    method Bind(kid: Kid, t: Target) returns (ok: bool, ghost gone: Option<Kid>)
      requires Valid()
      modifies this
      ensures Valid() && ok == (kid != [] && Validated(t))
      ensures !ok ==> views == old(views)
      ensures ok ==> View(kid) == old(View(kid)).(binding := Some(t))
      ensures ok ==> (gone.Some? <==> |old(bindings)| == 4096 && old(View(kid)).binding.None?)
      ensures ok ==> forall k :: k != kid ==>
                View(k) == if gone == Some(k) then old(View(k)).(binding := None) else old(View(k))
    {
      ok, gone := kid != [] && Validated(t), None;
      if ok {
        assert Matches(kid);
        bindings, gone := BoundedInsert(bindings, kid, t);
        views := ViewsAfterBind(views, kid, t, gone);
        forall k
          ensures Matches(k)
        {
          assert old(Matches(k));
          BindAgrees(old(views), old(bindings), sessions, laneSessions, bindings, kid, t, gone, k);
        }
        BindKeepsGood(old(views), HubView(), config, kid, t, gone);
      }
    }

    /** `clear`: the session ended. */
    method Unbind(kid: Kid)
      requires Valid()
      modifies this
      ensures Valid() && Steps(old(views), views, old(HubView()), config, kid, Unbound)
      ensures View(kid) == old(View(kid)).(binding := None)
      ensures forall k :: k != kid ==> View(k) == old(View(k))
    {
      ghost var x := View(kid).(binding := None);
      bindings := bindings - {kid};
      OwnUpdate(views, views, kid, x);
      views := views[kid := x];
      RemovedCount(old(bindings), kid);
      forall k
        ensures Matches(k)
      {
        assert old(Matches(k));
        UnbindAgrees(old(views), old(bindings), sessions, laneSessions, kid, k);
      }
      StepsKeepGood(old(views), views, HubView(), config, kid, Unbound);
    }

    /** The lane loop moves the hub while sessions are parked. */
    method LaneTurn(event: Option<Event>)
      requires Valid() && lane != null
      modifies lane
      ensures Valid() && Next(old(lane.View()), lane.View(), config.limits) && views == old(views)
    {
      if event.Some? {
        lane.Publish(event.value);
      } else {
        lane.MarkStale();
      }
      HubMoveKeepsGood(views, old(lane.View()), lane.View(), config);
      forall k
        ensures Matches(k)
      {
        assert old(Matches(k));
      }
    }
  }
}
