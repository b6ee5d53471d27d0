/**
 What a session is owed. The other session modules bound what may be sent; here every step is told what it must
 send, field by field: which lane frames are queued and in which order, when a poll shows a delta and when a
 whole snapshot, and what a failure shows.
 */
module SessionDuties {
  import opened Core
  import opened Bars
  import opened Identity
  import opened LaneHub
  import opened SessionMachine
  import opened SessionAlignment
  import opened SessionOrder

  /** The target of a session: its own binding, and the operator's seed only without one. */
  ghost predicate HasTarget(x: Session, c: Config, t: Target) {
    x.binding == Some(t) || (x.binding == None && c.seed == Some(t))
  }

  ghost predicate HasNoTarget(x: Session, c: Config) {
    x.binding == None && c.seed == None
  }

  // ---- The lane section ---------------------------------------------------------------------

  ghost function OwedTrending(r: LaneRecord, h: Hub, due: bool): seq<Frame> {
    if due && h.state.trending.Some? && r.trendingGeneration != Some(h.state.trending.value.generation)
    then [MarketTrending(h.state.trending.value)] else []
  }

  ghost function OwedPrice(r: LaneRecord, t: Target, pick: Option<Price>, due: bool): seq<Frame> {
    if due && pick.Some? && r.priceGeneration != Some(pick.value.generation) && pick.value.networkId in CANONICAL
    then [MarketPrice(CANONICAL[pick.value.networkId], t.address, pick.value)] else []
  }

  ghost function OwedStatus(r: LaneRecord, h: Hub): seq<Frame> {
    if h.state.live && r.provenance != Some(Ws) then [MarketStatus(Ws, |h.log|)]
    else if !h.state.live && r.provenance != Some(Polling) then [MarketStatus(Polling, |h.log|)]
    else []
  }

  /** A trending list of a new generation, then the target's price of a new generation, both only while the lane
      is live and the shown target is current, then the provenance if it changed. A pending switch forgets the price
      generation. */
  lemma LaneSectionOwes(x: Session, h: Hub, t: Target, pick: Option<Price>)
    requires Validated(t) && PickOk(h, t, pick)
    ensures var y, r := LaneSection(x, h, t, pick), Record(x);
            var due := h.state.live && x.remembered == Some(t);
            && y == x.(lane := y.lane, priceEpoch := y.priceEpoch) && y.lane.Some?
            && Pending(y) == Pending(x) + OwedTrending(r, h, due) + OwedPrice(r, t, pick, due) + OwedStatus(r, h)
            && Record(y).provenance == Some(if h.state.live then Ws else Polling)
            && Record(y).trendingGeneration ==
               (if due && h.state.trending.Some? then Some(h.state.trending.value.generation) else r.trendingGeneration)
            && Record(y).priceGeneration ==
               (if due && pick.Some? then Some(pick.value.generation)
                else if h.state.live && x.remembered != Some(t) then None else r.priceGeneration)
  {
    SlugRoundTrip(t.chain);
    if pick.Some? {
      CanonicalTable(pick.value.networkId);
    }
  }

  /** The head of the loop: nothing without a target; what is queued first; and only then the lane. */
  lemma LoopHeadOwes(x: Session, hub: Option<Hub>, c: Config, failures: nat, fetches: seq<Fetch>, pick: Option<Price>, t: Target)
    requires HasTarget(x, c, t)
    ensures var y := LoopHead(x, hub, c, failures, fetches, pick);
            var queue := if Pending(x) == [] && hub.Some? then Pending(LaneSection(x, hub.value, t, pick)) else Pending(x);
            && (queue != [] ==>
                  y.call == Idle && y.emitted == x.emitted + [queue[0]] && Pending(y) == queue[1..]
                  && y.finished == x.finished + [Done(fetches, Returned(queue[0]))])
            && (queue == [] ==> y.call == Asleep(failures, fetches) && y.emitted == x.emitted && y.finished == x.finished)
            && y.binding == x.binding && y.remembered == x.remembered
  {
  }

  lemma LoopHeadWithoutTarget(x: Session, hub: Option<Hub>, c: Config, failures: nat, fetches: seq<Fetch>, pick: Option<Price>)
    requires HasNoTarget(x, c)
    ensures LoopHead(x, hub, c, failures, fetches, pick)
         == x.(call := Idle, finished := x.finished + [Done(fetches, NoTarget)])
  {
  }

  // ---- A poll, from waking to its answer ------------------------------------------------------

  /** A step that leaves the call in flight alone. */
  predicate Elsewhere(step: Step) {
    step.Bound? || step.Unbound? || step.RememberedEvicted? || step.LaneEvicted? || step.HubMoves?
  }

  lemma {:induction false} CallStays(ss: seq<State>, steps: seq<Step>, c: Config, i: nat, j: nat)
    requires IsSteppedRun(ss, steps, c) && i <= j <= |steps|
    requires forall m :: i <= m < j ==> Elsewhere(steps[m])
    ensures ss[j].session.call == ss[i].session.call && ss[j].session.emitted == ss[i].session.emitted
  {
    if i < j {
      CallStays(ss, steps, c, i, j - 1);
      assert Takes(ss[j - 1], ss[j], c, steps[j - 1]);
    }
  }

  ghost function Candles(t: Target, bars: seq<Bar>): Frame {
    OhlcvSnapshot("ohlcv:" + t.chain + ":" + t.address, t.timeframe, bars)
  }

  ghost function Candle(t: Target, bars: seq<Bar>): Frame
    requires bars != []
  {
    OhlcvDelta("ohlcv:" + t.chain + ":" + t.address, t.timeframe, bars[|bars| - 1])
  }

  /** In every run: a poll that starts while the target is the remembered one, and brings candles, shows the last of
      them as a delta; any other poll that brings candles shows them all as a snapshot of the target and
      remembers it. What happens elsewhere in between does not matter. */
  lemma PollShows(ss: seq<State>, steps: seq<Step>, c: Config, i: nat, j: nat, t: Target)
    requires IsSteppedRun(ss, steps, c) && i < j < |steps|
    requires steps[i].Wakes? && steps[j].PollArrives? && forall m :: i < m < j ==> Elsewhere(steps[m])
    requires HasTarget(ss[i].session, c, t) && Normalize(steps[j].raw) != []
    ensures var x, y, bars := ss[j].session, ss[j + 1].session, Normalize(steps[j].raw);
            && y.call == Idle
            && (ss[i].session.remembered == Some(t) ==> y.emitted == x.emitted + [Candle(t, bars)] && y.remembered == x.remembered)
            && (ss[i].session.remembered != Some(t) ==> y.emitted == x.emitted + [Candles(t, bars)] && y.remembered == Some(t))
  {
    assert Takes(ss[i], ss[i + 1], c, steps[i]) && Takes(ss[j], ss[j + 1], c, steps[j]);
    CallStays(ss, steps, c, i + 1, j);
  }

  /** A poll without candles goes back to the head of the loop with a clean failure count. */
  lemma EmptyPollGoesOn(x: Session, hub: Option<Hub>, c: Config, raw: seq<Bar>, pick: Option<Price>)
    requires x.call.DeltaFetch? && NoStaleOutage(x, hub) && Normalize(raw) == []
    ensures PollSucceeds(x, hub, c, raw, pick)
         == LoopHead(x.(call := Idle), hub, c, 0, x.call.fetches + [Fetched(raw)], pick)
  {
    assert Recover(x.(call := Idle), hub) == x.(call := Idle);
  }

  /** In every run: a failed poll with a lane attached shows that the source is unavailable; without a lane the sixth
      failure in a row ends the call, and any other goes back to the head of the loop, one failure further. */
  lemma FailureShows(ss: seq<State>, steps: seq<Step>, c: Config, j: nat)
    requires ConfigOk(c) && IsSteppedRun(ss, steps, c) && j < |steps| && steps[j].PollFailed?
    ensures var x, y, hub := ss[j].session, ss[j + 1].session, ss[j].hub;
            && x.call.DeltaFetch?
            && (hub.Some? ==> y.call == Idle && y.emitted == x.emitted + [MarketStatus(Unavailable, |hub.value.log|)])
            && (hub.None? && x.call.failures + 1 >= 6 ==>
                  y == x.(call := Idle, finished := x.finished + [Done(x.call.fetches + [Failed], Ended)]))
            && (hub.None? && x.call.failures + 1 < 6 ==>
                  y == LoopHead(x.(call := Idle), None, c, x.call.failures + 1, x.call.fetches + [Failed], steps[j].pick))
  {
    SteppedPrefixIsRun(ss, steps, c, j);
    RunOrdered(ss[..j + 1], c);
    RunAligned(ss[..j + 1], c);
    assert Takes(ss[j], ss[j + 1], c, steps[j]);
  }

  // ---- A snapshot request ---------------------------------------------------------------------

  /** In every run: a snapshot request drops the lane record at once; if its fetch brings candles, all of them are
      shown and the target is remembered, otherwise nothing is shown and nothing remembered changes. */
  lemma SnapshotShows(ss: seq<State>, steps: seq<Step>, c: Config, i: nat, j: nat, t: Target)
    requires IsSteppedRun(ss, steps, c) && i < j < |steps|
    requires steps[i].SnapshotBegins? && steps[j].SnapshotArrives? && forall m :: i < m < j ==> Elsewhere(steps[m])
    requires HasTarget(ss[i].session, c, t)
    ensures var x, y, fetch := ss[j].session, ss[j + 1].session, steps[j].fetch;
            && ss[i + 1].session.lane == None && y.call == Idle
            && (fetch.Fetched? && Normalize(fetch.raw) != [] ==>
                  y.emitted == x.emitted + [Candles(t, Normalize(fetch.raw))] && y.remembered == Some(t))
            && (fetch.Failed? || Normalize(fetch.raw) == [] ==> y.emitted == x.emitted && y.remembered == x.remembered)
  {
    assert Takes(ss[i], ss[i + 1], c, steps[i]) && Takes(ss[j], ss[j + 1], c, steps[j]);
    CallStays(ss, steps, c, i + 1, j);
  }

  // ---- Runs with their steps ------------------------------------------------------------------

  lemma SteppedPrefixIsRun(ss: seq<State>, steps: seq<Step>, c: Config, j: nat)
    requires IsSteppedRun(ss, steps, c) && j <= |steps|
    ensures IsSessionRun(ss[..j + 1], c) && Last(ss[..j + 1]) == ss[j]
  {
    var prefix := ss[..j + 1];
    forall i | 0 <= i < |prefix| - 1
      ensures Moves(prefix[i], prefix[i + 1], c)
    {
      assert Takes(ss[i], ss[i + 1], c, steps[i]);
    }
  }

  /** Every run has steps, so the laws above hold of every run. */
  lemma {:induction false} RunHasSteps(ss: seq<State>, c: Config) returns (steps: seq<Step>)
    requires IsSessionRun(ss, c)
    ensures IsSteppedRun(ss, steps, c)
  {
    if |ss| == 1 {
      steps := [];
    } else {
      var n := |ss| - 2;
      forall i | 0 <= i < |Front(ss)| - 1
        ensures Moves(Front(ss)[i], Front(ss)[i + 1], c)
      {
        assert Moves(ss[i], ss[i + 1], c);
      }
      steps := RunHasSteps(Front(ss), c);
      assert Moves(ss[n], ss[n + 1], c);
      var step :| Takes(ss[n], ss[n + 1], c, step);
      steps := steps + [step];
      forall i | 0 <= i < |steps|
        ensures Takes(ss[i], ss[i + 1], c, steps[i])
      {
        if i < n {
          assert Takes(Front(ss)[i], Front(ss)[i + 1], c, steps[i]);
        }
      }
    }
  }
}
