/**
 The failure budget of a polling call: without a lane it ends exactly after six failed fetches in a
 row; with a lane it never ends, because each failed fetch is reported at once. Any candle it returns
 comes from its own last fetch.
 */
module SessionFailures {
  import opened Core
  import opened Bars
  import opened Identity
  import opened LaneHub
  import opened SessionMachine
  import opened SessionAlignment
  import opened SessionOrder

  /** How many failures the sequence ends with. */
  function FailuresInARow(fetches: seq<Fetch>): (n: nat) {
    if fetches == [] || Last(fetches).Fetched? then 0 else FailuresInARow(Front(fetches)) + 1
  }

  /** The call goes on after each of these: nothing to show yet, and never six failures in a row. */
  ghost predicate Waiting(fetches: seq<Fetch>) {
    fetches == []
    || (&& Waiting(Front(fetches))
        && FailuresInARow(fetches) < MAX_STREAM_FAILURES
        && (Last(fetches).Fetched? ==> Normalize(Last(fetches).raw) == []))
  }

  /** An ohlcv frame shows the normalised bars of the given fetch. */
  ghost predicate ShowsFetch(f: Frame, fetch: Fetch) {
    && (f.OhlcvSnapshot? ==> fetch.Fetched? && f.candles == Normalize(fetch.raw) && f.candles != [])
    && (f.OhlcvDelta? ==> fetch.Fetched? && Normalize(fetch.raw) != [] && f.candle == Last(Normalize(fetch.raw)))
  }

  ghost predicate CallCounts(call: Call) {
    call.Asleep? || call.DeltaFetch? ==>
      call.failures == FailuresInARow(call.fetches) && Waiting(call.fetches)
  }

  ghost predicate DoneOk(d: Done, lane: bool) {
    && (d.fetches != [] ==> Waiting(Front(d.fetches)))
    && (d.result.Ended? <==> FailuresInARow(d.fetches) == MAX_STREAM_FAILURES)
    && (d.result.Ended? ==> !lane)
    && (d.result.NoTarget? ==> Waiting(d.fetches))
    && (d.result.Returned? && (d.result.frame.OhlcvSnapshot? || d.result.frame.OhlcvDelta?) ==>
          d.fetches != [] && ShowsFetch(d.result.frame, Last(d.fetches)))
  }

  ghost predicate Counted(x: Session, hub: Option<Hub>) {
    && CallCounts(x.call)
    && forall i :: 0 <= i < |x.finished| ==> DoneOk(x.finished[i], hub.Some?)
  }

  lemma FinishCounted(x: Session, hub: Option<Hub>, fetches: seq<Fetch>, result: Result)
    requires Counted(x, hub) && DoneOk(Done(fetches, result), hub.Some?)
    ensures Counted(Finish(x, fetches, result), hub)
  {
  }

  lemma WaitingFront(fetches: seq<Fetch>)
    requires Waiting(fetches)
    ensures fetches != [] ==> Waiting(Front(fetches))
    ensures FailuresInARow(fetches) < MAX_STREAM_FAILURES
  {
  }

  lemma LoopHeadCounted(x: Session, hub: Option<Hub>, c: Config, failures: nat, fetches: seq<Fetch>, pick: Option<Price>)
    requires Counted(x, hub) && Aligned(x)
    requires failures == FailuresInARow(fetches) && Waiting(fetches)
    ensures Counted(LoopHead(x, hub, c, failures, fetches, pick), hub)
  {
    WaitingFront(fetches);
    match Resolve(x, c)
    case None => FinishCounted(x, hub, fetches, NoTarget);
    case Some(t) =>
      if Pending(x) != [] {
        FinishCounted(x, hub, fetches, Returned(Pending(x)[0]));
      } else if hub.Some? {
        LaneSectionAligned(x, hub.value, t, pick);
        var y := LaneSection(x, hub.value, t, pick);
        if Pending(y) != [] {
          FinishCounted(y, hub, fetches, Returned(Pending(y)[0]));
        }
      }
  }

  lemma PollSucceedsCounted(x: Session, hub: Option<Hub>, c: Config, raw: seq<Bar>, pick: Option<Price>)
    requires x.call.DeltaFetch? && Aligned(x) && NoStaleOutage(x, hub) && Counted(x, hub)
    ensures Counted(PollSucceeds(x, hub, c, raw, pick), hub)
  {
    var y, t, bars, fetches := x.(call := Idle), x.call.target, Normalize(raw), x.call.fetches + [Fetched(raw)];
    assert Recover(y, hub) == y;
    FrontOfAppend(x.call.fetches, Fetched(raw));
    if bars == [] {
      LoopHeadCounted(y, hub, c, 0, fetches, pick);
    } else if !x.call.switched {
      FinishCounted(y, hub, fetches, Returned(DeltaFrame(t, Last(bars))));
    } else {
      FinishCounted(y, hub, fetches, Returned(OhlcvSnapshot(EntityKey(t), t.timeframe, bars)));
    }
  }

  lemma PollFailsCounted(x: Session, hub: Option<Hub>, c: Config, pick: Option<Price>)
    requires x.call.DeltaFetch? && Aligned(x) && NoStaleOutage(x, hub) && Counted(x, hub)
    ensures Counted(PollFails(x, hub, c, pick), hub)
  {
    var y, failures, fetches := x.(call := Idle), x.call.failures + 1, x.call.fetches + [Failed];
    FrontOfAppend(x.call.fetches, Failed);
    WaitingFront(x.call.fetches);
    if failures >= MAX_STREAM_FAILURES {
      FinishCounted(y, hub, fetches, Ended);
    } else if hub.Some? {
      FinishCounted(y, hub, fetches, Returned(MarketStatus(Unavailable, |hub.value.log|)));
    } else {
      LoopHeadCounted(y, hub, c, failures, fetches, pick);
    }
  }

  lemma StepCounted(s: State, s': State, c: Config, step: Step)
    requires Takes(s, s', c, step)
    requires Aligned(s.session) && NoStaleOutage(s.session, s.hub) && Counted(s.session, s.hub)
    ensures Counted(s'.session, s'.hub)
  {
    var x := s.session;
    match step
    case DeltaBegins(pick) => LoopHeadCounted(x, s.hub, c, 0, [], pick);
    case Wakes =>
      WaitingFront(x.call.fetches);
      if Resolve(x, c).None? {
        FinishCounted(x, s.hub, x.call.fetches, NoTarget);
      }
    case PollArrives(raw, pick) => PollSucceedsCounted(x, s.hub, c, raw, pick);
    case PollFailed(pick) => PollFailsCounted(x, s.hub, c, pick);
    case _ =>
  }

  lemma {:induction false} RunCounted(ss: seq<State>, c: Config)
    requires ConfigOk(c) && IsSessionRun(ss, c)
    ensures Counted(Last(ss).session, Last(ss).hub)
  {
    if |ss| > 1 {
      RunCounted(Front(ss), c);
      RunAligned(Front(ss), c);
      RunOrdered(Front(ss), c);
      var s, s' := ss[|ss| - 2], ss[|ss| - 1];
      assert Moves(s, s', c);
      var step :| Takes(s, s', c, step);
      StepCounted(s, s', c, step);
    }
  }

  // ---- Main results ----------------------------------------------------------------------

  /** A completed call ended for failures exactly when its last six fetches failed, and no earlier point
      of the call had six in a row; with a lane attached it never does. */
  lemma EndsExactlyAfterSixFailures(ss: seq<State>, c: Config, i: nat)
    requires ConfigOk(c) && IsSessionRun(ss, c) && i < |Last(ss).session.finished|
    ensures var d := Last(ss).session.finished[i];
            && (d.result.Ended? <==> FailuresInARow(d.fetches) == 6)
            && (forall k :: 0 <= k < |d.fetches| ==> FailuresInARow(d.fetches[..k]) < 6)
            && (Last(ss).hub.Some? ==> !d.result.Ended?)
  {
    RunCounted(ss, c);
    var d := Last(ss).session.finished[i];
    forall k | 0 <= k < |d.fetches|
      ensures FailuresInARow(d.fetches[..k]) < MAX_STREAM_FAILURES
    {
      WaitingPrefix(Front(d.fetches), k);
      assert Front(d.fetches)[..k] == d.fetches[..k];
    }
  }

  lemma {:induction false} WaitingPrefix(fetches: seq<Fetch>, k: nat)
    requires Waiting(fetches) && k <= |fetches|
    ensures FailuresInARow(fetches[..k]) < MAX_STREAM_FAILURES
  {
    if k < |fetches| {
      WaitingPrefix(Front(fetches), k);
      assert Front(fetches)[..k] == fetches[..k];
    } else {
      assert fetches[..k] == fetches;
      WaitingFront(fetches);
    }
  }

  /** An ohlcv frame returned by a call shows the normalised bars of that call's own last fetch. */
  lemma CandlesComeFromLastFetch(ss: seq<State>, c: Config, i: nat)
    requires ConfigOk(c) && IsSessionRun(ss, c) && i < |Last(ss).session.finished|
    requires var d := Last(ss).session.finished[i];
             d.result.Returned? && (d.result.frame.OhlcvSnapshot? || d.result.frame.OhlcvDelta?)
    ensures var d := Last(ss).session.finished[i];
            d.fetches != [] && ShowsFetch(d.result.frame, Last(d.fetches))
  {
    RunCounted(ss, c);
  }

  // ---- The fixed-target source ---------------------------------------------------------------

  datatype Polled = StreamEnds | Candle(bar: Bar) | StillPolling

  /** One more fetch: how the count and the waiting condition move. */
  lemma OneMoreFetch(script: seq<Fetch>, k: nat)
    requires k < |script|
    ensures FailuresInARow(script[..k + 1]) == if script[k].Failed? then FailuresInARow(script[..k]) + 1 else 0
    ensures Waiting(script[..k + 1]) <==>
              && Waiting(script[..k])
              && FailuresInARow(script[..k + 1]) < MAX_STREAM_FAILURES
              && (script[k].Fetched? ==> Normalize(script[k].raw) == [])
  {
    assert script[..k + 1] == script[..k] + [script[k]];
    FrontOfAppend(script[..k], script[k]);
  }

  /** `FomoOhlcvStreamSource::next_delta`: poll until there is a candle or six failures in a row. The
      call is still in flight if `script` runs out first. */
  method NextDelta(script: seq<Fetch>) returns (r: Polled, used: nat)
    ensures used <= |script|
    ensures r.StillPolling? ==> used == |script| && Waiting(script[..used])
    ensures !r.StillPolling? ==> used > 0 && Waiting(script[..used - 1])
    ensures r.StreamEnds? ==> FailuresInARow(script[..used]) == 6
    ensures r.Candle? ==> script[used - 1].Fetched? && Normalize(script[used - 1].raw) != []
                          && r.bar == Last(Normalize(script[used - 1].raw))
  {
    var failures := 0;
    used := 0;
    while used < |script|
      invariant used <= |script| && Waiting(script[..used])
      invariant failures == FailuresInARow(script[..used]) < MAX_STREAM_FAILURES
    {
      OneMoreFetch(script, used);
      var fetch := script[used];
      if fetch.Failed? {
        failures := failures + 1;
        if failures >= MAX_STREAM_FAILURES {
          return StreamEnds, used + 1;
        }
      } else {
        failures := 0;
        var bars := Normalize(fetch.raw);
        if bars != [] {
          return Candle(bars[|bars| - 1]), used + 1;
        }
      }
      used := used + 1;
    }
    r := StillPolling;
  }
}
