/**
 The WebSocket-first lane client and the loop that drives it into the hub. Only a batch that the
 bridge labels `websocket` and promoted may put events into the buffer; cancellation can strike at
 any await.
 */
module LaneClient {
  import opened Core
  import opened LaneHub
  import Bars
  import Identity

  datatype Source = Source(provenance: Option<string>, wsPromoted: Option<bool>)

  datatype WireEvent =
    | TrendingWire(category: string, tokens: seq<Token>, observedAtMs: int)
    | PriceWire(networkId: int, address: string, priceUsd: Bars.Float, detail: Detail, observedAtMs: int)

  datatype Batch = Batch(events: seq<WireEvent>, cursor: int, source: Option<Source>)

  /** What one bounded `GET /market/realtime` can bring back. */
  datatype Response = Unreachable | Malformed | Answer(batch: Batch)

  predicate ProvenanceVerified(source: Option<Source>) {
    source.Some? && source.value.provenance == Some("websocket") && source.value.wsPromoted == Some(true)
  }

  predicate Accepted(r: Response) {
    r.Answer? && ProvenanceVerified(r.batch.source)
  }

  function IntoLaneEvent(w: WireEvent): (r: Option<Event>) {
    match w
    case TrendingWire(category, tokens, at) => Some(TrendingEvent(category, tokens, at))
    case PriceWire(network, address, usd, detail, at) =>
      if !Identity.ValidAddress(address) || !usd.Finite? then None
      else Some(PriceEvent(network, address, usd, detail, at))
  }

  function Parsed(events: seq<WireEvent>): (r: seq<Event>) {
    if events == [] then []
    else
      var e := IntoLaneEvent(Last(events));
      Parsed(Front(events)) + (if e.Some? then [e.value] else [])
  }

  // ---- Reference: what a history of responses entitles the consumer to --------

  function Gain(r: Response): (es: seq<Event>) {
    if Accepted(r) then Parsed(r.batch.events) else []
  }

  /** The filtered events of all accepted batches, in order. */
  function Entitled(rs: seq<Response>): (es: seq<Event>) {
    if rs == [] then [] else Entitled(Front(rs)) + Gain(Last(rs))
  }

  /** The largest accepted cursor, and zero if there is none. */
  function HighWater(rs: seq<Response>): (c: int) {
    if rs == [] then 0
    else
      var c := HighWater(Front(rs));
      if Accepted(Last(rs)) && Last(rs).batch.cursor > c then Last(rs).batch.cursor else c
  }

  lemma {:induction false} EntitledAppend(rs: seq<Response>, more: seq<Response>)
    ensures Entitled(rs + more) == Entitled(rs) + Entitled(more)
  {
    if more == [] {
      assert rs + more == rs;
    } else {
      EntitledAppend(rs, Front(more));
      assert Front(rs + more) == rs + Front(more) && Last(rs + more) == Last(more);
      var a, b, c := Entitled(rs), Entitled(Front(more)), Gain(Last(more));
      assert (a + b) + c == a + (b + c);
    }
  }

  /** The cursor is the exact maximum: it bounds every accepted cursor and is attained. */
  lemma {:induction false} HighWaterIsMaximum(rs: seq<Response>)
    ensures HighWater(rs) >= 0
    ensures forall i :: 0 <= i < |rs| && Promoted(rs[i]) ==> rs[i].batch.cursor <= HighWater(rs)
    ensures HighWater(rs) == 0 || exists i :: 0 <= i < |rs| && Promoted(rs[i]) && rs[i].batch.cursor == HighWater(rs)
  {
    if rs != [] {
      HighWaterIsMaximum(Front(rs));
      if HighWater(rs) != HighWater(Front(rs)) {
        assert Promoted(rs[|rs| - 1]) && rs[|rs| - 1].batch.cursor == HighWater(rs);
      } else if HighWater(rs) != 0 {
        var i :| 0 <= i < |Front(rs)| && Promoted(Front(rs)[i]) && Front(rs)[i].batch.cursor == HighWater(rs);
        assert Promoted(rs[i]) && rs[i].batch.cursor == HighWater(rs);
      }
    }
  }

  /** The bridge labelled the batch `websocket` and promoted it. */
  ghost predicate Promoted(r: Response) {
    r.Answer? && r.batch.source == Some(Source(Some("websocket"), Some(true)))
  }

  /** A price that may go on: one to 128 ASCII letters and digits as its address, and a finite value. */
  ghost predicate Sane(w: WireEvent) {
    w.PriceWire? ==>
      && w.priceUsd.Finite? && 1 <= |w.address| <= 128
      && forall i :: 0 <= i < |w.address| ==>
           'A' <= w.address[i] <= 'Z' || 'a' <= w.address[i] <= 'z' || '0' <= w.address[i] <= '9'
  }

  /** The lane event has the fields of the wire event. */
  ghost predicate Carries(w: WireEvent, e: Event) {
    match w
    case TrendingWire(category, tokens, at) =>
      e.TrendingEvent? && e.category == category && e.tokens == tokens && e.observedAtMs == at
    case PriceWire(network, address, usd, detail, at) =>
      e.PriceEvent? && e.networkId == network && e.address == address && e.priceUsd == usd && e.detail == detail
      && e.observedAtMs == at
  }

  lemma IntoLaneEventIff(w: WireEvent, e: Event)
    ensures IntoLaneEvent(w) == Some(e) <==> Sane(w) && Carries(w, e)
    ensures IntoLaneEvent(w).Some? <==> Sane(w)
  {
  }

  lemma AcceptedIff(r: Response)
    ensures Accepted(r) <==> Promoted(r)
  {
  }

  /** The parsed events are the sane ones of the batch, in order: a strictly increasing choice of positions that
      leaves out exactly the prices that are not sane. */
  lemma {:induction false} ParsedIsFilter(events: seq<WireEvent>) returns (at: seq<nat>)
    ensures |at| == |Parsed(events)|
    ensures forall k :: 0 <= k < |at| ==> at[k] < |events| && Carries(events[at[k]], Parsed(events)[k])
    ensures forall k, l :: 0 <= k < l < |at| ==> at[k] < at[l]
    ensures forall i :: 0 <= i < |events| ==> (Sane(events[i]) <==> i in at)
  {
    if events == [] {
      at := [];
    } else {
      var n := |events| - 1;
      at := ParsedIsFilter(Front(events));
      IntoLaneEventIff(events[n], if IntoLaneEvent(events[n]).Some? then IntoLaneEvent(events[n]).value else TrendingEvent("", [], 0));
      ghost var before := at;
      if Sane(events[n]) {
        at := at + [n];
      }
      forall i | 0 <= i < |events|
        ensures Sane(events[i]) <==> i in at
      {
        if i < n {
          assert Front(events)[i] == events[i];
          assert i in before <==> i in at;
        }
      }
    }
  }

  /** `e` was carried by response `i`, and that response was promoted. */
  ghost predicate CarriedBy(rs: seq<Response>, i: int, e: Event) {
    && 0 <= i < |rs| && Promoted(rs[i])
    && exists j :: 0 <= j < |rs[i].batch.events| && Sane(rs[i].batch.events[j]) && Carries(rs[i].batch.events[j], e)
  }

  lemma GainIsCarried(r: Response, e: Event)
    requires e in Gain(r)
    ensures Promoted(r)
    ensures exists j :: 0 <= j < |r.batch.events| && Sane(r.batch.events[j]) && Carries(r.batch.events[j], e)
  {
    AcceptedIff(r);
    var at := ParsedIsFilter(r.batch.events);
    var k :| 0 <= k < |Parsed(r.batch.events)| && Parsed(r.batch.events)[k] == e;
    assert at[k] in at;
  }

  lemma {:induction false} EntitledIsCarried(rs: seq<Response>, e: Event)
    requires e in Entitled(rs)
    ensures exists i :: CarriedBy(rs, i, e)
  {
    if e in Gain(Last(rs)) {
      GainIsCarried(Last(rs), e);
      assert CarriedBy(rs, |rs| - 1, e);
    } else {
      EntitledIsCarried(Front(rs), e);
      var i :| CarriedBy(Front(rs), i, e);
      assert CarriedBy(rs, i, e);
    }
  }

  lemma PrefixStep(seen: seq<Response>, script: seq<Response>, k: nat)
    requires k < |script|
    ensures seen + script[..k + 1] == (seen + script[..k]) + [script[k]]
    ensures Entitled(script[..k + 1]) == Entitled(script[..k]) + Gain(script[k])
  {
    assert script[..k + 1] == script[..k] + [script[k]];
    FrontOfAppend(script[..k], script[k]);
  }

  // ---- The client ---------------------------------------------------------------

  /** How one `next_event` future ended; `Cancelled` means it was dropped at an await. */
  datatype Outcome = Delivered(event: Event) | NotLive | Cancelled

  class RealtimeLaneClient {
    var cursor: int
    var buffer: seq<Event>
    var live: bool
    /** History variables: every response seen and every event handed out. */
    ghost var responses: seq<Response>
    ghost var delivered: seq<Event>

    /** Nothing accepted is ever lost, duplicated or reordered. */
    ghost predicate Valid()
      reads this
    {
      && delivered + buffer == Entitled(responses)
      && cursor == HighWater(responses)
    }

    constructor ()
      ensures Valid() && responses == [] && delivered == [] && !live
    {
      cursor, buffer, live := 0, [], false;
      responses, delivered := [], [];
    }

    /** The part of `fetch_batch` after its await. The reply is consumed without a further await. */
    method FetchBatch(reply: Response) returns (ok: bool)
      requires Valid()
      modifies this
      ensures Valid() && ok == Accepted(reply)
      ensures ok <==> reply.Answer? && reply.batch.source == Some(Source(Some("websocket"), Some(true)))
      ensures cursor == if ok && reply.batch.cursor > old(cursor) then reply.batch.cursor else old(cursor)
      ensures responses == old(responses) + [reply]
      ensures buffer == old(buffer) + Gain(reply)
      ensures delivered == old(delivered) && live == old(live)
    {
      responses := responses + [reply];
      FrontOfAppend(old(responses), reply);
      ok := reply.Answer? && ProvenanceVerified(reply.batch.source);
      if ok {
        var events := Parsed(reply.batch.events);
        if reply.batch.cursor > cursor {
          cursor := reply.batch.cursor;
        }
        buffer := buffer + events;
      }
    }

    /** Hand the oldest buffered event to the consumer. */
    method PopFront() returns (event: Event)
      requires Valid() && buffer != []
      modifies this`buffer, this`delivered
      ensures Valid()
      ensures event == old(buffer)[0] && buffer == old(buffer)[1..]
      ensures delivered == old(delivered) + [event]
    {
      event := buffer[0];
      HeadMoves(delivered, buffer);
      delivered := delivered + [event];
      buffer := buffer[1..];
    }

    /** The waiting part of `next_event`: fetch until something is buffered or a fetch is refused. When
        `script` runs out the future is cancelled where it stands, at the sleep or inside the request. */
    method Refill(script: seq<Response>) returns (refused: bool, used: nat)
      requires Valid()
      modifies this
      ensures Valid() && delivered == old(delivered)
      ensures used <= |script| && responses == old(responses) + script[..used]
      ensures buffer == old(buffer) + Entitled(script[..used])
      ensures old(buffer) != [] ==> used == 0
      ensures refused ==> !live && buffer == []
      ensures used > 0 && !refused ==> live
    {
      used, refused := 0, false;
      while buffer == [] && used < |script| && !refused
        invariant Valid() && used <= |script| && delivered == old(delivered)
        invariant responses == old(responses) + script[..used]
        invariant buffer == old(buffer) + Entitled(script[..used])
        invariant old(buffer) != [] ==> used == 0
        invariant refused ==> !live && buffer == []
        invariant used > 0 && !refused ==> live
        decreases |script| - used
      {
        PrefixStep(old(responses), script, used);
        live := FetchBatch(script[used]);
        used, refused := used + 1, !live;
      }
    }

    /** `next_event` against the responses in `script`: with `available` the events it could see, it
        hands out the first of them, and fails only if there is none. */
    method NextEvent(script: seq<Response>) returns (outcome: Outcome, used: nat)
      requires Valid()
      modifies this
      ensures Valid()
      ensures used <= |script| && responses == old(responses) + script[..used]
      ensures old(buffer) != [] ==> used == 0
      ensures delivered == old(delivered) + if outcome.Delivered? then [outcome.event] else []
      ensures outcome.NotLive? ==> !live
      ensures var available := old(buffer) + Entitled(script[..used]);
              if available != [] then outcome == Delivered(available[0]) && buffer == available[1..]
              else !outcome.Delivered? && buffer == []
    {
      var refused;
      refused, used := Refill(script);
      if buffer == [] {
        outcome := if refused then NotLive else Cancelled;
      } else {
        var event := PopFront();
        outcome := Delivered(event);
      }
    }
  }

  // ---- The driving loop -----------------------------------------------------------

  /** The events a hub log has published, in order. */
  function PublishedEvents(log: seq<Op>): (es: seq<Event>) {
    if log == [] then []
    else PublishedEvents(Front(log)) + (if Last(log).Publish? then [Last(log).event] else [])
  }

  lemma {:induction false} PublishedIn(log: seq<Op>, i: nat)
    requires i < |log| && log[i].Publish?
    ensures log[i].event in PublishedEvents(log)
  {
    if i < |log| - 1 {
      PublishedIn(Front(log), i);
    }
  }

  // ---- Client and hub as one transition system ----------------------------------------

  datatype Pipeline = Pipeline(hub: Hub, buffer: seq<Event>, responses: seq<Response>)

  ghost function PipelineOf(hub: LaneHub, client: RealtimeLaneClient): Pipeline
    reads hub, client
  {
    Pipeline(hub.View(), client.buffer, client.responses)
  }

  /** One turn: the responses that arrived during it join the buffer; either the head is published,
      or there was nothing to publish and the hub goes stale. */
  ghost predicate TurnNext(p: Pipeline, p': Pipeline, lim: Limits) {
    && p.responses <= p'.responses
    && (p.buffer != [] ==> p'.responses == p.responses)
    && var available := p.buffer + Entitled(p'.responses[|p.responses|..]);
       if available != [] then
         && p'.buffer == available[1..]
         && exists victim :: Published(p.hub, p'.hub, available[0], victim, lim)
       else
         && p'.buffer == []
         && p'.hub == Hub(p.hub.state.(live := false, generation := WrappingIncrement(p.hub.state.generation)),
                          p.hub.log + [MarkStale])
  }

  ghost predicate IsPipelineRun(ps: seq<Pipeline>, lim: Limits) {
    && ps != [] && ps[0] == Pipeline(INITIAL, [], [])
    && forall i :: 0 <= i < |ps| - 1 ==> TurnNext(ps[i], ps[i + 1], lim)
  }

  /** One turn of the `spawn` loop. A future that neither delivers nor refuses before `script` ends
      is a freshness timeout. */
  method Turn(hub: LaneHub, client: RealtimeLaneClient, script: seq<Response>)
    requires hub.Valid() && client.Valid()
    requires PublishedEvents(hub.log) == client.delivered
    modifies hub, client
    ensures hub.Valid() && client.Valid()
    ensures |hub.log| == |old(hub.log)| + 1
    ensures PublishedEvents(hub.log) == client.delivered
    ensures TurnNext(old(PipelineOf(hub, client)), PipelineOf(hub, client), hub.limits)
  {
    ghost var before := PipelineOf(hub, client);
    var outcome, used := client.NextEvent(script);
    assert client.responses[|before.responses|..] == script[..used];
    match outcome {
      case Delivered(event) => hub.Publish(event);
      case NotLive => hub.MarkStale();
      case Cancelled => hub.MarkStale();
    }
    FrontOfAppend(before.hub.log, Last(hub.log));
  }

  /** `spawn`: each element of `scripts` is one turn of the loop. */
  method Drive(hub: LaneHub, client: RealtimeLaneClient, scripts: seq<seq<Response>>)
    requires hub.Valid() && client.Valid()
    requires PublishedEvents(hub.log) == client.delivered
    modifies hub, client
    ensures hub.Valid() && client.Valid()
    ensures |hub.log| == |old(hub.log)| + |scripts|
    ensures PublishedEvents(hub.log) + client.buffer == Entitled(client.responses)
    ensures forall i :: 0 <= i < |hub.log| && hub.log[i].Publish? ==>
              exists r :: CarriedBy(client.responses, r, hub.log[i].event)
  {
    for turn := 0 to |scripts|
      invariant hub.Valid() && client.Valid()
      invariant |hub.log| == |old(hub.log)| + turn
      invariant PublishedEvents(hub.log) == client.delivered
    {
      Turn(hub, client, scripts[turn]);
    }
    forall i | 0 <= i < |hub.log| && hub.log[i].Publish?
      ensures exists r :: CarriedBy(client.responses, r, hub.log[i].event)
    {
      PublishedIn(hub.log, i);
      EntitledIsCarried(client.responses, hub.log[i].event);
    }
  }


  ghost predicate Conserved(p: Pipeline) {
    PublishedEvents(p.hub.log) + p.buffer == Entitled(p.responses)
  }

  lemma HeadMoves<T>(done: seq<T>, queue: seq<T>)
    requires queue != []
    ensures done + queue == (done + [queue[0]]) + queue[1..]
  {
  }

  lemma PublishedAppend(log: seq<Op>, op: Op)
    ensures PublishedEvents(log + [op]) == PublishedEvents(log) + (if op.Publish? then [op.event] else [])
  {
    FrontOfAppend(log, op);
  }

  /** What has been published and what is available make up what the responses entitle to. */
  lemma AvailableIsEntitled(p: Pipeline, responses: seq<Response>)
    requires Conserved(p) && p.responses <= responses
    ensures Entitled(responses) == PublishedEvents(p.hub.log) + (p.buffer + Entitled(responses[|p.responses|..]))
  {
    var tail := responses[|p.responses|..];
    assert responses == p.responses + tail;
    EntitledAppend(p.responses, tail);
    var done := PublishedEvents(p.hub.log);
    assert (done + p.buffer) + Entitled(tail) == done + (p.buffer + Entitled(tail));
  }

  lemma TurnConserves(p: Pipeline, p': Pipeline, lim: Limits)
    requires TurnNext(p, p', lim) && Conserved(p)
    ensures Conserved(p')
  {
    AvailableIsEntitled(p, p'.responses);
    var done, available := PublishedEvents(p.hub.log), p.buffer + Entitled(p'.responses[|p.responses|..]);
    if available != [] {
      var victim :| Published(p.hub, p'.hub, available[0], victim, lim);
      PublishedAppend(p.hub.log, Publish(available[0]));
      HeadMoves(done, available);
    } else {
      PublishedAppend(p.hub.log, MarkStale);
      assert done + [] == done;
    }
  }

  /** In every run the published events followed by the buffered ones are exactly the filtered
      events of the accepted batches: a timeout loses and duplicates nothing. */
  lemma {:induction false} PipelineConserves(ps: seq<Pipeline>, lim: Limits)
    requires IsPipelineRun(ps, lim)
    ensures Conserved(Last(ps))
  {
    if |ps| > 1 {
      PipelineConserves(Front(ps), lim);
      assert TurnNext(ps[|ps| - 2], ps[|ps| - 1], lim);
      TurnConserves(ps[|ps| - 2], ps[|ps| - 1], lim);
    }
  }

  /** Every event in a hub log was carried by a response that passed the provenance gate. */
  lemma HubLogIsGated(ps: seq<Pipeline>, lim: Limits, i: nat)
    requires IsPipelineRun(ps, lim)
    requires i < |Last(ps).hub.log| && Last(ps).hub.log[i].Publish?
    ensures exists r :: CarriedBy(Last(ps).responses, r, Last(ps).hub.log[i].event)
  {
    PipelineConserves(ps, lim);
    PublishedIn(Last(ps).hub.log, i);
    EntitledIsCarried(Last(ps).responses, Last(ps).hub.log[i].event);
  }

  /** A pipeline run projects to a hub run. */
  lemma {:induction false} PipelineHubRun(ps: seq<Pipeline>, lim: Limits)
    requires IsPipelineRun(ps, lim)
    ensures IsRun(seq(|ps|, i requires 0 <= i < |ps| => ps[i].hub), lim)
  {
    forall i | 0 <= i < |ps| - 1
      ensures Next(ps[i].hub, ps[i + 1].hub, lim)
    {
      assert TurnNext(ps[i], ps[i + 1], lim);
    }
  }
}
