/** The request logic of the price endpoints
    (src/main/java/com/example/pricing/PriceResource.java): publish validation,
    the mapping of the cached price to a response, the clamping of the stream
    parameters and the bounded, drop-previous tick stream. */
module PriceResource {
  import opened Wrappers
  import opened Ticks
  import opened PricePipeline

  // ---------------------------------------------------------------------
  // Responses
  // ---------------------------------------------------------------------

  /** A value of a JSON response entity. */
  datatype JsonValue = JsonString(text: string) | JsonNumber(number: real)

  /** An HTTP response: its status code and its one-level JSON object entity. */
  datatype Response = Response(status: nat, entity: map<string, JsonValue>)

  const Ok: nat := 200
  const Accepted: nat := 202
  const BadRequest: nat := 400
  const NotFound: nat := 404

  const NonPositivePriceError: string := "price must be greater than zero"
  const NoPriceConsumedMessage: string := "No price has been consumed yet"

  /** The number a client reads from field `key` of a response, if any. */
  function NumberField(response: Response, key: string): Option<real> {
    if key in response.entity && response.entity[key].JsonNumber?
    then Some(response.entity[key].number)
    else None
  }

  // ---------------------------------------------------------------------
  // publish
  // ---------------------------------------------------------------------

  /** The prices `publish` hands to the pipeline's `send`: the price itself
      when it is positive, nothing otherwise. */
  function Outgoing(price: real): (sent: seq<real>)
    ensures |sent| <= 1
    ensures sent != [] <==> price > 0.0
    ensures forall i :: 0 <= i < |sent| ==> sent[i] == price
  {
    if price <= 0.0 then [] else [price]
  }

  /** The response of `publish`: 400 with an error for a non-positive price,
      202 acknowledging the price otherwise. */
  function PublishResponse(price: real): (r: Response)
    ensures r.status == BadRequest <==> price <= 0.0
    ensures r.status == Accepted <==> price > 0.0
    ensures price <= 0.0 ==> r.entity == map["error" := JsonString(NonPositivePriceError)]
    ensures NumberField(r, "published") == if price > 0.0 then Some(price) else None
  {
    if price <= 0.0 then
      Response(BadRequest, map["error" := JsonString(NonPositivePriceError)])
    else
      Response(Accepted, map["published" := JsonNumber(price)])
  }

  // ---------------------------------------------------------------------
  // last
  // ---------------------------------------------------------------------

  /** The response of `last` for the cached value: 404 with a message when
      nothing was consumed, 200 carrying the cached price otherwise. */
  function LastResponse(cached: Option<real>): (r: Response)
    ensures r.status == NotFound <==> cached == None
    ensures r.status == Ok <==> cached.Some?
    ensures cached == None ==> r.entity == map["message" := JsonString(NoPriceConsumedMessage)]
    ensures NumberField(r, "lastProcessedPrice") == cached
  {
    match cached
    case None => Response(NotFound, map["message" := JsonString(NoPriceConsumedMessage)])
    case Some(value) => Response(Ok, map["lastProcessedPrice" := JsonNumber(value)])
  }

  /** End to end on values: publishing a price and delivering what was sent
      makes `last` answer 200 with that price when it was positive, and
      leaves `last`'s answer as it was when it was not. */
  lemma PublishThenDeliver(cached: Option<real>, price: real)
    ensures price > 0.0 ==>
      LastResponse(AfterDeliveries(cached, Outgoing(price))) == Response(Ok, map["lastProcessedPrice" := JsonNumber(price)])
    ensures price <= 0.0 ==>
      LastResponse(AfterDeliveries(cached, Outgoing(price))) == LastResponse(cached)
  {
  }

  // ---------------------------------------------------------------------
  // stream parameters
  // ---------------------------------------------------------------------

  /** Defaults of the `intervalMs` and `count` query parameters. */
  const DefaultIntervalMs: int := 20
  const DefaultCount: int := 100
  /** Largest number of ticks one stream emits. */
  const MaxCount: int := 5000

  function Max(a: int, b: int): int { if a >= b then a else b }
  function Min(a: int, b: int): int { if a <= b then a else b }

  /** A query parameter as the method receives it: the given value, or the
      declared default when the request leaves it out. */
  function QueryParam(given: Option<int>, default: int): int {
    match given
    case Some(v) => v
    case None => default
  }

  /** The timer period actually used: at least one millisecond. */
  function SafeIntervalMs(intervalMs: int): (r: int)
    ensures r >= 1
    ensures intervalMs >= 1 ==> r == intervalMs
    ensures intervalMs < 1 ==> r == 1
  {
    Max(1, intervalMs)
  }

  /** The number of ticks actually emitted at most: clamped to [1, 5000]. */
  function SafeCount(count: int): (r: int)
    ensures 1 <= r <= MaxCount
    ensures 1 <= count <= MaxCount ==> r == count
    ensures count <= 0 ==> r == 1
    ensures count > MaxCount ==> r == MaxCount
  {
    Max(1, Min(MaxCount, count))
  }

  /** Each clamp picks the allowed value closest to the request, and clamping
      twice changes nothing. */
  lemma ClampsAreNearestAndIdempotent(intervalMs: int, count: int, other: int)
    ensures other >= 1 ==>
      Dist(SafeIntervalMs(intervalMs), intervalMs) <= Dist(other, intervalMs)
    ensures 1 <= other <= MaxCount ==>
      Dist(SafeCount(count), count) <= Dist(other, count)
    ensures SafeIntervalMs(SafeIntervalMs(intervalMs)) == SafeIntervalMs(intervalMs)
    ensures SafeCount(SafeCount(count)) == SafeCount(count)
  {
  }

  function Dist(a: int, b: int): nat {
    if a >= b then a - b else b - a
  }

  /** A request without parameters streams every 20 ms and at most 100 ticks. */
  lemma DefaultStreamParameters()
    ensures SafeIntervalMs(QueryParam(None, DefaultIntervalMs)) == 20
    ensures SafeCount(QueryParam(None, DefaultCount)) == 100
  {
  }

  // ---------------------------------------------------------------------
  // the tick stream
  // ---------------------------------------------------------------------

  /** What can happen next to a running stream. `Fire`: the periodic timer
      fires, emitting its next counter value into the drop-previous buffer.
      `Pull`: the downstream subscriber takes the buffered value, if any,
      turning it into a tick with the given random price and clock reading. */
  datatype Event = Fire | Pull(price: real, now: Instant)

  /** A running stream: the timer's next counter value, the one-slot
      drop-previous buffer and the ticks emitted so far. */
  datatype StreamState = StreamState(counter: nat, slot: Option<nat>, emitted: seq<PriceTick>)

  const Start: StreamState := StreamState(0, None, [])

  /** One event: a firing overwrites the buffer (dropping an unconsumed
      value), a pull empties it into a new tick. */
  function Step(s: StreamState, e: Event): StreamState {
    match e
    case Fire => StreamState(s.counter + 1, Some(s.counter), s.emitted)
    case Pull(price, now) =>
      match s.slot
      case None => s
      case Some(n) => StreamState(s.counter, None, s.emitted + [PriceTick(n, price, now)])
  }

  /** The stream driven by `schedule` until it has emitted `limit` ticks
      (where it is cancelled upstream) or the schedule ends. */
  function Run(s: StreamState, schedule: seq<Event>, limit: nat): StreamState
    decreases |schedule|
  {
    if |s.emitted| >= limit || schedule == [] then s
    else Run(Step(s, schedule[0]), schedule[1..], limit)
  }

  /** Every random draw the schedule offers lies in [90.0, 110.0): what the
      random source promises, stated as an assumption on the input. */
  predicate DrawsInRange(schedule: seq<Event>) {
    forall i :: 0 <= i < |schedule| && schedule[i].Pull? ==> InPriceRange(schedule[i].price)
  }

  /** The number of timer firings in a schedule. */
  function Firings(schedule: seq<Event>): (n: nat)
    ensures n <= |schedule|
  {
    if schedule == [] then 0 else (if schedule[0].Fire? then 1 else 0) + Firings(schedule[1..])
  }

  /** The invariant of a running stream: emitted sequence numbers strictly
      increase and are all below the timer counter; a buffered value is below
      the counter and above every emitted one. */
  ghost predicate Consistent(s: StreamState) {
    && StrictlyIncreasing(s.emitted)
    && (forall i :: 0 <= i < |s.emitted| ==> s.emitted[i].sequence < s.counter)
    && (s.slot.Some? ==>
          s.slot.value < s.counter &&
          forall i :: 0 <= i < |s.emitted| ==> s.emitted[i].sequence < s.slot.value)
  }

  lemma StepKeepsConsistent(s: StreamState, e: Event)
    requires Consistent(s)
    ensures Consistent(Step(s, e))
    ensures Step(s, e).emitted == s.emitted || |Step(s, e).emitted| == |s.emitted| + 1
    ensures Step(s, e).emitted[..|s.emitted|] == s.emitted
    ensures Step(s, e).counter == s.counter + (if e.Fire? then 1 else 0)
  {
  }

  /** What the running stream guarantees: it stops at `limit`, its sequence
      numbers strictly increase and come from timer firings, it only appends
      to what was emitted, and its prices are the schedule's draws. */
  lemma {:induction false} RunProperties(s: StreamState, schedule: seq<Event>, limit: nat)
    requires Consistent(s)
    requires |s.emitted| <= limit
    ensures Consistent(Run(s, schedule, limit))
    ensures |Run(s, schedule, limit).emitted| <= limit
    ensures Run(s, schedule, limit).counter == s.counter + Firings(schedule) || |Run(s, schedule, limit).emitted| == limit
    ensures Run(s, schedule, limit).counter <= s.counter + Firings(schedule)
    ensures |s.emitted| <= |Run(s, schedule, limit).emitted|
    ensures Run(s, schedule, limit).emitted[..|s.emitted|] == s.emitted
    ensures (forall i :: 0 <= i < |s.emitted| ==> InPriceRange(s.emitted[i].price)) && DrawsInRange(schedule) ==>
      forall i :: 0 <= i < |Run(s, schedule, limit).emitted| ==> InPriceRange(Run(s, schedule, limit).emitted[i].price)
    decreases |schedule|
  {
    if |s.emitted| >= limit || schedule == [] {
    } else {
      var t := Step(s, schedule[0]);
      StepKeepsConsistent(s, schedule[0]);
      RunProperties(t, schedule[1..], limit);
      var r := Run(t, schedule[1..], limit);
      assert r == Run(s, schedule, limit);
      assert Firings(schedule) == (if schedule[0].Fire? then 1 else 0) + Firings(schedule[1..]);
      assert r.emitted[..|s.emitted|] == r.emitted[..|t.emitted|][..|s.emitted|];
      if (forall i :: 0 <= i < |s.emitted| ==> InPriceRange(s.emitted[i].price)) && DrawsInRange(schedule) {
        assert DrawsInRange(schedule[1..]) by {
          forall i | 0 <= i < |schedule[1..]| && schedule[1..][i].Pull?
            ensures InPriceRange(schedule[1..][i].price)
          {
            assert schedule[1..][i] == schedule[i + 1];
          }
        }
        forall i | 0 <= i < |t.emitted|
          ensures InPriceRange(t.emitted[i].price)
        {
          if i >= |s.emitted| {
            assert schedule[0].Pull?;
          }
        }
      }
    }
  }

  /** A subscriber that keeps pace: every firing is pulled before the next one. */
  function KeepingPace(draws: seq<(real, Instant)>): (schedule: seq<Event>)
    ensures |schedule| == 2 * |draws|
  {
    if draws == [] then [] else [Fire, Pull(draws[0].0, draws[0].1)] + KeepingPace(draws[1..])
  }

  /** With a subscriber that keeps pace nothing is dropped: the stream emits
      min(limit, number of draws) ticks numbered 0, 1, 2, ... without gaps,
      each carrying its own draw. */
  lemma {:induction false} KeepingPaceHasNoGaps(s: StreamState, draws: seq<(real, Instant)>, limit: nat)
    requires s.slot == None && s.counter == |s.emitted|
    requires forall i :: 0 <= i < |s.emitted| ==> s.emitted[i].sequence == i
    requires |s.emitted| <= limit
    ensures |Run(s, KeepingPace(draws), limit).emitted| == Min(limit, |s.emitted| + |draws|)
    ensures Run(s, KeepingPace(draws), limit).emitted[..|s.emitted|] == s.emitted
    ensures forall i :: 0 <= i < |Run(s, KeepingPace(draws), limit).emitted| ==>
      Run(s, KeepingPace(draws), limit).emitted[i].sequence == i
    ensures forall i :: |s.emitted| <= i < |Run(s, KeepingPace(draws), limit).emitted| ==>
      Run(s, KeepingPace(draws), limit).emitted[i] == PriceTick(i, draws[i - |s.emitted|].0, draws[i - |s.emitted|].1)
    decreases |draws|
  {
    if |s.emitted| >= limit || draws == [] {
    } else {
      var d := draws[0];
      var sched := KeepingPace(draws);
      assert sched[1..] == [Pull(d.0, d.1)] + KeepingPace(draws[1..]);
      assert sched[1..][1..] == KeepingPace(draws[1..]);
      var s1 := Step(s, Fire);
      var s2 := Step(s1, Pull(d.0, d.1));
      assert Run(s, sched, limit) == Run(s1, sched[1..], limit);
      assert Run(s1, sched[1..], limit) == Run(s2, KeepingPace(draws[1..]), limit);
      assert s2.emitted == s.emitted + [PriceTick(|s.emitted|, d.0, d.1)];
      KeepingPaceHasNoGaps(s2, draws[1..], limit);
      var r := Run(s2, KeepingPace(draws[1..]), limit);
      assert r.emitted[..|s.emitted|] == r.emitted[..|s2.emitted|][..|s.emitted|];
      forall i | |s.emitted| <= i < |r.emitted|
        ensures r.emitted[i] == PriceTick(i, draws[i - |s.emitted|].0, draws[i - |s.emitted|].1)
      {
        if i > |s.emitted| {
          assert draws[1..][i - |s2.emitted|] == draws[i - |s.emitted|];
        } else {
          assert r.emitted[i] == r.emitted[..|s2.emitted|][i] == s2.emitted[i];
        }
      }
    }
  }

  /** Two firings before a pull: the first value is dropped and the stream
      shows a gap. */
  lemma SlowSubscriberSeesGap(price: real, now: Instant)
    ensures Run(Start, [Fire, Fire, Pull(price, now)], 1).emitted == [PriceTick(1, price, now)]
  {
    var s1 := StreamState(1, Some(0), []);
    var s2 := StreamState(2, Some(1), []);
    var s3 := StreamState(2, None, [PriceTick(1, price, now)]);
    assert [Fire, Fire, Pull(price, now)][1..] == [Fire, Pull(price, now)];
    assert [Fire, Pull(price, now)][1..] == [Pull(price, now)];
    assert [Pull(price, now)][1..] == [];
    assert Run(s3, [], 1) == s3;
    assert Run(s2, [Pull(price, now)], 1) == Run(s3, [], 1);
    assert Run(s1, [Fire, Pull(price, now)], 1) == Run(s2, [Pull(price, now)], 1);
  }

  /** The price resource; the pipeline is injected. */
  class PriceResource {
    const pipeline: PricePipeline

    constructor (pipeline: PricePipeline)
      ensures this.pipeline == pipeline
    {
      this.pipeline := pipeline;
    }

    /** Rejects a non-positive price with 400 and sends nothing; otherwise
        sends the price once and acknowledges it with 202. The cache is left
        as it was: consumption happens later, on delivery. */
    method Publish(price: real) returns (response: Response)
      requires pipeline.Valid()
      modifies pipeline
      ensures pipeline.Valid()
      ensures response == PublishResponse(price)
      ensures pipeline.outbound == old(pipeline.outbound) + Outgoing(price)
      ensures pipeline.lastProcessedPrice == old(pipeline.lastProcessedPrice)
      ensures pipeline.delivered == old(pipeline.delivered)
    {
      if price <= 0.0 {
        return Response(BadRequest, map["error" := JsonString(NonPositivePriceError)]);
      }
      pipeline.Send(price);
      response := Response(Accepted, map["published" := JsonNumber(price)]);
    }

    /** Answers with the cached price: 404 before anything was consumed, 200
        with the last consumed price afterwards. */
    method Last() returns (response: Response)
      requires pipeline.Valid()
      ensures response == LastResponse(pipeline.lastProcessedPrice)
      ensures response.status == NotFound <==> pipeline.delivered == []
      ensures pipeline.delivered != [] ==>
        NumberField(response, "lastProcessedPrice") == Some(pipeline.delivered[|pipeline.delivered| - 1])
    {
      var value := pipeline.LastProcessedPrice();
      if value == None {
        return Response(NotFound, map["message" := JsonString(NoPriceConsumedMessage)]);
      }
      response := Response(Ok, map["lastProcessedPrice" := JsonNumber(value.value)]);
    }

    /** The tick stream for one request, driven by `schedule`. A query
        parameter the request leaves out takes its declared default (20 ms,
        100 ticks). It returns the timer period it uses and the ticks it
        emits. The stream stops after SafeCount(count) ticks; its sequence
        numbers are timer counter values that strictly increase (gaps are
        possible, repeats are not). */
    method Stream(intervalMs: Option<int>, count: Option<int>, schedule: seq<Event>)
      returns (periodMs: int, ticks: seq<PriceTick>)
      ensures periodMs == SafeIntervalMs(QueryParam(intervalMs, DefaultIntervalMs)) && periodMs >= 1
      ensures intervalMs == None ==> periodMs == DefaultIntervalMs
      ensures ticks == Run(Start, schedule, SafeCount(QueryParam(count, DefaultCount))).emitted
      ensures |ticks| <= SafeCount(QueryParam(count, DefaultCount))
      ensures count == None ==> |ticks| <= DefaultCount
      ensures StrictlyIncreasing(ticks)
      ensures forall i :: 0 <= i < |ticks| ==> ticks[i].sequence < Firings(schedule)
      ensures DrawsInRange(schedule) ==> forall i :: 0 <= i < |ticks| ==> InPriceRange(ticks[i].price)
    {
      periodMs := SafeIntervalMs(QueryParam(intervalMs, DefaultIntervalMs));
      var safeCount := SafeCount(QueryParam(count, DefaultCount));
      var counter: nat := 0;
      var slot: Option<nat> := None;
      ticks := [];
      var i := 0;
      while i < |schedule| && |ticks| < safeCount
        invariant 0 <= i <= |schedule|
        invariant Run(StreamState(counter, slot, ticks), schedule[i..], safeCount) == Run(Start, schedule, safeCount)
      {
        assert schedule[i..][1..] == schedule[i + 1..];
        match schedule[i] {
          case Fire =>
            slot := Some(counter);
            counter := counter + 1;
          case Pull(price, now) =>
            if slot.Some? {
              ticks := ticks + [PriceTick(slot.value, price, now)];
              slot := None;
            }
        }
        i := i + 1;
      }
      RunProperties(Start, schedule, safeCount);
    }
  }

  /** A price of 0 is rejected with 400
      (src/test/java/com/example/pricing/PriceResourceTest.java). */
  method PublishRejectsNonPositivePrice() returns (status: nat)
    ensures status == BadRequest
  {
    var pipeline := new PricePipeline();
    var resource := new PriceResource(pipeline);
    var response := resource.Publish(0.0);
    status := response.status;
  }

  /** Publishing 101.25 is acknowledged with 202 and, once the sent price is
      delivered to the consumer, `last` reports it with 200
      (src/test/java/com/example/integration/ReactiveFlowIntegrationTest.java). */
  method PublishIsConsumedAndExposed() returns (published: Response, last: Response)
    ensures published.status == Accepted && NumberField(published, "published") == Some(101.25)
    ensures last.status == Ok && NumberField(last, "lastProcessedPrice") == Some(101.25)
  {
    var pipeline := new PricePipeline();
    var resource := new PriceResource(pipeline);
    published := resource.Publish(101.25);
    assert pipeline.outbound == [101.25];
    pipeline.Consume(101.25);
    last := resource.Last();
  }

  /** A stream of five ticks read by a subscriber that keeps pace delivers
      exactly five events, numbered 0 to 4
      (src/test/java/com/example/integration/ReactiveFlowIntegrationTest.java). */
  method StreamProducesFiveEvents(draws: seq<(real, Instant)>) returns (ticks: seq<PriceTick>)
    requires |draws| >= 5
    ensures |ticks| == 5
    ensures forall i :: 0 <= i < 5 ==> ticks[i].sequence == i
  {
    var pipeline := new PricePipeline();
    var resource := new PriceResource(pipeline);
    var periodMs;
    periodMs, ticks := resource.Stream(Some(2), Some(5), KeepingPace(draws));
    KeepingPaceHasNoGaps(Start, draws, 5);
  }
}
