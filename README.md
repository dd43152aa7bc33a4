# Price pipeline model

A Dafny model of the price pipeline of the reactive demo service. It covers:

- the **last-price cache** (`PricePipeline`): one slot that starts absent. The channel consumer overwrites it with every delivered price, and the `last` endpoint reads it.
- the **outbound send** path. `send` hands a price to the channel transport.
- the **request logic** of the price endpoints (`PriceResource`):
  - publish validation, which rejects a non-positive price with 400 and otherwise sends the price once and answers 202;
  - the mapping of the cached value to 404 or 200;
  - the clamping of the stream parameters: interval at least 1 ms, count in [1, 5000], with defaults 20 and 100;
  - the bounded tick stream.

The tick stream is a periodic timer whose counter values 0, 1, 2, … pass through a one-slot "drop previous" buffer. Each value the subscriber takes becomes a `PriceTick(sequence, price, emittedAt)`, and the stream is cut off after `safeCount` ticks. The model drives the stream with a schedule of events:

- `Fire`: the timer fires and overwrites the buffer.
- `Pull(price, now)`: the subscriber takes the buffered value, if any. The random price and the clock reading are sampled at this point, because in the source the `transform` step sits downstream of the overflow buffer.

Any interleaving of these events is a possible schedule. Mutiny's demand-driven pass-through is the case where a `Fire` is immediately followed by a `Pull`.

Modules:

- `Wrappers` holds `Option`.
- `Ticks` holds the tick record, the price range and the strictly-increasing predicate.
- `PricePipeline` holds the slot's specification function `AfterDeliveries`, the lemmas about it, and the class `PricePipeline`. The class keeps the slot as a real field. It also has two ghost fields: `outbound`, the prices handed to the transport, and `delivered`, the prices handed to the consumer.
- `PriceResource` holds the response mapping, the clamps, the stream state machine (`Step`, `Run`) and its invariant `Consistent`, and the class `PriceResource` with `Publish`, `Last` and `Stream`.

Under `onOverflow().dropPreviousItems()` (src/main/java/com/example/pricing/PriceResource.java:70), a value the subscriber has not taken is overwritten by the next firing. Sequence numbers can therefore have gaps, as `SlowSubscriberSeesGap` shows. A subscriber that pulls after every firing sees 0, 1, 2, … (`KeepingPaceHasNoGaps`). Numbers never repeat (`PriceResource.PriceResource.Stream`).

## Model

| member | source | states |
|---|---|---|
| `PricePipeline.LastWriteWins` | src/main/java/com/example/pricing/PricePipeline.java:33 | after one or more deliveries the slot holds the last delivered price, whatever it held before |
| `PricePipeline.AbsentIffNothingDelivered` | src/main/java/com/example/pricing/PricePipeline.java:23 | starting from the absent slot, the cache is absent if and only if nothing was delivered |
| `PricePipeline.NeverAbsentAgain` | src/main/java/com/example/pricing/PricePipeline.java:23 | once present, no sequence of deliveries makes the slot absent again |
| `PricePipeline.DeliveriesCompose` | src/main/java/com/example/pricing/PricePipeline.java:29-36 | delivering two batches one after the other equals delivering their concatenation |
| `PricePipeline.DuplicateDeliveryIsIdempotent` | src/main/java/com/example/pricing/PricePipeline.java:33 | a price delivered twice in a row leaves the same slot as one delivery, and that slot holds the price |
| `PricePipeline.PricePipeline.constructor` | src/main/java/com/example/pricing/PricePipeline.java:23 | a fresh pipeline has an absent slot, has sent nothing and has had nothing delivered |
| `PricePipeline.PricePipeline.Send` | src/main/java/com/example/pricing/PricePipeline.java:25-27 | appends the price to the outbound transport and leaves the cache slot unchanged |
| `PricePipeline.PricePipeline.Consume` | src/main/java/com/example/pricing/PricePipeline.java:29-36 | overwrites the slot with the delivered price, records the delivery, keeps the invariant that the slot equals the fold of all deliveries, and leaves outbound unchanged |
| `PricePipeline.PricePipeline.LastProcessedPrice` | src/main/java/com/example/pricing/PricePipeline.java:38-40 | a pure read of the slot: absent if and only if nothing was delivered, otherwise the last delivered price |
| `PricePipeline.ConsumeStoresLastProcessedPrice` | src/test/java/com/example/pricing/PricePipelineTest.java:10-16 | a fresh pipeline that consumes 42.5 reports 42.5 |
| `PriceResource.Outgoing` | src/main/java/com/example/pricing/PriceResource.java:35-41 | publish sends at most one price: the price itself exactly when it is positive |
| `PriceResource.PublishResponse` | src/main/java/com/example/pricing/PriceResource.java:34-43 | status 400 if and only if price <= 0, with the error "price must be greater than zero"; status 202 if and only if price > 0, and only then does the `published` field carry the price |
| `PriceResource.LastResponse` | src/main/java/com/example/pricing/PriceResource.java:47-56 | status 404 with "No price has been consumed yet" if and only if the cache is absent; status 200 if and only if it is present; the `lastProcessedPrice` field gives back exactly the cached value |
| `PriceResource.PublishThenDeliver` | src/main/java/com/example/pricing/PriceResource.java:34-56 | publishing a positive price and delivering what was sent makes `last` answer 200 with that price; a non-positive price leaves `last`'s answer as it was |
| `PriceResource.SafeIntervalMs` | src/main/java/com/example/pricing/PriceResource.java:66 | the period is at least 1, equals the request when the request is at least 1, and is 1 otherwise |
| `PriceResource.SafeCount` | src/main/java/com/example/pricing/PriceResource.java:67 | the count lies in [1, 5000]; it equals the request in range, is 1 for requests <= 0 and is 5000 for requests above 5000 |
| `PriceResource.ClampsAreNearestAndIdempotent` | src/main/java/com/example/pricing/PriceResource.java:66-67 | each clamp returns the allowed value nearest to the request, and clamping twice changes nothing |
| `PriceResource.DefaultStreamParameters` | src/main/java/com/example/pricing/PriceResource.java:62-67 | a request without parameters streams every 20 ms with at most 100 ticks |
| `PriceResource.StepKeepsConsistent` | src/main/java/com/example/pricing/PriceResource.java:69-71 | a timer firing or a subscriber pull preserves the stream invariant: emitted numbers strictly increase, every emitted number is below the counter, and a buffered value lies above all emitted numbers and below the counter; a step only appends to the emitted ticks |
| `PriceResource.RunProperties` | src/main/java/com/example/pricing/PriceResource.java:69-75 | a running stream keeps the invariant, never exceeds its limit, only appends, advances the counter once per firing until cut off, and emits only prices drawn in [90.0, 110.0) when the draws are |
| `PriceResource.KeepingPaceHasNoGaps` | src/main/java/com/example/pricing/PriceResource.java:69-75 | with a subscriber that pulls every firing, the stream emits min(limit, draws) ticks numbered 0, 1, 2, … without gaps, each tick carrying its own draw |
| `PriceResource.SlowSubscriberSeesGap` | src/main/java/com/example/pricing/PriceResource.java:70 | two firings before a pull drop the first value: the only tick emitted has sequence 1 |
| `PriceResource.PriceResource.constructor` | src/main/java/com/example/pricing/PriceResource.java:29-30 | the resource holds the injected pipeline |
| `PriceResource.PriceResource.Publish` | src/main/java/com/example/pricing/PriceResource.java:34-43 | for price <= 0: answers 400 and sends nothing; otherwise sends the price exactly once and answers 202 with it; the cache and the deliveries are unchanged either way |
| `PriceResource.PriceResource.Last` | src/main/java/com/example/pricing/PriceResource.java:47-56 | answers 404 if and only if nothing was consumed; otherwise reports the last consumed price |
| `PriceResource.PriceResource.Stream` | src/main/java/com/example/pricing/PriceResource.java:62-76 | applies the defaults 20 ms and 100 ticks to parameters the request leaves out; uses the clamped period; emits at most SafeCount(count) ticks; sequence numbers strictly increase and are timer values that were fired; prices lie in [90.0, 110.0) when the random draws do; the ticks are exactly those of the reference state machine `Run` |
| `PriceResource.PublishRejectsNonPositivePrice` | src/test/java/com/example/pricing/PriceResourceTest.java:10-16 | publishing 0 answers 400 |
| `PriceResource.PublishIsConsumedAndExposed` | src/test/java/com/example/integration/ReactiveFlowIntegrationTest.java:56-69 | publishing 101.25 answers 202 with 101.25; once the sent price is delivered, `last` answers 200 with 101.25 |
| `PriceResource.StreamProducesFiveEvents` | src/test/java/com/example/integration/ReactiveFlowIntegrationTest.java:72-84 | a stream requested with interval 2 and count 5, read by a subscriber that keeps pace, yields exactly five ticks numbered 0 to 4 |

## Left out

- Transport failure: `send` can fail when the channel backend is unavailable, and `publish` would then fail too. The model's `Send` always succeeds.
- Asynchrony and the reactive messaging wiring are not modelled. This covers the emitter, `@Channel`/`@Incoming`, and delivery order and at-least-once semantics. Delivery is an explicit call of `Consume`, so any order and any duplication can be expressed as a sequence of calls. `DuplicateDeliveryIsIdempotent` and `LastWriteWins` cover what that means for the cache.
- Concurrency is not modelled. Every operation is one sequential step, so the atomicity of `AtomicReference` and the scheduling of `Uni`/`Multi` are outside the model.
- Stream cancellation is not modelled: the client disconnecting and the release of the timer. A schedule that simply ends stands for a stream that stops early.
- Real-time spacing is not modelled. The model returns the clamped period, but no time elapses between events.
- Randomness and the clock are inputs. `Instant.now()` and `ThreadLocalRandom` are carried by each `Pull` event. The price range [90.0, 110.0) is an assumption on those draws (`DrawsInRange`), not something the model can enforce.
- Prices are `real`, not Java `double`. NaN, for which `price <= 0` is false, is outside the model, and so are -0.0 and rounding.
- Stream parameters and the timer counter are unbounded integers, not Java `long`. The clamps cannot overflow in `long`. Counter wrap-around after 2^63 firings is not modelled.
- HTTP routing, JSON and server-sent-event serialization, and logging (`LOG.infov`) are not modelled. A response is its status and a one-level map of JSON values.
- The fruit catalog (`FruitResource`, `Fruit`) is a thin wrapper over a persistence library and is not part of this model.
