/** The element type of the price stream (src/main/java/com/example/pricing/PriceTick.java). */
module Ticks {

  /** An abstract wall-clock reading; the clock itself is an input of the model. */
  type Instant = int

  /** One synthetic price sample: the timer counter value it was made from,
      the random price drawn for it and the moment it was emitted. */
  datatype PriceTick = PriceTick(sequence: nat, price: real, emittedAt: Instant)

  /** Lower (inclusive) and upper (exclusive) bound of the random price source. */
  const MinPrice: real := 90.0
  const MaxPrice: real := 110.0

  predicate InPriceRange(price: real) {
    MinPrice <= price < MaxPrice
  }

  /** No sequence number repeats, and later ticks carry larger ones. */
  predicate StrictlyIncreasing(ticks: seq<PriceTick>) {
    forall i, j :: 0 <= i < j < |ticks| ==> ticks[i].sequence < ticks[j].sequence
  }
}
