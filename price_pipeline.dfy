/** The last-price cache and its channel endpoints
    (src/main/java/com/example/pricing/PricePipeline.java).

    The cache is one slot that starts absent; the consumer overwrites it with
    every delivered price. The outbound transport is modelled as the ghost
    sequence of prices handed to it, and delivery as an explicit call of
    `Consume`. */
module PricePipeline {
  import opened Wrappers

  /** The slot after the consumer has been handed `prices`, in order,
      starting from `slot`. */
  function AfterDeliveries(slot: Option<real>, prices: seq<real>): Option<real>
    decreases |prices|
  {
    if prices == [] then slot else AfterDeliveries(Some(prices[0]), prices[1..])
  }

  /** Last write wins: after at least one delivery the slot holds the last
      delivered price, whatever it held before. */
  lemma {:induction false} LastWriteWins(slot: Option<real>, prices: seq<real>)
    requires prices != []
    ensures AfterDeliveries(slot, prices) == Some(prices[|prices| - 1])
    decreases |prices|
  {
    if |prices| > 1 {
      LastWriteWins(Some(prices[0]), prices[1..]);
    }
  }

  /** A cache that has never been handed a price is absent, and it is absent
      only then. */
  lemma {:induction false} AbsentIffNothingDelivered(prices: seq<real>)
    ensures AfterDeliveries(None, prices) == None <==> prices == []
  {
    if prices != [] {
      LastWriteWins(None, prices);
    }
  }

  /** Once present, the slot never becomes absent again. */
  lemma {:induction false} NeverAbsentAgain(slot: Option<real>, prices: seq<real>)
    requires slot.Some?
    ensures AfterDeliveries(slot, prices).Some?
    decreases |prices|
  {
    if prices != [] {
      NeverAbsentAgain(Some(prices[0]), prices[1..]);
    }
  }

  /** Deliveries compose: delivering `first` and then `second` is delivering
      their concatenation. */
  lemma {:induction false} DeliveriesCompose(slot: Option<real>, first: seq<real>, second: seq<real>)
    ensures AfterDeliveries(slot, first + second) == AfterDeliveries(AfterDeliveries(slot, first), second)
    decreases |first|
  {
    if first == [] {
      assert first + second == second;
    } else {
      assert (first + second)[0] == first[0];
      assert (first + second)[1..] == first[1..] + second;
      DeliveriesCompose(Some(first[0]), first[1..], second);
    }
  }

  /** Duplicate (at-least-once) delivery is harmless: delivering the same
      price twice in a row leaves the slot as one delivery does. */
  lemma {:induction false} DuplicateDeliveryIsIdempotent(slot: Option<real>, prices: seq<real>, price: real)
    ensures AfterDeliveries(slot, prices + [price, price]) == AfterDeliveries(slot, prices + [price])
    ensures AfterDeliveries(slot, prices + [price]) == Some(price)
  {
    LastWriteWins(slot, prices + [price, price]);
    LastWriteWins(slot, prices + [price]);
  }

  /** The application-scoped pipeline: the cache slot and the emitter. */
  class PricePipeline {
    /** The cache slot; `None` stands for Java's `null`. */
    var lastProcessedPrice: Option<real>
    /** Every price handed to the outbound transport, oldest first. */
    ghost var outbound: seq<real>
    /** Every price handed to the consumer, oldest first. */
    ghost var delivered: seq<real>

    /** The slot is exactly what the deliveries so far leave in it. */
    ghost predicate Valid()
      reads this
    {
      lastProcessedPrice == AfterDeliveries(None, delivered)
    }

    constructor ()
      ensures Valid()
      ensures lastProcessedPrice == None
      ensures outbound == [] && delivered == []
    {
      lastProcessedPrice := None;
      outbound := [];
      delivered := [];
    }

    /** Hands `price` to the outbound transport; the cache is not touched. */
    method Send(price: real)
      requires Valid()
      modifies this`outbound
      ensures Valid()
      ensures outbound == old(outbound) + [price]
      ensures lastProcessedPrice == old(lastProcessedPrice)
    {
      outbound := outbound + [price];
    }

    /** The consumer: overwrites the slot with the delivered price. */
    method Consume(price: real)
      requires Valid()
      modifies this`lastProcessedPrice, this`delivered
      ensures Valid()
      ensures lastProcessedPrice == Some(price)
      ensures delivered == old(delivered) + [price]
      ensures outbound == old(outbound)
    {
      LastWriteWins(None, delivered + [price]);
      lastProcessedPrice := Some(price);
      delivered := delivered + [price];
    }

    /** Reads the slot: absent before any delivery, the last delivered price
        afterwards. */
    method LastProcessedPrice() returns (price: Option<real>)
      requires Valid()
      ensures price == lastProcessedPrice
      ensures price == None <==> delivered == []
      ensures delivered != [] ==> price == Some(delivered[|delivered| - 1])
    {
      price := lastProcessedPrice;
      AbsentIffNothingDelivered(delivered);
      if delivered != [] {
        LastWriteWins(None, delivered);
      }
    }
  }

  /** A fresh pipeline that consumes 42.5 reports 42.5 as its last price
      (src/test/java/com/example/pricing/PricePipelineTest.java). */
  method ConsumeStoresLastProcessedPrice() returns (price: Option<real>)
    ensures price == Some(42.5)
  {
    var pipeline := new PricePipeline();
    pipeline.Consume(42.5);
    price := pipeline.LastProcessedPrice();
  }
}
