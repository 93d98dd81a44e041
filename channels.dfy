/** The bounded in-memory FIFO between the MQTT handler (the only writer) and
    the batch processor (the only reader). Its writer side is used with a
    non-blocking `TryWrite`, so a full channel refuses the item rather than
    stalling the producer. */
module Channels {
  import opened Telemetry

  /** The answer of a non-blocking write and the channel's contents after it. */
  datatype Offered<T> = Offered(accepted: bool, items: seq<T>)

  /** The answer of a read and the channel's contents after it. */
  datatype Taken<T> = Taken(item: Option<T>, items: seq<T>)

  /** `TryWrite(x)` on a channel holding `items` with room for `capacity` items:
      accepted exactly when there is room, appended at the tail, and nothing
      already queued moves. */
  function Offer<T>(items: seq<T>, capacity: nat, x: T): (r: Offered<T>)
    ensures r.accepted <==> |items| < capacity
    ensures |r.items| == |items| + (if r.accepted then 1 else 0)
    ensures r.items[..|items|] == items
    ensures r.accepted ==> r.items[|items|] == x
    ensures |items| <= capacity ==> |r.items| <= capacity
  {
    if |items| < capacity then Offered(true, items + [x]) else Offered(false, items)
  }

  /** A read on a channel holding `items`: the oldest item, if there is one. */
  function Take<T>(items: seq<T>): (r: Taken<T>)
    ensures r.item.None? <==> items == []
    ensures r.item.None? ==> r.items == items
    ensures r.item.Some? ==> [r.item.value] + r.items == items
  {
    if items == [] then Taken(None, items) else Taken(Some(items[0]), items[1..])
  }

  /** Contents after offering every element of `xs`, in order, to a channel holding `items`. */
  function OfferAll<T>(items: seq<T>, capacity: nat, xs: seq<T>): seq<T>
  {
    if xs == [] then items
    else Offer(OfferAll(items, capacity, xs[..|xs| - 1]), capacity, xs[|xs| - 1]).items
  }

  /** Everything a reader obtains by reading until the channel is empty, in read order. */
  function Drain<T>(items: seq<T>): seq<T>
    decreases |items|
  {
    match Take(items).item
    case None => []
    case Some(x) => [x] + Drain(Take(items).items)
  }

  function Min(a: int, b: int): int { if a <= b then a else b }

  /** A burst of writes fills the channel up to its capacity, keeping the writes
      that fit in arrival order, and refuses the rest. */
  lemma {:induction false} OfferAllKeepsPrefix<T>(items: seq<T>, capacity: nat, xs: seq<T>)
    requires |items| <= capacity
    ensures OfferAll(items, capacity, xs) == items + xs[..Min(|xs|, capacity - |items|)]
  {
    if xs != [] {
      var init := xs[..|xs| - 1];
      OfferAllKeepsPrefix(items, capacity, init);
      assert init[..Min(|init|, capacity - |items|)] == xs[..Min(|init|, capacity - |items|)];
      if |init| < capacity - |items| {
        assert xs[..Min(|xs|, capacity - |items|)] == xs[..Min(|init|, capacity - |items|)] + [xs[|xs| - 1]];
      }
    }
  }

  /** Reading drains the channel in the order the items are held. */
  lemma {:induction false} DrainIsFifo<T>(items: seq<T>)
    ensures Drain(items) == items
    decreases |items|
  {
    if items != [] {
      DrainIsFifo(items[1..]);
    }
  }

  /** First in, first out: up to `capacity` writes from one producer are read
      back in the order they were written. */
  lemma FifoWithinProducer<T>(capacity: nat, xs: seq<T>)
    requires |xs| <= capacity
    ensures Drain(OfferAll([], capacity, xs)) == xs
  {
    var empty: seq<T> := [];
    OfferAllKeepsPrefix(empty, capacity, xs);
    assert empty + xs[..Min(|xs|, capacity)] == xs;
    DrainIsFifo(xs);
  }

  /** A bounded channel: the created capacity never changes and the contents
      never exceed it. */
  class BoundedChannel<T> {
    const capacity: nat
    var items: seq<T>

    ghost predicate Valid()
      reads this
    {
      0 < capacity && |items| <= capacity
    }

    /** A bounded channel is created empty, with a positive capacity. */
    constructor (capacity: nat)
      requires 0 < capacity
      ensures Valid()
      ensures this.capacity == capacity && items == []
    {
      this.capacity := capacity;
      items := [];
    }

    /** Non-blocking write: refused when full, otherwise appended at the tail. */
    method TryWrite(x: T) returns (ok: bool)
      requires Valid()
      modifies this
      ensures Valid()
      ensures Offered(ok, items) == Offer(old(items), capacity, x)
    {
      var r := Offer(items, capacity, x);
      ok, items := r.accepted, r.items;
    }

    /** The reader side: removes and returns the oldest item, if any. */
    method TryRead() returns (item: Option<T>)
      requires Valid()
      modifies this
      ensures Valid()
      ensures Taken(item, items) == Take(old(items))
    {
      var r := Take(items);
      item, items := r.item, r.items;
    }
  }
}
