/**
 The pending-sample buffer of the odometry subscriber and its handoff to a
 consumer. The producer side appends one sample at a time; the consumer side
 takes every pending sample at once. The buffer's mutex makes each operation
 atomic with respect to the other, so each is one pure transition here, and
 the buffer is generic in its element type: nothing in the protocol looks
 inside a sample.

 Any interleaving of the transport's callback thread with the consumer's
 processing loop is, in lock-acquisition order, a sequence of `Deliver` and
 `Parse` events. Over every such sequence the samples are conserved: the
 consumer's queue followed by the pending buffer is what they held at the
 start followed by every delivered message's sample in delivery order. So no
 sample is lost, none is handed over twice, and arrival order is kept.
 */
module SampleBuffer {

  /** The pending buffer and the consumer's queue. */
  datatype Node<T> = Node(pending: seq<T>, consumer: seq<T>)

  /** Producer side: the sample joins the tail of the pending buffer and
      every earlier pending sample keeps its place. */
  function Append<T>(pending: seq<T>, sample: T): (r: seq<T>)
    ensures |r| == |pending| + 1
    ensures r[..|pending|] == pending
    ensures r[|pending|] == sample
  {
    pending + [sample]
  }

  /** Consumer side: when anything is pending, every pending sample moves, in
      arrival order, to the tail of the target and the buffer is cleared;
      otherwise nothing happens. Either way the target gains exactly the
      pending samples and nothing stays pending. */
  function Drain<T>(pending: seq<T>, target: seq<T>): (r: Node<T>)
    ensures r.consumer == target + pending
    ensures r.pending == []
    ensures |pending| == 0 ==> r == Node(pending, target)
  {
    if |pending| > 0 then
      Node([], target + pending)
    else
      Node(pending, target)
  }

  /** A second drain right after a first hands over nothing, so no sample
      reaches the consumer twice. */
  lemma DrainTwiceAddsNothing<T>(pending: seq<T>, target: seq<T>)
    ensures Drain(Drain(pending, target).pending, Drain(pending, target).consumer) == Drain(pending, target)
  {
  }

  /** Three appends to an empty buffer, then a drain into an empty queue, give
      the queue the three samples in arrival order; a second drain changes
      nothing. */
  lemma AppendThreeThenDrainTwice<T>(a: T, b: T, c: T)
    ensures Drain(Append(Append(Append([], a), b), c), []).consumer == [a, b, c]
    ensures Drain(Append(Append(Append([], a), b), c), []).pending == []
    ensures var d := Drain(Append(Append(Append([], a), b), c), []); Drain(d.pending, d.consumer) == d
  {
  }

  datatype Event<M> = Deliver(msg: M) | Parse

  /** Every sample of `n`, handed over or not, in order. */
  function Samples<T>(n: Node<T>): seq<T>
  {
    n.consumer + n.pending
  }

  /** The sample an event adds: one for a delivery, none for a parse. */
  function Arrival<M, T>(e: Event<M>, convert: M -> T): seq<T>
  {
    if e.Deliver? then [convert(e.msg)] else []
  }

  /** The samples the deliveries of `events` turn into, in delivery order. */
  function Arrivals<M, T>(events: seq<Event<M>>, convert: M -> T): seq<T>
  {
    if |events| == 0 then
      []
    else
      Arrivals(events[..|events| - 1], convert) + Arrival(events[|events| - 1], convert)
  }

  /** One atomic operation: a delivery converts its message and appends the
      sample; a parse drains the buffer into the consumer's queue. A delivery
      leaves the consumer's queue alone; a parse leaves nothing pending; and
      either way the node's samples, in order, gain exactly the event's
      arrival. */
  function Step<M, T>(n: Node<T>, e: Event<M>, convert: M -> T): (r: Node<T>)
    ensures Samples(r) == Samples(n) + Arrival(e, convert)
    ensures e.Deliver? ==> r.consumer == n.consumer
    ensures e.Parse? ==> r.pending == [] && r.consumer == Samples(n)
  {
    match e
    case Deliver(msg) =>
      assert n.consumer + (n.pending + [convert(msg)]) == Samples(n) + [convert(msg)];
      Node(Append(n.pending, convert(msg)), n.consumer)
    case Parse =>
      Drain(n.pending, n.consumer)
  }

  /** The node after the events, applied first to last. */
  function Run<M, T>(n: Node<T>, events: seq<Event<M>>, convert: M -> T): Node<T>
  {
    if |events| == 0 then
      n
    else
      Step(Run(n, events[..|events| - 1], convert), events[|events| - 1], convert)
  }

  /** No loss, no duplication, order kept: after any run, the consumer's
      queue followed by the pending buffer is the starting content followed by
      every delivered sample in delivery order. */
  lemma {:induction false} RunConservesSamples<M, T>(n: Node<T>, events: seq<Event<M>>, convert: M -> T)
    ensures Samples(Run(n, events, convert)) == Samples(n) + Arrivals(events, convert)
  {
    if |events| > 0 {
      var prefix := events[..|events| - 1];
      RunConservesSamples(n, prefix, convert);
      var added := Arrival(events[|events| - 1], convert);
      assert Samples(n) + Arrivals(prefix, convert) + added == Samples(n) + (Arrivals(prefix, convert) + added);
    }
  }

  /** Nothing the consumer has been handed is ever taken back or reordered:
      its queue before a run is a prefix of its queue after it. */
  lemma {:induction false} RunConsumerOnlyGrows<M, T>(n: Node<T>, events: seq<Event<M>>, convert: M -> T)
    ensures n.consumer <= Run(n, events, convert).consumer
  {
    if |events| > 0 {
      var prefix := events[..|events| - 1];
      RunConsumerOnlyGrows(n, prefix, convert);
      assert Run(n, prefix, convert).consumer <= Run(n, events, convert).consumer;
    }
  }

  /** A run that ends with a parse has handed every delivered sample to the
      consumer, in delivery order, and has nothing pending. */
  lemma {:induction false} RunEndingInParseDeliversAll<M, T>(n: Node<T>, events: seq<Event<M>>, convert: M -> T)
    requires |events| > 0 && events[|events| - 1].Parse?
    ensures Run(n, events, convert).pending == []
    ensures Run(n, events, convert).consumer == Samples(n) + Arrivals(events, convert)
  {
    RunConservesSamples(n, events, convert);
  }

  /** Counting form of conservation: each sample occurs as often among the
      consumer's queue and the pending buffer as it was started with or
      delivered. */
  lemma {:induction false} RunPreservesMultiplicity<M, T>(n: Node<T>, events: seq<Event<M>>, convert: M -> T)
    ensures multiset(Run(n, events, convert).consumer) + multiset(Run(n, events, convert).pending)
         == multiset(Samples(n)) + multiset(Arrivals(events, convert))
  {
    var r := Run(n, events, convert);
    RunConservesSamples(n, events, convert);
    assert multiset(r.consumer + r.pending) == multiset(Samples(n) + Arrivals(events, convert));
  }
}
