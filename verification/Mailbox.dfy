/** Bounded first-in first-out links whose messages become readable on a receiver edge. */
module Mailboxes {
  import opened Errors
  import opened Time

  datatype Envelope<T> = Envelope(published: nat, eligible: nat, value: T)

  /** The values of a queue, oldest first. */
  function Values<T>(entries: seq<Envelope<T>>): (values: seq<T>)
    ensures |values| == |entries|
  {
    seq(|entries|, i requires 0 <= i < |entries| => entries[i].value)
  }

  datatype Link = Link(capacity: nat, receiver: Clock, latency: nat) {
    predicate Valid() { 0 < capacity && receiver.Valid() && 0 < latency }

    function Publish<T>(entries: seq<Envelope<T>>, now: nat, value: T): Result<seq<Envelope<T>>>
      requires Valid()
    {
      var _ :- Require(|entries| != capacity, ErrorCode.Capacity);
      var eligible :- receiver.After(now, latency);
      var _ :- Require(entries == [] || entries[|entries| - 1].published <= now, Protocol);
      Ok(entries + [Envelope(now, eligible, value)])
    }

    /** Publications are in order and every arrival is the one its publication fixes. */
    ghost predicate Ordered<T>(entries: seq<Envelope<T>>)
      requires Valid()
    {
      && |entries| <= capacity
      && (forall i | 0 <= i < |entries| ::
            receiver.After(entries[i].published, latency) == Ok(entries[i].eligible))
      && (forall i, j | 0 <= i < j < |entries| :: entries[i].published <= entries[j].published)
    }

    /** Nothing overtakes: a message becomes readable no earlier than every message before it. */
    lemma ArrivalsInOrder<T>(entries: seq<Envelope<T>>, i: nat, j: nat)
      requires Valid() && Ordered(entries) && i <= j < |entries|
      ensures entries[i].eligible <= entries[j].eligible
      ensures entries[j].published < entries[j].eligible && receiver.Edge(entries[j].eligible)
      ensures EdgesBetween(receiver, entries[j].published, entries[j].eligible) == latency
    {
      AfterMonotone(receiver, entries[i].published, entries[j].published, latency);
      AfterIsLatencyThEdge(receiver, entries[j].published, latency);
    }
  }

  function Readable<T>(entries: seq<Envelope<T>>, now: nat): bool {
    entries != [] && entries[0].eligible <= now
  }

  /** Only the tick range can refuse an arrival. */
  lemma AfterErrors(link: Link, now: nat)
    requires link.Valid()
    ensures link.receiver.After(now, link.latency).Err? ==> link.receiver.After(now, link.latency).error == TimeOverflow
  {
    AfterIsNth(link.receiver, now, link.latency);
  }

  class Mailbox<T(0)> {
    const link: Link
    var entries: seq<Envelope<T>>
    ghost var sent: seq<T>
    ghost var received: seq<T>

    /** What was sent is what was received followed by what is still on the way. */
    ghost predicate Valid()
      reads this
    {
      && link.Valid()
      && link.Ordered(entries)
      && sent == received + Values(entries)
    }

    constructor (link: Link)
      requires link.Valid()
      ensures Valid() && this.link == link && entries == [] && sent == received == []
    {
      this.link := link;
      entries, sent, received := [], [], [];
    }

    predicate Full() reads this { |entries| == link.capacity }

    method Publish(now: nat, value: T) returns (outcome: Result<()>)
      requires Valid()
      modifies this
      ensures Valid() && received == old(received)
      ensures outcome.Ok? ==> sent == old(sent) + [value] && !old(Full())
      ensures outcome.Err? ==> sent == old(sent) && entries == old(entries)
      ensures
        var next := link.Publish(old(entries), now, value);
        (next.Ok? <==> outcome.Ok?)
        && (if next.Ok? then entries == next.value else outcome == Err(next.error))
    {
      if |entries| == link.capacity {
        return Err(ErrorCode.Capacity);
      }
      var eligible :- link.receiver.After(now, link.latency);
      if entries != [] && now < entries[|entries| - 1].published {
        return Err(Protocol);
      }
      var was := entries;
      entries := entries + [Envelope(now, eligible, value)];
      sent := sent + [value];
      assert Values(entries) == Values(was) + [value];
      return Ok(());
    }

    method Take(now: nat) returns (message: Option<Envelope<T>>)
      requires Valid()
      modifies this
      ensures Valid() && sent == old(sent)
      ensures message.Some? <==> old(Readable(entries, now))
      ensures message.None? ==> entries == old(entries) && received == old(received)
      ensures message.Some? ==>
                && message.value == old(entries)[0] && entries == old(entries)[1..]
                && received == old(received) + [message.value.value]
    {
      if entries == [] || now < entries[0].eligible {
        return None;
      }
      message := Some(entries[0]);
      assert Values(entries) == [entries[0].value] + Values(entries[1..]);
      received := received + [entries[0].value];
      entries := entries[1..];
    }

    method Reset()
      requires Valid()
      modifies this
      ensures Valid() && entries == [] && sent == received == []
    {
      entries, sent, received := [], [], [];
    }
  }
}
