/** Booking-based neighbor synchronization: directional links, units, and one controller's edge. */
module Sync {
  import opened Errors
  import opened Time

  type CoreId = nat

  datatype Signal = Signal(arrival: nat, consumed: Option<nat>)
  datatype SyncLink = SyncLink(delay: nat, capacity: nat, signals: seq<Signal>)
  type Links = map<(CoreId, CoreId), SyncLink>
  datatype Booking = Booking(target: CoreId, deadline: nat, received: bool)

  predicate Expired(s: Signal, now: nat) {
    s.consumed.Some? && s.consumed.value < now
  }

  /** The signals that an erase at `now` keeps. */
  function Live(signals: seq<Signal>, now: nat): seq<Signal> {
    if signals == [] then []
    else (if Expired(signals[0], now) then [] else [signals[0]]) + Live(signals[1..], now)
  }

  predicate Ready(s: Signal, now: nat) {
    s.consumed.None? && s.arrival <= now
  }

  /** The position of the first signal that can be received at `now`. */
  function FirstReady(signals: seq<Signal>, now: nat): (i: nat)
    ensures i <= |signals|
    ensures forall j | 0 <= j < i :: !Ready(signals[j], now)
    ensures i < |signals| ==> Ready(signals[i], now)
  {
    if signals == [] || Ready(signals[0], now) then 0
    else
      var i := FirstReady(signals[1..], now);
      assert forall j | 1 <= j < i + 1 :: signals[j] == signals[1..][j - 1];
      i + 1
  }

  function Consume(signals: seq<Signal>, now: nat): (r: seq<Signal>)
    ensures |r| == |signals|
  {
    var i := FirstReady(signals, now);
    if i < |signals| then signals[i := signals[i].(consumed := Some(now))] else signals
  }

  function Delay(links: Links, source: CoreId, target: CoreId): Result<nat> {
    if (source, target) in links then Ok(links[(source, target)].delay)
    else Err(UnsupportedSynchronization)
  }

  function Preflight(clock: Clock, links: Links, source: CoreId, target: CoreId, now: nat): Result<Links>
    requires clock.Valid()
  {
    var _ :- Require((source, target) in links, UnsupportedSynchronization);
    var _ :- Require(clock.Edge(now), Protocol);
    var link := links[(source, target)];
    var live := Live(link.signals, now);
    var _ :- Require(|live| < link.capacity, Capacity);
    var _ :- CheckedAdd(now, link.delay);
    Ok(links[(source, target) := link.(signals := live)])
  }

  function Send(clock: Clock, links: Links, source: CoreId, target: CoreId, now: nat): Result<Links>
    requires clock.Valid()
  {
    var checked :- Preflight(clock, links, source, target, now);
    var link := checked[(source, target)];
    Ok(checked[(source, target) :=
         link.(signals := link.signals + [Signal(now + link.delay, None)])])
  }

  function Receive(links: Links, source: CoreId, target: CoreId, now: nat): Links
    requires (source, target) in links
  {
    var link := links[(source, target)];
    links[(source, target) := link.(signals := Consume(link.signals, now))]
  }

  predicate Arrived(links: Links, source: CoreId, target: CoreId, now: nat)
    requires (source, target) in links
  {
    FirstReady(links[(source, target)].signals, now) < |links[(source, target)].signals|
  }

  datatype UnitStep = UnitStep(links: Links, pending: Option<Booking>, paused: bool, completed: bool)

  /** One unit's transition at an edge, before its controller triggers a time point. */
  function StepUnit(links: Links, core: CoreId, pending: Option<Booking>, now: nat): UnitStep
    requires pending.Some? ==> (pending.value.target, core) in links
  {
    if pending.None? then UnitStep(links, None, false, false)
    else
      var b := pending.value;
      var links' := if b.received then links else Receive(links, b.target, core, now);
      var received := b.received || Arrived(links, b.target, core, now);
      if b.deadline <= now && received then UnitStep(links', None, false, true)
      else UnitStep(links', Some(b.(received := received)), b.deadline <= now, false)
  }

  datatype Booked = Booked(links: Links, pending: Option<Booking>)

  /** A time point's synchronization, at most one target, booked at `now`. */
  function Book(clock: Clock, links: Links, core: CoreId, pending: Option<Booking>,
                targets: seq<CoreId>, now: nat): Result<Booked>
    requires clock.Valid()
  {
    var _ :- Require(|targets| <= 1 && (targets == [] || pending.None?), UnsupportedSynchronization);
    if targets == [] then Ok(Booked(links, pending))
    else
      var sent :- Send(clock, links, core, targets[0], now);
      Ok(Booked(sent, Some(Booking(targets[0], now + links[(core, targets[0])].delay, false))))
  }

  class SyncNetwork {
    const clock: Clock
    var links: Links

    ghost predicate Valid() reads this { clock.Valid() }

    constructor (clock: Clock, links: Links)
      requires clock.Valid()
      ensures Valid() && this.clock == clock && this.links == links
    {
      this.clock := clock;
      this.links := links;
    }

    /** Checks a send and drops the signals consumed before this edge. */
    method PreflightSignal(source: CoreId, target: CoreId, now: nat) returns (outcome: Result<()>)
      requires Valid()
      modifies this
      ensures Valid()
      ensures
        var next := Preflight(clock, old(links), source, target, now);
        if next.Ok? then outcome.Ok? && links == next.value
        else outcome == Err(next.error) && links == old(links)
    {
      if (source, target) !in links {
        return Err(UnsupportedSynchronization);
      }
      if !clock.Edge(now) {
        return Err(Protocol);
      }
      var link := links[(source, target)];
      var live := Live(link.signals, now);
      if link.capacity <= |live| {
        return Err(Capacity);
      }
      var _ :- CheckedAdd(now, link.delay);
      links := links[(source, target) := link.(signals := live)];
      return Ok(());
    }

    method SendSignal(source: CoreId, target: CoreId, now: nat) returns (outcome: Result<()>)
      requires Valid()
      modifies this
      ensures Valid()
      ensures
        var next := Send(clock, old(links), source, target, now);
        if next.Ok? then outcome.Ok? && links == next.value
        else outcome == Err(next.error) && links == old(links)
    {
      var _ :- PreflightSignal(source, target, now);
      var link := links[(source, target)];
      links := links[(source, target) :=
        link.(signals := link.signals + [Signal(now + link.delay, None)])];
      return Ok(());
    }

    /** Consumes the oldest readable signal and returns its arrival. */
    method ReceiveSignal(source: CoreId, target: CoreId, now: nat) returns (arrival: Option<nat>)
      requires Valid() && (source, target) in links
      modifies this
      ensures Valid()
      ensures links == Receive(old(links), source, target, now)
      ensures arrival.Some? <==> Arrived(old(links), source, target, now)
      ensures arrival.Some? ==>
                var signals := old(links)[(source, target)].signals;
                arrival.value == signals[FirstReady(signals, now)].arrival
    {
      var link := links[(source, target)];
      var i := 0;
      while i < |link.signals|
        invariant i <= |link.signals|
        invariant links == old(links)
        invariant forall j | 0 <= j < i :: !Ready(link.signals[j], now)
      {
        var s := link.signals[i];
        if s.consumed.None? && s.arrival <= now {
          links := links[(source, target) :=
            link.(signals := link.signals[i := s.(consumed := Some(now))])];
          return Some(s.arrival);
        }
        i := i + 1;
      }
      assert links == Receive(old(links), source, target, now);
      return None;
    }

    method Reset()
      requires Valid()
      modifies this
      ensures Valid() && links.Keys == old(links).Keys
      ensures forall key | key in links :: links[key] == old(links)[key].(signals := [])
    {
      links := map key | key in links :: links[key].(signals := []);
    }
  }

  class SyncUnit {
    const core: CoreId
    const network: SyncNetwork
    var pending: Option<Booking>

    ghost predicate Valid()
      reads this, network
    {
      && network.Valid()
      && (pending.Some? ==> (pending.value.target, core) in network.links)
    }

    constructor (core: CoreId, network: SyncNetwork)
      requires network.Valid()
      ensures Valid() && this.core == core && this.network == network && pending == None
    {
      this.core, this.network, pending := core, network, None;
    }

    method BookTargets(targets: seq<CoreId>, now: nat) returns (outcome: Result<()>)
      requires Valid()
      requires forall t | t in targets && (core, t) in network.links :: (t, core) in network.links
      modifies this, network
      ensures Valid()
      ensures
        var next := Book(network.clock, old(network.links), core, old(pending), targets, now);
        if next.Ok? then outcome.Ok? && network.links == next.value.links && pending == next.value.pending
        else outcome == Err(next.error) && network.links == old(network.links) && pending == old(pending)
    {
      if 1 < |targets| || (targets != [] && pending.Some?) {
        return Err(UnsupportedSynchronization);
      }
      if targets != [] {
        var target := targets[0];
        var known :- Delay(network.links, core, target);
        var _ :- network.SendSignal(core, target, now);
        pending := Some(Booking(target, now + known, false));
      }
      return Ok(());
    }

    /** Runs before time-point triggering on each edge; true when the timer must pause. */
    method Step(now: nat) returns (paused: bool)
      requires Valid()
      modifies this, network
      ensures Valid()
      ensures
        var next := StepUnit(old(network.links), core, old(pending), now);
        network.links == next.links && pending == next.pending && paused == next.paused
    {
      paused := false;
      if pending.Some? {
        if !pending.value.received {
          var arrival := network.ReceiveSignal(pending.value.target, core, now);
          if arrival.Some? {
            pending := Some(pending.value.(received := true));
          }
        }
        if pending.value.deadline <= now && pending.value.received {
          pending := None;
        } else {
          paused := pending.value.deadline <= now;
        }
      }
    }
  }
}
