/** Whole runs of the booking protocol: who is matched with whom, when, and in how much storage. */
module SyncRuns {
  import opened Errors
  import opened Time
  import opened Sync
  import opened SyncOrder
  import opened SyncPair

  type Connection = (CoreId, CoreId)

  /**
   * The system with its history: the last edge each controller processed, and for every direction
   * the edges at which the controller booked its neighbor and completed those bookings.
   */
  datatype Run = Run(sys: System, last: map<CoreId, nat>, booked: map<Connection, seq<nat>>, done: map<Connection, seq<nat>>)

  function StepPhase(r: Run, core: CoreId, now: nat): Run
    requires Shaped(r) && core in r.last
  {
    var pending := r.sys.pending[core];
    var step := StepUnit(r.sys.links, core, pending, now);
    r.(sys := System(step.links, r.sys.pending[core := step.pending]),
       last := r.last[core := now],
       done := if step.completed then
         var key := (core, pending.value.target);
         r.done[key := r.done[key] + [now]]
       else r.done)
  }

  function BookPhase(clock: Clock, r: Run, core: CoreId, targets: seq<CoreId>, now: nat): Result<Run>
    requires clock.Valid() && Shaped(r) && core in r.last
  {
    var b :- Book(clock, r.sys.links, core, r.sys.pending[core], targets, now);
    Ok(r.(sys := System(b.links, r.sys.pending[core := b.pending]),
          booked := if targets == [] then r.booked
          else
            var key := (core, targets[0]);
            r.booked[key := r.booked[key] + [now]]))
  }

  /** What the controller books at `now`: nothing while its unit pauses the timer. */
  function Targets(r: Run, core: CoreId, want: seq<CoreId>, now: nat): seq<CoreId>
    requires Shaped(r) && core in r.last
  {
    if StepUnit(r.sys.links, core, r.sys.pending[core], now).paused then [] else want
  }

  /** One controller's next edge. */
  function Act(clock: Clock, r: Run, core: CoreId, want: seq<CoreId>): Result<Run>
    requires clock.Valid() && Shaped(r) && core in r.last
  {
    var now := r.last[core] + clock.period;
    StepPhaseKeepsShape(r, core, now);
    BookPhase(clock, StepPhase(r, core, now), core, Targets(r, core, want, now), now)
  }

  ghost predicate Shaped(r: Run) {
    && r.sys.Valid()
    && (forall x :: x in r.last <==> x in r.sys.pending)
    && (forall a, b | (a, b) in r.sys.links :: a in r.last && (a, b) in r.booked && (a, b) in r.done)
  }

  /** An action is the controller's edge of the system, with its history recorded. */
  lemma ActIsCoreEdge(clock: Clock, r: Run, core: CoreId, want: seq<CoreId>)
    requires clock.Valid() && Shaped(r) && core in r.last
    ensures
      var edge := CoreEdge(clock, r.sys, core, map[core := want], r.last[core] + clock.period);
      var acted := Act(clock, r, core, want);
      if edge.Ok? then acted.Ok? && acted.value.sys == edge.value else acted == Err(edge.error)
  {
    var now := r.last[core] + clock.period;
    var step := StepUnit(r.sys.links, core, r.sys.pending[core], now);
    var b := Book(clock, step.links, core, step.pending, Targets(r, core, want, now), now);
    if b.Ok? {
      assert r.sys.pending[core := step.pending][core := b.value.pending] == r.sys.pending[core := b.value.pending];
    }
  }

  // ---- The invariant of a run ----

  function SideOf(r: Run, a: CoreId, b: CoreId): Side
    requires Shaped(r) && (a, b) in r.sys.links
  {
    var link, pending := r.sys.links[(a, b)], r.sys.pending[a];
    Side(r.booked[(a, b)], r.done[(a, b)], link.delay, link.signals,
         if pending.Some? && pending.value.target == b then Some(Open(pending.value.deadline, pending.value.received))
         else None,
         r.last[a])
  }

  ghost predicate SidesOk(clock: Clock, me: Side, peer: Side)
    requires clock.Valid()
  {
    && OnEdges(clock, me) && OnEdges(clock, peer) && PairOk(clock.period, me, peer)
    && me.last <= peer.last + clock.period && peer.last <= me.last + clock.period
  }

  /** The invariant of one connection, between two controllers at most one edge apart. */
  ghost predicate ConnectionOk(clock: Clock, r: Run, a: CoreId, b: CoreId)
    requires clock.Valid() && Shaped(r)
  {
    && (a, b) in r.sys.links && (b, a) in r.sys.links
    && SidesOk(clock, SideOf(r, a, b), SideOf(r, b, a))
  }

  lemma ConnectionsAreMutual(clock: Clock, r: Run, a: CoreId, b: CoreId)
    requires clock.Valid() && Shaped(r) && ConnectionOk(clock, r, a, b)
    ensures ConnectionOk(clock, r, b, a)
  {
    hide Shaped, OnEdges, SideOk;
  }

  lemma StepPhaseKeepsShape(r: Run, core: CoreId, now: nat)
    requires Shaped(r) && core in r.last
    ensures Shaped(StepPhase(r, core, now))
    ensures
      var r' := StepPhase(r, core, now);
      && r'.last == r.last[core := now]
      && forall k :: k in r'.sys.links ==> k in r.sys.links && r'.sys.links[k].capacity == r.sys.links[k].capacity
  {
    var r' := StepPhase(r, core, now);
    assert r'.sys.Valid() by {
      assert forall k | k in r'.sys.links :: k in r.sys.links && r'.sys.links[k].delay == r.sys.links[k].delay;
    }
  }

  lemma StepPhaseOnSides(r: Run, core: CoreId, now: nat, b: CoreId)
    requires Shaped(r) && core in r.last && (core, b) in r.sys.links && Shaped(StepPhase(r, core, now))
    ensures
      var r' := StepPhase(r, core, now);
      && (core, b) in r'.sys.links && (b, core) in r'.sys.links
      && SideOf(r', core, b) == SideStep(SideOf(r, core, b), SideOf(r, b, core), now)
      && SideOf(r', b, core) == Heard(SideOf(r, core, b), SideOf(r, b, core), now)
  {
    hide StepPhase, SideOf, SideStep, Heard, Shaped;
    StepPhaseOnOwn(r, core, now, b);
    StepPhaseOnPeer(r, core, now, b);
  }

  lemma StepPhaseOnOwn(r: Run, core: CoreId, now: nat, b: CoreId)
    requires Shaped(r) && core in r.last && (core, b) in r.sys.links && Shaped(StepPhase(r, core, now))
    ensures
      var r' := StepPhase(r, core, now);
      && (core, b) in r'.sys.links && (b, core) in r.sys.links
      && SideOf(r', core, b) == SideStep(SideOf(r, core, b), SideOf(r, b, core), now)
  {
    StepUnitOnLinks(r.sys.links, core, r.sys.pending[core], now, b);
    hide Consume, FirstReady, Heard, StepUnit, Receive;
  }

  /** A unit's step changes only its partner's link towards it. */
  lemma StepUnitOnLinks(links: Links, core: CoreId, pending: Option<Booking>, now: nat, b: CoreId)
    requires (pending.Some? ==> (pending.value.target, core) in links) && (core, b) in links && (b, core) in links
    ensures
      var s := StepUnit(links, core, pending, now);
      && s.links.Keys == links.Keys
      && ((core, b) != (b, core) ==> s.links[(core, b)] == links[(core, b)])
      && (if pending.Some? && pending.value.target == b then
            var received := pending.value.received || FirstReady(links[(b, core)].signals, now) < |links[(b, core)].signals|;
            && s.links[(b, core)] == (if pending.value.received then links[(b, core)] else links[(b, core)].(signals := Consume(links[(b, core)].signals, now)))
            && s.completed == (pending.value.deadline <= now && received)
            && s.pending == (if s.completed then None else Some(pending.value.(received := received)))
          else
            && s.links[(b, core)] == links[(b, core)] && (s.pending.Some? ==> pending.Some? && s.pending.value.target == pending.value.target)
            && (s.completed ==> pending.Some?))
  {
    hide Consume, FirstReady;
  }

  lemma StepPhaseOnPeer(r: Run, core: CoreId, now: nat, b: CoreId)
    requires Shaped(r) && core in r.last && (core, b) in r.sys.links && Shaped(StepPhase(r, core, now))
    ensures
      var r' := StepPhase(r, core, now);
      && (b, core) in r.sys.links && (b, core) in r'.sys.links
      && SideOf(r', b, core) == Heard(SideOf(r, core, b), SideOf(r, b, core), now)
  {
    StepUnitOnLinks(r.sys.links, core, r.sys.pending[core], now, b);
    hide Consume, FirstReady, SideStep, StepUnit, Receive;
  }

  lemma StepPhaseElsewhere(r: Run, core: CoreId, now: nat, a: CoreId, b: CoreId)
    requires Shaped(r) && core in r.last && (a, b) in r.sys.links && Shaped(StepPhase(r, core, now))
    requires a != core && b != core
    ensures (a, b) in StepPhase(r, core, now).sys.links && SideOf(StepPhase(r, core, now), a, b) == SideOf(r, a, b)
  {
  }

  /** A controller that is no further ahead than its peer takes its next edge. */
  lemma SideStepKeepsPair(clock: Clock, me: Side, peer: Side, now: nat)
    requires clock.Valid() && SidesOk(clock, me, peer) && now == me.last + clock.period && me.last <= peer.last
    ensures SidesOk(clock, SideStep(me, peer, now), Heard(me, peer, now))
    ensures SideStep(me, peer, now).last == now && Heard(me, peer, now).last == peer.last
  {
    StepsOnEdges(clock, me, peer, now);
    TicksAreEdges(clock, me, peer, now);
    hide OpenOk, DoneOk, SignalsOk, Alternates, TicksReached, OnEdges, SideStep, Heard, SideOk;
    StepKeepsSide(clock.period, me, peer, now);
    StepKeepsPeer(clock.period, me, peer, now);
  }

  lemma StepsOnEdges(clock: Clock, me: Side, peer: Side, now: nat)
    requires clock.Valid() && OnEdges(clock, me) && OnEdges(clock, peer) && now == me.last + clock.period
    ensures
      var me', peer' := SideStep(me, peer, now), Heard(me, peer, now);
      && OnEdges(clock, me') && OnEdges(clock, peer') && me'.last == now && peer'.last == peer.last
  {
    NextEdge(clock, me.last);
    hide FirstReady, Consume;
  }

  /** `core` is one of the controllers that are furthest behind. */
  ghost predicate Behind(r: Run, core: CoreId) {
    core in r.last && forall y | y in r.last :: r.last[core] <= r.last[y]
  }

  lemma StepPhaseKeepsOwn(clock: Clock, r: Run, core: CoreId, b: CoreId)
    requires clock.Valid() && Shaped(r) && core in r.last && Behind(r, core) && ConnectionOk(clock, r, core, b)
    requires Shaped(StepPhase(r, core, r.last[core] + clock.period))
    ensures
      var r' := StepPhase(r, core, r.last[core] + clock.period);
      ConnectionOk(clock, r', core, b)
  {
    hide StepPhase, SideStep, Heard, SidesOk, Shaped, SideOf, Behind;
    var now := r.last[core] + clock.period;
    StepPhaseOnSides(r, core, now, b);
    SidesLast(r, core, b);
    SideStepKeepsPair(clock, SideOf(r, core, b), SideOf(r, b, core), now);
  }

  lemma SidesLast(r: Run, core: CoreId, b: CoreId)
    requires Shaped(r) && Behind(r, core) && (core, b) in r.sys.links && (b, core) in r.sys.links
    ensures SideOf(r, core, b).last == r.last[core] <= SideOf(r, b, core).last
  {
  }

  lemma SameSides(clock: Clock, r: Run, r': Run, a: CoreId, b: CoreId)
    requires clock.Valid() && Shaped(r) && Shaped(r') && ConnectionOk(clock, r, a, b)
    requires (a, b) in r'.sys.links && SideOf(r', a, b) == SideOf(r, a, b)
    requires (b, a) in r'.sys.links && SideOf(r', b, a) == SideOf(r, b, a)
    ensures ConnectionOk(clock, r', a, b)
  {
    hide Shaped, SideOf, SidesOk;
  }

  lemma StepPhaseKeepsOthers(clock: Clock, r: Run, core: CoreId, a: CoreId, b: CoreId)
    requires clock.Valid() && Shaped(r) && core in r.last && ConnectionOk(clock, r, a, b)
    requires Shaped(StepPhase(r, core, r.last[core] + clock.period)) && a != core && b != core
    ensures ConnectionOk(clock, StepPhase(r, core, r.last[core] + clock.period), a, b)
  {
    hide Shaped, StepPhase, SideOf, SidesOk;
    StepPhaseElsewhere(r, core, r.last[core] + clock.period, a, b);
    StepPhaseElsewhere(r, core, r.last[core] + clock.period, b, a);
    SameSides(clock, r, StepPhase(r, core, r.last[core] + clock.period), a, b);
  }

  lemma StepPhaseKeepsConnection(clock: Clock, r: Run, core: CoreId, a: CoreId, b: CoreId)
    requires clock.Valid() && Shaped(r) && Behind(r, core) && ConnectionOk(clock, r, a, b)
    requires Shaped(StepPhase(r, core, r.last[core] + clock.period))
    ensures ConnectionOk(clock, StepPhase(r, core, r.last[core] + clock.period), a, b)
  {
    assert core in r.last;
    hide *;
    if a == core {
      StepPhaseKeepsOwn(clock, r, core, b);
    } else if b == core {
      ConnectionsAreMutual(clock, r, a, b);
      StepPhaseKeepsOwn(clock, r, core, a);
      ConnectionsAreMutual(clock, StepPhase(r, core, r.last[core] + clock.period), core, a);
    } else {
      StepPhaseKeepsOthers(clock, r, core, a, b);
    }
  }

  // ---- Booking ----

  lemma BookPhaseKeepsShape(clock: Clock, r: Run, core: CoreId, targets: seq<CoreId>, now: nat)
    requires clock.Valid() && Shaped(r) && core in r.last && BookPhase(clock, r, core, targets, now).Ok?
    ensures Shaped(BookPhase(clock, r, core, targets, now).value)
    ensures
      var r' := BookPhase(clock, r, core, targets, now).value;
      && r'.last == r.last
      && forall k :: k in r'.sys.links ==> k in r.sys.links && r'.sys.links[k].capacity == r.sys.links[k].capacity
  {
    hide Live, CheckedAdd;
    var r' := BookPhase(clock, r, core, targets, now).value;
    assert forall k | k in r'.sys.links :: k in r.sys.links && r'.sys.links[k].delay == r.sys.links[k].delay;
    assert r'.sys.Valid();
    assert targets != [] ==> (core, targets[0]) in r.booked;
  }

  lemma BookPhaseOnSides(clock: Clock, r: Run, core: CoreId, t: CoreId, now: nat)
    requires clock.Valid() && Shaped(r) && core in r.last && r.last[core] == now
    requires BookPhase(clock, r, core, [t], now).Ok? && Shaped(BookPhase(clock, r, core, [t], now).value)
    ensures
      var r' := BookPhase(clock, r, core, [t], now).value;
      && (core, t) in r.sys.links && (core, t) in r'.sys.links && r.sys.pending[core].None?
      && SideOf(r', core, t) == BookedAt(SideOf(r, core, t), now)
  {
    hide Live, CheckedAdd, Clock.After;
  }

  lemma BookPhaseElsewhere(clock: Clock, r: Run, core: CoreId, t: CoreId, now: nat, a: CoreId, b: CoreId)
    requires clock.Valid() && Shaped(r) && core in r.last && (a, b) in r.sys.links && (a, b) != (core, t)
    requires BookPhase(clock, r, core, [t], now).Ok? && Shaped(BookPhase(clock, r, core, [t], now).value)
    ensures
      var r' := BookPhase(clock, r, core, [t], now).value;
      (a, b) in r'.sys.links && SideOf(r', a, b) == SideOf(r, a, b)
  {
    hide Live, CheckedAdd, Clock.Edge;
  }

  lemma BookKeepsSides(clock: Clock, me: Side, peer: Side)
    requires clock.Valid() && SidesOk(clock, me, peer) && me.open.None? && peer.last <= me.last
    ensures SidesOk(clock, BookedAt(me, me.last), peer)
  {
    hide OpenOk, DoneOk, SignalsOk, Alternates, Live;
    BookKeepsSide(clock.period, me, peer, me.last);
    BookKeepsPeer(clock.period, me, peer, me.last);
  }

  lemma BookPhaseKeepsOwn(clock: Clock, r: Run, core: CoreId, t: CoreId, b: CoreId)
    requires clock.Valid() && Shaped(r) && core in r.last && ConnectionOk(clock, r, core, b)
    requires SideOf(r, b, core).last <= SideOf(r, core, b).last == r.last[core]
    requires BookPhase(clock, r, core, [t], r.last[core]).Ok?
    requires Shaped(BookPhase(clock, r, core, [t], r.last[core]).value)
    ensures ConnectionOk(clock, BookPhase(clock, r, core, [t], r.last[core]).value, core, b)
  {
    var now, r' := r.last[core], BookPhase(clock, r, core, [t], r.last[core]).value;
    assert core != b;
    BookPhaseElsewhere(clock, r, core, t, now, b, core);
    BookPhaseOnSides(clock, r, core, t, now);
    if b == t {
      assert SideOf(r, core, b).open.None?;
      hide Shaped, BookPhase, SideOf, SidesOk, BookedAt;
      BookKeepsSides(clock, SideOf(r, core, b), SideOf(r, b, core));
    } else {
      hide *;
      BookPhaseElsewhere(clock, r, core, t, now, core, b);
      SameSides(clock, r, r', core, b);
    }
  }

  lemma BookPhaseKeepsOthers(clock: Clock, r: Run, core: CoreId, t: CoreId, a: CoreId, b: CoreId)
    requires clock.Valid() && Shaped(r) && core in r.last && ConnectionOk(clock, r, a, b)
    requires a != core && b != core
    requires BookPhase(clock, r, core, [t], r.last[core]).Ok?
    requires Shaped(BookPhase(clock, r, core, [t], r.last[core]).value)
    ensures ConnectionOk(clock, BookPhase(clock, r, core, [t], r.last[core]).value, a, b)
  {
    hide Shaped, BookPhase, SideOf, SidesOk;
    BookPhaseElsewhere(clock, r, core, t, r.last[core], a, b);
    BookPhaseElsewhere(clock, r, core, t, r.last[core], b, a);
    SameSides(clock, r, BookPhase(clock, r, core, [t], r.last[core]).value, a, b);
  }

  /** `core` has just stepped, so no controller is ahead of it. */
  ghost predicate Ahead(r: Run, core: CoreId) {
    core in r.last && forall y | y in r.last :: r.last[y] <= r.last[core]
  }

  lemma AheadOfPeer(clock: Clock, r: Run, core: CoreId, b: CoreId)
    requires clock.Valid() && Shaped(r) && Ahead(r, core) && ConnectionOk(clock, r, core, b)
    ensures SideOf(r, b, core).last <= SideOf(r, core, b).last == r.last[core]
  {
    hide SidesOk;
  }

  lemma BookPhaseKeepsConnection(clock: Clock, r: Run, core: CoreId, targets: seq<CoreId>, a: CoreId, b: CoreId)
    requires clock.Valid() && Shaped(r) && Ahead(r, core) && ConnectionOk(clock, r, a, b)
    requires BookPhase(clock, r, core, targets, r.last[core]).Ok?
    requires Shaped(BookPhase(clock, r, core, targets, r.last[core]).value)
    ensures ConnectionOk(clock, BookPhase(clock, r, core, targets, r.last[core]).value, a, b)
  {
    assert core in r.last;
    if targets == [] {
      assert BookPhase(clock, r, core, targets, r.last[core]).value.sys.pending == r.sys.pending;
    } else {
      assert targets == [targets[0]];
      hide *;
      if a == core {
        AheadOfPeer(clock, r, core, b);
        BookPhaseKeepsOwn(clock, r, core, targets[0], b);
      } else if b == core {
        ConnectionsAreMutual(clock, r, a, b);
        AheadOfPeer(clock, r, core, a);
        BookPhaseKeepsOwn(clock, r, core, targets[0], a);
        ConnectionsAreMutual(clock, BookPhase(clock, r, core, targets, r.last[core]).value, core, a);
      } else {
        BookPhaseKeepsOthers(clock, r, core, targets[0], a, b);
      }
    }
  }

  // ---- Whole actions ----

  lemma ActKeepsShape(clock: Clock, r: Run, core: CoreId, want: seq<CoreId>)
    requires clock.Valid() && Shaped(r) && core in r.last && Act(clock, r, core, want).Ok?
    ensures Shaped(Act(clock, r, core, want).value)
    ensures
      var r' := Act(clock, r, core, want).value;
      forall k :: k in r'.sys.links ==> k in r.sys.links && r'.sys.links[k].capacity == r.sys.links[k].capacity
  {
    var now := r.last[core] + clock.period;
    StepPhaseKeepsShape(r, core, now);
    BookPhaseKeepsShape(clock, StepPhase(r, core, now), core, Targets(r, core, want, now), now);
    hide Shaped, StepPhase, BookPhase, Targets;
  }

  /** The neighbors of a controller that has stepped are not ahead of it, nor more than one edge behind. */
  lemma SteppingGetsAhead(clock: Clock, r: Run, core: CoreId)
    requires clock.Valid() && Shaped(r) && Behind(r, core)
    requires forall y | y in r.last :: r.last[y] <= r.last[core] + clock.period
    ensures Ahead(StepPhase(r, core, r.last[core] + clock.period), core)
  {
    hide Shaped;
  }

  /** Every two controllers are at most one edge apart. */
  ghost predicate InStep(clock: Clock, r: Run) {
    forall x, y | x in r.last && y in r.last :: r.last[x] <= r.last[y] + clock.period
  }

  lemma ActKeepsConnection(clock: Clock, r: Run, core: CoreId, want: seq<CoreId>, a: CoreId, b: CoreId)
    requires clock.Valid() && Shaped(r) && Behind(r, core) && InStep(clock, r) && ConnectionOk(clock, r, a, b)
    requires Act(clock, r, core, want).Ok? && Shaped(Act(clock, r, core, want).value)
    ensures ConnectionOk(clock, Act(clock, r, core, want).value, a, b)
  {
    hide Shaped, Ahead, ConnectionOk, Targets, StepPhase, BookPhase;
    var now := r.last[core] + clock.period;
    assert forall y | y in r.last :: r.last[y] <= r.last[core] + clock.period;
    SteppingGetsAhead(clock, r, core);
    StepPhaseKeepsShape(r, core, now);
    StepPhaseKeepsConnection(clock, r, core, a, b);
    BookPhaseKeepsConnection(clock, StepPhase(r, core, now), core, Targets(r, core, want, now), a, b);
  }

  lemma ActKeepsInStep(clock: Clock, r: Run, core: CoreId, want: seq<CoreId>)
    requires clock.Valid() && Shaped(r) && Behind(r, core) && InStep(clock, r) && Act(clock, r, core, want).Ok?
    ensures InStep(clock, Act(clock, r, core, want).value)
  {
    var now := r.last[core] + clock.period;
    StepPhaseKeepsShape(r, core, now);
    BookPhaseKeepsShape(clock, StepPhase(r, core, now), core, Targets(r, core, want, now), now);
    hide Shaped, StepPhase, BookPhase, Targets;
  }

  // ---- Whole runs ----

  /** A schedule: which controller takes its next edge, and what it wants to book there. */
  function RunAll(clock: Clock, r: Run, schedule: seq<(CoreId, seq<CoreId>)>): (result: Result<Run>)
    requires clock.Valid() && Shaped(r)
    ensures result.Ok? ==> Shaped(result.value)
    decreases |schedule|
  {
    if schedule == [] then Ok(r)
    else
      var (core, want) := schedule[0];
      if core !in r.last || exists y :: y in r.last && r.last[y] < r.last[core] then Err(Protocol)
      else
        var next :- Act(clock, r, core, want);
        assert Shaped(next) by { ActKeepsShape(clock, r, core, want); }
        RunAll(clock, next, schedule[1..])
  }

  /** A reset network: every unit idle, every link empty, every controller at the same edge. */
  ghost predicate Initial(clock: Clock, r: Run, edge: nat)
    requires clock.Valid()
  {
    && Shaped(r) && clock.Edge(edge)
    && (forall x | x in r.last :: r.last[x] == edge && r.sys.pending[x] == None)
    && (forall a, b | (a, b) in r.sys.links ::
          && r.sys.links[(a, b)].signals == [] && r.booked[(a, b)] == [] && r.done[(a, b)] == []
          && clock.period <= r.sys.links[(a, b)].delay && r.sys.links[(a, b)].delay % clock.period == 0)
  }

  lemma InitialIsOk(clock: Clock, start: Run, edge: nat, a: CoreId, b: CoreId)
    requires clock.Valid() && Initial(clock, start, edge) && (a, b) in start.sys.links
    ensures ConnectionOk(clock, start, a, b)
  {
  }

  lemma {:induction false} RunsKeepConnection(clock: Clock, r: Run, schedule: seq<(CoreId, seq<CoreId>)>, a: CoreId, b: CoreId)
    requires clock.Valid() && Shaped(r) && InStep(clock, r) && ConnectionOk(clock, r, a, b)
    requires RunAll(clock, r, schedule).Ok?
    ensures ConnectionOk(clock, RunAll(clock, r, schedule).value, a, b)
    decreases |schedule|
  {
    if schedule != [] {
      var (core, want) := schedule[0];
      assert Behind(r, core);
      var next := Act(clock, r, core, want).value;
      ActKeepsShape(clock, r, core, want);
      hide Shaped, InStep, Behind, ConnectionOk, Act;
      ActKeepsConnection(clock, r, core, want, a, b);
      ActKeepsInStep(clock, r, core, want);
      RunsKeepConnection(clock, next, schedule[1..], a, b);
    }
  }

  lemma {:induction false} RunsKeepLinks(clock: Clock, r: Run, schedule: seq<(CoreId, seq<CoreId>)>, key: Connection)
    requires clock.Valid() && Shaped(r) && RunAll(clock, r, schedule).Ok?
    requires key in RunAll(clock, r, schedule).value.sys.links
    ensures key in r.sys.links
    decreases |schedule|
  {
    if schedule != [] {
      var (core, want) := schedule[0];
      var next := Act(clock, r, core, want).value;
      ActKeepsShape(clock, r, core, want);
      hide Shaped, Act;
      RunsKeepLinks(clock, next, schedule[1..], key);
    }
  }

  lemma ReachedConnection(clock: Clock, start: Run, edge: nat, schedule: seq<(CoreId, seq<CoreId>)>, a: CoreId, b: CoreId)
    requires clock.Valid() && Initial(clock, start, edge) && RunAll(clock, start, schedule).Ok?
    requires (a, b) in RunAll(clock, start, schedule).value.sys.links
    ensures ConnectionOk(clock, RunAll(clock, start, schedule).value, a, b)
  {
    RunsKeepLinks(clock, start, schedule, (a, b));
    InitialIsOk(clock, start, edge, a, b);
    assert InStep(clock, start);
    RunsKeepConnection(clock, start, schedule, a, b);
  }

  /**
   * In every run, whatever the order of the controllers within an edge, the k-th booking of one
   * neighbor by the other is matched with the k-th booking the other way, and both complete on the
   * same edge: the later of the two bookings' deadlines.
   */
  lemma MatchedBookingsCompleteTogether(clock: Clock, start: Run, edge: nat, schedule: seq<(CoreId, seq<CoreId>)>,
                                        a: CoreId, b: CoreId, k: nat)
    requires clock.Valid() && Initial(clock, start, edge) && RunAll(clock, start, schedule).Ok?
    requires
      var r := RunAll(clock, start, schedule).value;
      (a, b) in r.sys.links && k < |r.done[(a, b)]|
    ensures
      var r := RunAll(clock, start, schedule).value;
      && (b, a) in r.sys.links && k < |r.booked[(a, b)]| && k < |r.booked[(b, a)]|
      && r.done[(a, b)][k] == Max(r.booked[(a, b)][k] + r.sys.links[(a, b)].delay,
                                  r.booked[(b, a)][k] + r.sys.links[(b, a)].delay)
      && (k < |r.done[(b, a)]| ==> r.done[(b, a)][k] == r.done[(a, b)][k])
  {
    ReachedConnection(clock, start, edge, schedule, a, b);
    hide Initial, RunAll, OnEdges, SignalsOk, OpenOk, Alternates;
  }

  /** Once both k-th bookings are made, each side has completed its own as soon as that edge is processed. */
  lemma AnsweredBookingsComplete(clock: Clock, start: Run, edge: nat, schedule: seq<(CoreId, seq<CoreId>)>,
                                 a: CoreId, b: CoreId, k: nat)
    requires clock.Valid() && Initial(clock, start, edge) && RunAll(clock, start, schedule).Ok?
    requires
      var r := RunAll(clock, start, schedule).value;
      && (a, b) in r.sys.links && k < |r.booked[(a, b)]| && k < |r.booked[(b, a)]|
      && Max(r.booked[(a, b)][k] + r.sys.links[(a, b)].delay, r.booked[(b, a)][k] + r.sys.links[(b, a)].delay) <= r.last[a]
    ensures k < |RunAll(clock, start, schedule).value.done[(a, b)]|
  {
    hide RunAll, Shaped, SidesOk;
    assert Shaped(start);
    hide Initial;
    ReachedConnection(clock, start, edge, schedule, a, b);
    var r := RunAll(clock, start, schedule).value;
    SidesComplete(clock, SideOf(r, a, b), SideOf(r, b, a), k);
  }

  lemma SidesComplete(clock: Clock, me: Side, peer: Side, k: nat)
    requires clock.Valid() && SidesOk(clock, me, peer) && k < |me.booked| && k < |peer.booked|
    requires MatchTick(me.booked, me.delay, peer.booked, peer.delay, k) <= me.last
    ensures k < |me.done|
  {
    hide OnEdges, SignalsOk, DoneOk;
  }

  /** In every run no link stores more than two signals. */
  lemma AtMostTwoSignals(clock: Clock, start: Run, edge: nat, schedule: seq<(CoreId, seq<CoreId>)>, key: Connection)
    requires clock.Valid() && Initial(clock, start, edge) && RunAll(clock, start, schedule).Ok?
    requires key in RunAll(clock, start, schedule).value.sys.links
    ensures |RunAll(clock, start, schedule).value.sys.links[key].signals| <= 2
  {
    ReachedConnection(clock, start, edge, schedule, key.0, key.1);
    hide Initial, RunAll, OnEdges, OpenOk, DoneOk, Alternates;
  }

  // ---- Capacity ----

  ghost predicate Roomy(r: Run) {
    forall k | k in r.sys.links :: 2 <= r.sys.links[k].capacity
  }

  ghost predicate EveryConnectionOk(clock: Clock, r: Run)
    requires clock.Valid() && Shaped(r)
  {
    forall a, b | (a, b) in r.sys.links :: ConnectionOk(clock, r, a, b)
  }

  /** With room for two signals on every link, no run raises the capacity fault. */
  lemma {:induction false} CapacityTwoSuffices(clock: Clock, r: Run, schedule: seq<(CoreId, seq<CoreId>)>)
    requires clock.Valid() && Shaped(r) && InStep(clock, r) && EveryConnectionOk(clock, r) && Roomy(r)
    ensures RunAll(clock, r, schedule) != Err(Capacity)
    decreases |schedule|
  {
    if schedule != [] {
      var (core, want) := schedule[0];
      if core in r.last && Behind(r, core) {
        ActNeverOverflowsLinks(clock, r, core, want);
        var next := Act(clock, r, core, want);
        if next.Ok? {
          ActKeepsShape(clock, r, core, want);
          hide Shaped, InStep, Behind, ConnectionOk, Act;
          ActKeepsInStep(clock, r, core, want);
          ActKeepsEveryConnection(clock, r, core, want);
          CapacityTwoSuffices(clock, next.value, schedule[1..]);
        }
      }
    }
  }

  /** From a reset network: whatever the neighbors, the schedule and the number of rounds. */
  lemma NoRunExceedsCapacityTwo(clock: Clock, start: Run, edge: nat, schedule: seq<(CoreId, seq<CoreId>)>)
    requires clock.Valid() && Initial(clock, start, edge) && Roomy(start)
    ensures RunAll(clock, start, schedule) != Err(Capacity)
  {
    assert InStep(clock, start);
    forall a, b | (a, b) in start.sys.links
      ensures ConnectionOk(clock, start, a, b)
    {
      InitialIsOk(clock, start, edge, a, b);
    }
    CapacityTwoSuffices(clock, start, schedule);
  }

  lemma ActKeepsEveryConnection(clock: Clock, r: Run, core: CoreId, want: seq<CoreId>)
    requires clock.Valid() && Shaped(r) && Behind(r, core) && InStep(clock, r) && EveryConnectionOk(clock, r)
    requires Act(clock, r, core, want).Ok? && Shaped(Act(clock, r, core, want).value)
    ensures EveryConnectionOk(clock, Act(clock, r, core, want).value)
  {
    var next := Act(clock, r, core, want).value;
    ActKeepsShape(clock, r, core, want);
    hide Shaped, InStep, Behind, ConnectionOk, Act;
    forall a, b | (a, b) in next.sys.links
      ensures ConnectionOk(clock, next, a, b)
    {
      ActKeepsConnection(clock, r, core, want, a, b);
    }
  }

  lemma ActNeverOverflowsLinks(clock: Clock, r: Run, core: CoreId, want: seq<CoreId>)
    requires clock.Valid() && Shaped(r) && Behind(r, core) && InStep(clock, r) && EveryConnectionOk(clock, r) && Roomy(r)
    ensures Act(clock, r, core, want) != Err(Capacity)
  {
    hide ConnectionOk, StepPhase, BookPhase, Shaped, Targets, Ahead;
    var now := r.last[core] + clock.period;
    assert forall y | y in r.last :: r.last[y] <= r.last[core] + clock.period;
    StepPhaseKeepsShape(r, core, now);
    SteppingGetsAhead(clock, r, core);
    var stepped, targets := StepPhase(r, core, now), Targets(r, core, want, now);
    if BookPhase(clock, stepped, core, targets, now) == Err(Capacity) {
      FullLinkIsOwn(clock, stepped, core, targets, now);
      assert ConnectionOk(clock, r, core, targets[0]);
      StepPhaseKeepsConnection(clock, r, core, core, targets[0]);
      BookingHasRoom(clock, stepped, core, targets[0]);
    }
  }

  lemma FullLinkIsOwn(clock: Clock, r: Run, core: CoreId, targets: seq<CoreId>, now: nat)
    requires clock.Valid() && Shaped(r) && core in r.last && BookPhase(clock, r, core, targets, now) == Err(Capacity)
    ensures |targets| == 1 && targets == [targets[0]] && (core, targets[0]) in r.sys.links
    ensures core in r.sys.pending && r.sys.pending[core].None?
  {
    hide Live, CheckedAdd;
  }

  lemma BookingHasRoom(clock: Clock, r: Run, core: CoreId, t: CoreId)
    requires clock.Valid() && Shaped(r) && Roomy(r) && Ahead(r, core) && ConnectionOk(clock, r, core, t)
    requires core in r.sys.pending && r.sys.pending[core].None?
    ensures BookPhase(clock, r, core, [t], r.last[core]) != Err(Capacity)
  {
    AheadOfPeer(clock, r, core, t);
    var me, peer := SideOf(r, core, t), SideOf(r, t, core);
    assert me.open.None?;
    AtMostOneLive(clock.period, me, peer, r.last[core]);
    hide SidesOk, Live, CheckedAdd;
  }
}
