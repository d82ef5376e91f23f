/** The controllers' synchronization work at one edge gives the same result in every order. */
module SyncOrder {
  import opened Errors
  import opened Time
  import opened Sync

  datatype System = System(links: Links, pending: map<CoreId, Option<Booking>>) {
    /** Connections run both ways with positive delays, and every booking names a neighbor. */
    ghost predicate Valid() {
      && PositiveDelays(links)
      && (forall x | x in pending && pending[x].Some? :: (pending[x].value.target, x) in links)
      && (forall x, y | (x, y) in links :: (y, x) in links && x != y)
    }
  }

  ghost predicate PositiveDelays(links: Links) {
    forall k | k in links :: 0 < links[k].delay
  }

  /**
   * One controller's edge: its unit steps, then the time point that triggers, if the timer is not
   * paused, books its synchronization.
   */
  function CoreEdge(clock: Clock, s: System, core: CoreId, want: map<CoreId, seq<CoreId>>, now: nat): Result<System>
    requires clock.Valid() && core in s.pending && core in want
    requires s.pending[core].Some? ==> (s.pending[core].value.target, core) in s.links
  {
    var step := StepUnit(s.links, core, s.pending[core], now);
    var booked :- Book(clock, step.links, core, step.pending,
                       if step.paused then [] else want[core], now);
    Ok(System(booked.links, s.pending[core := booked.pending]))
  }

  // ---- The edge as a list of signal operations ----

  datatype Op = Recv(key: (CoreId, CoreId)) | Emit(key: (CoreId, CoreId))

  function Do(clock: Clock, links: Links, op: Op, now: nat): Result<Links>
    requires clock.Valid()
  {
    match op
    case Recv(key) =>
      if key in links then Ok(Receive(links, key.0, key.1, now)) else Err(UnsupportedSynchronization)
    case Emit(key) => Send(clock, links, key.0, key.1, now)
  }

  function DoAll(clock: Clock, links: Links, ops: seq<Op>, now: nat): Result<Links>
    requires clock.Valid()
  {
    if ops == [] then Ok(links)
    else
      var first :- Do(clock, links, ops[0], now);
      DoAll(clock, first, ops[1..], now)
  }

  predicate SameOutcome<T(==)>(x: Result<T>, y: Result<T>) {
    if x.Ok? then x == y else y.Err?
  }

  /** What one controller's edge does, decided before it touches a link. */
  datatype Plan = Plan(ops: seq<Op>, pending: Option<Booking>, refused: bool)

  function PlanOf(links: Links, core: CoreId, pending: Option<Booking>, want: seq<CoreId>, now: nat): Plan
    requires pending.Some? ==> (pending.value.target, core) in links
  {
    var step := StepUnit(links, core, pending, now);
    var targets := if step.paused then [] else want;
    var receives := if pending.Some? && !pending.value.received then [Recv((pending.value.target, core))] else [];
    if targets == [] then Plan(receives, step.pending, false)
    else if 1 < |targets| || step.pending.Some? then Plan([], step.pending, true)
    else
      var delay := if (core, targets[0]) in links then links[(core, targets[0])].delay else 0;
      Plan(receives + [Emit((core, targets[0]))], Some(Booking(targets[0], now + delay, false)), false)
  }

  function Follow(clock: Clock, s: System, core: CoreId, plan: Plan, now: nat): Result<System>
    requires clock.Valid()
  {
    var _ :- Require(!plan.refused, UnsupportedSynchronization);
    var links :- DoAll(clock, s.links, plan.ops, now);
    Ok(System(links, s.pending[core := plan.pending]))
  }

  lemma EdgeFollowsPlan(clock: Clock, s: System, core: CoreId, want: map<CoreId, seq<CoreId>>, now: nat)
    requires clock.Valid() && core in s.pending && core in want
    requires s.pending[core].Some? ==> (s.pending[core].value.target, core) in s.links
    ensures CoreEdge(clock, s, core, want, now)
            == Follow(clock, s, core, PlanOf(s.links, core, s.pending[core], want[core], now), now)
  {
    var plan := PlanOf(s.links, core, s.pending[core], want[core], now);
    if |plan.ops| == 2 {
      assert plan.ops == [plan.ops[0], plan.ops[1]];
      TwoOps(clock, s.links, plan.ops[0], plan.ops[1], now);
    } else if |plan.ops| == 1 {
      assert plan.ops == [plan.ops[0]];
      OneOp(clock, s.links, plan.ops[0], now);
    }
  }

  // ---- Signal operations of different controllers commute ----

  lemma {:induction false} ConsumeSplits(signals: seq<Signal>, now: nat)
    requires signals != []
    ensures !Ready(signals[0], now) ==> Consume(signals, now) == [signals[0]] + Consume(signals[1..], now)
    ensures Ready(signals[0], now) ==>
              Consume(signals, now) == [signals[0].(consumed := Some(now))] + signals[1..]
    ensures FirstReady(signals, now) < |signals|
            <==> Ready(signals[0], now) || FirstReady(signals[1..], now) < |signals[1..]|
  {
  }

  lemma {:induction false} ConsumeAndLiveCommute(signals: seq<Signal>, now: nat)
    ensures Live(Consume(signals, now), now) == Consume(Live(signals, now), now)
    ensures FirstReady(signals, now) < |signals|
            <==> FirstReady(Live(signals, now), now) < |Live(signals, now)|
  {
    if signals == [] {
    } else {
      var live := Live(signals, now);
      ConsumeSplits(signals, now);
      ConsumeAndLiveCommute(signals[1..], now);
      if !Expired(signals[0], now) {
        assert live[0] == signals[0] && live[1..] == Live(signals[1..], now);
        ConsumeSplits(live, now);
      } else {
        assert live == Live(signals[1..], now);
      }
      if Ready(signals[0], now) {
        assert Consume(signals, now)[1..] == signals[1..];
      } else {
        var consumed := Consume(signals, now);
        assert consumed[0] == signals[0] && consumed[1..] == Consume(signals[1..], now);
        assert Expired(signals[0], now) ==> Live(consumed, now) == Live(consumed[1..], now);
      }
    }
  }

  lemma LaterSignalIsInvisible(signals: seq<Signal>, later: Signal, now: nat)
    requires now < later.arrival
    ensures Consume(signals + [later], now) == Consume(signals, now) + [later]
    ensures FirstReady(signals + [later], now) < |signals| + 1 <==> FirstReady(signals, now) < |signals|
  {
    var all := signals + [later];
    var i, j := FirstReady(signals, now), FirstReady(all, now);
    assert forall k | 0 <= k < |signals| :: all[k] == signals[k];
    if i < |signals| {
      assert Ready(all[i], now) && j == i;
    } else {
      assert !Ready(all[|signals|], now);
    }
  }

  /** Reading and sending on one link at one edge commute: the new signal arrives strictly later. */
  lemma ReadAndSendCommute(clock: Clock, links: Links, key: (CoreId, CoreId), now: nat)
    requires clock.Valid() && key in links && PositiveDelays(links)
    ensures
      var first := Send(clock, links, key.0, key.1, now);
      var second := Send(clock, Receive(links, key.0, key.1, now), key.0, key.1, now);
      && (first.Ok? <==> second.Ok?)
      && (first.Ok? ==> key in first.value && second.value == Receive(first.value, key.0, key.1, now)
                        && (Arrived(first.value, key.0, key.1, now) <==> Arrived(links, key.0, key.1, now)))
  {
    var signals := links[key].signals;
    ConsumeAndLiveCommute(signals, now);
    LaterSignalIsInvisible(Live(signals, now), Signal(now + links[key].delay, None), now);
  }

  predicate Independent(x: Op, y: Op) {
    x.key != y.key || x.Recv? != y.Recv?
  }

  lemma DoKeepsShape(clock: Clock, links: Links, op: Op, now: nat)
    requires clock.Valid() && Do(clock, links, op, now).Ok?
    ensures
      var after := Do(clock, links, op, now).value;
      && op.key in links && after.Keys == links.Keys
      && (forall k | k in links :: after[k].delay == links[k].delay)
      && (forall k | k in links && k != op.key :: after[k] == links[k])
  {
  }

  lemma OpsCommute(clock: Clock, links: Links, x: Op, y: Op, now: nat)
    requires clock.Valid() && PositiveDelays(links) && Independent(x, y)
    ensures SameOutcome(DoAll(clock, links, [x, y], now), DoAll(clock, links, [y, x], now))
  {
    TwoOps(clock, links, x, y, now);
    TwoOps(clock, links, y, x, now);
    if x.key != y.key {
      DistinctLinksCommute(clock, links, x, y, now);
    } else if x.key in links {
      ReadAndSendCommute(clock, links, x.key, now);
    }
  }

  lemma TwoOps(clock: Clock, links: Links, x: Op, y: Op, now: nat)
    requires clock.Valid()
    ensures DoAll(clock, links, [x, y], now)
            == (var first := Do(clock, links, x, now);
                if first.Ok? then Do(clock, first.value, y, now) else first)
  {
    assert [x, y][1..] == [y];
    var first := Do(clock, links, x, now);
    if first.Ok? {
      OneOp(clock, first.value, y, now);
    }
  }

  lemma OneOp(clock: Clock, links: Links, x: Op, now: nat)
    requires clock.Valid()
    ensures DoAll(clock, links, [x], now) == Do(clock, links, x, now)
  {
    assert [x][1..] == [];
  }

  lemma DistinctLinksCommute(clock: Clock, links: Links, x: Op, y: Op, now: nat)
    requires clock.Valid() && x.key != y.key
    ensures
      var a, b := Do(clock, links, x, now), Do(clock, links, y, now);
      if a.Ok? && b.Ok? then Do(clock, a.value, y, now).Ok? && Do(clock, a.value, y, now) == Do(clock, b.value, x, now)
      else (a.Ok? ==> Do(clock, a.value, y, now).Err?) && (b.Ok? ==> Do(clock, b.value, x, now).Err?)
  {
    var a, b := Do(clock, links, x, now), Do(clock, links, y, now);
    if a.Ok? {
      DoKeepsShape(clock, links, x, now);
      DoIsLocal(clock, links, a.value, y, now);
    }
    if b.Ok? {
      DoKeepsShape(clock, links, y, now);
      DoIsLocal(clock, links, b.value, x, now);
      if a.Ok? {
        DoIsLocal(clock, links, links, x, now);
        DoIsLocal(clock, links, links, y, now);
        var p, q := a.value[x.key], b.value[y.key];
        assert links[x.key := p][y.key := q] == links[y.key := q][x.key := p];
      }
    }
  }

  lemma DoIsLocal(clock: Clock, links: Links, other: Links, op: Op, now: nat)
    requires clock.Valid() && other.Keys == links.Keys
    requires op.key in links ==> other[op.key] == links[op.key]
    ensures
      var a, b := Do(clock, links, op, now), Do(clock, other, op, now);
      && (a.Ok? <==> b.Ok?)
      && (a.Ok? ==> op.key in a.value && b.value == other[op.key := a.value[op.key]]
                    && a.value == links[op.key := a.value[op.key]])
  {
  }

  /** An operation commutes with a list of operations it is independent of. */
  lemma {:induction false} OpPasses(clock: Clock, links: Links, x: Op, ys: seq<Op>, now: nat)
    requires clock.Valid() && PositiveDelays(links) && forall y | y in ys :: Independent(x, y)
    ensures SameOutcome(DoAll(clock, links, [x] + ys, now), DoAll(clock, links, ys + [x], now))
    decreases |ys|
  {
    if ys == [] {
      assert [x] + ys == ys + [x];
    } else {
      var y, rest := ys[0], ys[1..];
      OpsCommute(clock, links, x, y, now);
      assert [x] + ys == [x, y] + rest && ys + [x] == [y] + (rest + [x]) && [y, x] + rest == [y] + ([x] + rest);
      DoAllSplits(clock, links, [x, y], rest, now);
      DoAllSplits(clock, links, [y, x], rest, now);
      DoAllSplits(clock, links, [y], rest + [x], now);
      DoAllSplits(clock, links, [y], [x] + rest, now);
      TwoOps(clock, links, y, x, now);
      var first := Do(clock, links, y, now);
      if first.Ok? {
        DoKeepsShape(clock, links, y, now);
        OpPasses(clock, first.value, x, rest, now);
        assert DoAll(clock, links, [y], now) == first;
      }
    }
  }

  lemma {:induction false} DoAllSplits(clock: Clock, links: Links, xs: seq<Op>, ys: seq<Op>, now: nat)
    requires clock.Valid()
    ensures DoAll(clock, links, xs + ys, now)
            == (var first := DoAll(clock, links, xs, now);
                if first.Ok? then DoAll(clock, first.value, ys, now) else first)
    decreases |xs|
  {
    if xs == [] {
      assert xs + ys == ys;
    } else {
      assert (xs + ys)[1..] == xs[1..] + ys;
      var first := Do(clock, links, xs[0], now);
      if first.Ok? {
        DoAllSplits(clock, first.value, xs[1..], ys, now);
      }
    }
  }

  lemma {:induction false} DoAllKeepsShape(clock: Clock, links: Links, ops: seq<Op>, now: nat)
    requires clock.Valid() && DoAll(clock, links, ops, now).Ok?
    ensures
      var after := DoAll(clock, links, ops, now).value;
      && after.Keys == links.Keys
      && (forall k | k in links :: after[k].delay == links[k].delay)
      && (forall k | k in links && (forall op | op in ops :: op.key != k) :: after[k] == links[k])
    decreases |ops|
  {
    if ops != [] {
      DoKeepsShape(clock, links, ops[0], now);
      DoAllKeepsShape(clock, Do(clock, links, ops[0], now).value, ops[1..], now);
    }
  }

  lemma {:induction false} ListsCommute(clock: Clock, links: Links, xs: seq<Op>, ys: seq<Op>, now: nat)
    requires clock.Valid() && PositiveDelays(links)
    requires forall x, y | x in xs && y in ys :: Independent(x, y)
    ensures SameOutcome(DoAll(clock, links, xs + ys, now), DoAll(clock, links, ys + xs, now))
    decreases |xs|
  {
    if xs == [] {
      assert xs + ys == ys && ys + xs == ys;
    } else {
      var x, rest := xs[0], xs[1..];
      assert xs + ys == [x] + (rest + ys) && ys + xs == (ys + [x]) + rest && [x] + (ys + rest) == ([x] + ys) + rest;
      DoAllSplits(clock, links, [x], rest + ys, now);
      DoAllSplits(clock, links, [x], ys + rest, now);
      OpPasses(clock, links, x, ys, now);
      DoAllSplits(clock, links, ys + [x], rest, now);
      DoAllSplits(clock, links, [x] + ys, rest, now);
      var first := DoAll(clock, links, [x], now);
      if first.Ok? {
        DoAllKeepsShape(clock, links, [x], now);
        ListsCommute(clock, first.value, rest, ys, now);
      }
    }
  }

  // ---- Controllers in any order ----

  lemma PlanShape(links: Links, core: CoreId, pending: Option<Booking>, want: seq<CoreId>, now: nat)
    requires pending.Some? ==> (pending.value.target, core) in links
    ensures
      var plan := PlanOf(links, core, pending, want, now);
      forall op | op in plan.ops ::
        if op.Recv? then op.key.1 == core && pending.Some? && op.key.0 == pending.value.target
        else op.key.0 == core
  {
  }

  /** A neighbor's edge does not change what a controller decides at the same edge. */
  lemma PlanIgnoresOthers(clock: Clock, links: Links, after: Links, a: CoreId, b: CoreId, ops: seq<Op>,
                          pending: Option<Booking>, want: seq<CoreId>, now: nat)
    requires clock.Valid() && PositiveDelays(links) && a != b
    requires forall op | op in ops :: if op.Recv? then op.key.1 == a else op.key.0 == a
    requires DoAll(clock, links, ops, now) == Ok(after)
    requires pending.Some? ==> (pending.value.target, b) in links
    ensures (pending.Some? ==> (pending.value.target, b) in after)
    ensures PlanOf(after, b, pending, want, now) == PlanOf(links, b, pending, want, now)
  {
    DoAllKeepsShape(clock, links, ops, now);
    if pending.Some? {
      ArrivalsUnseen(clock, links, after, ops, (pending.value.target, b), now);
    }
    PlanDependsOnArrivals(links, after, b, pending, want, now);
  }

  lemma PlanDependsOnArrivals(links: Links, after: Links, core: CoreId, pending: Option<Booking>,
                              want: seq<CoreId>, now: nat)
    requires after.Keys == links.Keys && forall k | k in links :: after[k].delay == links[k].delay
    requires pending.Some? ==>
               && var key := (pending.value.target, core);
               && key in links && (Arrived(after, key.0, key.1, now) <==> Arrived(links, key.0, key.1, now))
    ensures PlanOf(after, core, pending, want, now) == PlanOf(links, core, pending, want, now)
  {
    var x, y := StepUnit(links, core, pending, now), StepUnit(after, core, pending, now);
    assert x.pending == y.pending && x.paused == y.paused;
  }

  /** Operations that do not read a link leave what is readable on it at this edge unchanged. */
  lemma {:induction false} ArrivalsUnseen(clock: Clock, links: Links, after: Links, ops: seq<Op>,
                                          key: (CoreId, CoreId), now: nat)
    requires clock.Valid() && PositiveDelays(links) && key in links
    requires forall op | op in ops :: op.Recv? ==> op.key != key
    requires DoAll(clock, links, ops, now) == Ok(after)
    ensures key in after && (Arrived(after, key.0, key.1, now) <==> Arrived(links, key.0, key.1, now))
    decreases |ops|
  {
    if ops != [] {
      var first := Do(clock, links, ops[0], now).value;
      DoKeepsShape(clock, links, ops[0], now);
      if ops[0].key == key {
        ReadAndSendCommute(clock, links, key, now);
      }
      ArrivalsUnseen(clock, first, after, ops[1..], key, now);
    }
  }

  lemma EdgeKeepsValid(clock: Clock, s: System, core: CoreId, want: map<CoreId, seq<CoreId>>, now: nat)
    requires clock.Valid() && s.Valid() && core in s.pending && core in want
    requires CoreEdge(clock, s, core, want, now).Ok?
    ensures
      var r := CoreEdge(clock, s, core, want, now).value;
      && r.Valid() && r.pending.Keys == s.pending.Keys && r.links.Keys == s.links.Keys
      && (forall c | c in s.pending && c != core :: r.pending[c] == s.pending[c])
  {
    EdgeFollowsPlan(clock, s, core, want, now);
    var plan := PlanOf(s.links, core, s.pending[core], want[core], now);
    DoAllKeepsShape(clock, s.links, plan.ops, now);
    var r := CoreEdge(clock, s, core, want, now).value;
    if plan.pending.Some? {
      EmitNeedsLink(clock, s.links, plan.ops, now);
    }
    assert forall x, y | (x, y) in r.links :: (x, y) in s.links;
  }

  lemma {:induction false} EmitNeedsLink(clock: Clock, links: Links, ops: seq<Op>, now: nat)
    requires clock.Valid() && DoAll(clock, links, ops, now).Ok?
    ensures forall op | op in ops :: op.key in links
    decreases |ops|
  {
    if ops != [] {
      DoKeepsShape(clock, links, ops[0], now);
      EmitNeedsLink(clock, Do(clock, links, ops[0], now).value, ops[1..], now);
    }
  }

  /** The controllers of `order`, processed one after the other at one edge. */
  function EdgeInOrder(clock: Clock, s: System, order: seq<CoreId>, want: map<CoreId, seq<CoreId>>, now: nat): Result<System>
    requires clock.Valid() && s.Valid() && forall c | c in order :: c in s.pending && c in want
    decreases |order|
  {
    if order == [] then Ok(s)
    else
      var first :- CoreEdge(clock, s, order[0], want, now);
      EdgeKeepsValid(clock, s, order[0], want, now);
      EdgeInOrder(clock, first, order[1..], want, now)
  }

  lemma TwoEdges(clock: Clock, s: System, a: CoreId, b: CoreId, want: map<CoreId, seq<CoreId>>, now: nat)
    requires clock.Valid() && s.Valid() && a != b
    requires a in s.pending && b in s.pending && a in want && b in want
    ensures
      var p := PlanOf(s.links, a, s.pending[a], want[a], now);
      var q := PlanOf(s.links, b, s.pending[b], want[b], now);
      var links := DoAll(clock, s.links, p.ops + q.ops, now);
      var both := EdgeInOrder(clock, s, [a, b], want, now);
      if p.refused || q.refused || links.Err? then both.Err?
      else both == Ok(System(links.value, s.pending[a := p.pending][b := q.pending]))
  {
    var p := PlanOf(s.links, a, s.pending[a], want[a], now);
    var q := PlanOf(s.links, b, s.pending[b], want[b], now);
    EdgeFollowsPlan(clock, s, a, want, now);
    PlanShape(s.links, a, s.pending[a], want[a], now);
    DoAllSplits(clock, s.links, p.ops, q.ops, now);
    assert [a, b][1..] == [b];
    var first := CoreEdge(clock, s, a, want, now);
    if first.Ok? {
      EdgeKeepsValid(clock, s, a, want, now);
      PlanIgnoresOthers(clock, s.links, first.value.links, a, b, p.ops, s.pending[b], want[b], now);
      EdgeFollowsPlan(clock, first.value, b, want, now);
      OneEdge(clock, first.value, b, want, now);
    }
  }

  lemma OneEdge(clock: Clock, s: System, c: CoreId, want: map<CoreId, seq<CoreId>>, now: nat)
    requires clock.Valid() && s.Valid() && c in s.pending && c in want
    ensures EdgeInOrder(clock, s, [c], want, now) == CoreEdge(clock, s, c, want, now)
  {
    assert [c][1..] == [];
    if CoreEdge(clock, s, c, want, now).Ok? {
      EdgeKeepsValid(clock, s, c, want, now);
    }
  }

  /** Two controllers' edges commute, whether they succeed or fault. */
  lemma EdgesCommute(clock: Clock, s: System, a: CoreId, b: CoreId, want: map<CoreId, seq<CoreId>>, now: nat)
    requires clock.Valid() && s.Valid() && a != b
    requires a in s.pending && b in s.pending && a in want && b in want
    ensures SameOutcome(EdgeInOrder(clock, s, [a, b], want, now), EdgeInOrder(clock, s, [b, a], want, now))
  {
    var p := PlanOf(s.links, a, s.pending[a], want[a], now);
    var q := PlanOf(s.links, b, s.pending[b], want[b], now);
    PlanShape(s.links, a, s.pending[a], want[a], now);
    PlanShape(s.links, b, s.pending[b], want[b], now);
    TwoEdges(clock, s, a, b, want, now);
    TwoEdges(clock, s, b, a, want, now);
    forall x, y | x in p.ops && y in q.ops
      ensures Independent(x, y)
    {
    }
    ListsCommute(clock, s.links, p.ops, q.ops, now);
    assert s.pending[a := p.pending][b := q.pending] == s.pending[b := q.pending][a := p.pending];
  }

  lemma {:induction false} OrderSplits(clock: Clock, s: System, xs: seq<CoreId>, ys: seq<CoreId>,
                                       want: map<CoreId, seq<CoreId>>, now: nat)
    requires clock.Valid() && s.Valid() && forall c | c in xs + ys :: c in s.pending && c in want
    ensures
      && (forall c | c in xs :: c in s.pending && c in want)
      && (var first := EdgeInOrder(clock, s, xs, want, now);
          && (first.Ok? ==> first.value.Valid() && first.value.pending.Keys == s.pending.Keys)
          && (forall c | c in ys :: c in s.pending && c in want)
          && EdgeInOrder(clock, s, xs + ys, want, now)
             == if first.Ok? then EdgeInOrder(clock, first.value, ys, want, now) else first)
    decreases |xs|
  {
    assert forall c | c in xs :: c in xs + ys;
    assert forall c | c in ys :: c in xs + ys;
    if xs == [] {
      assert xs + ys == ys;
    } else {
      assert (xs + ys)[1..] == xs[1..] + ys;
      var first := CoreEdge(clock, s, xs[0], want, now);
      if first.Ok? {
        EdgeKeepsValid(clock, s, xs[0], want, now);
        OrderSplits(clock, first.value, xs[1..], ys, want, now);
      }
    }
  }

  lemma {:induction false} MoveToFront(clock: Clock, s: System, xs: seq<CoreId>, c: CoreId,
                                       want: map<CoreId, seq<CoreId>>, now: nat)
    requires clock.Valid() && s.Valid() && c !in xs
    requires forall x | x in xs + [c] :: x in s.pending && x in want
    requires forall x | x in [c] + xs :: x in s.pending && x in want
    ensures SameOutcome(EdgeInOrder(clock, s, xs + [c], want, now), EdgeInOrder(clock, s, [c] + xs, want, now))
    decreases |xs|
  {
    if xs == [] {
      assert xs + [c] == [c] + xs;
    } else {
      var x, rest := xs[0], xs[1..];
      assert xs + [c] == [x] + (rest + [c]) && [c] + xs == [c, x] + rest && [x, c] + rest == [x] + ([c] + rest);
      assert c in [c] + xs && x in [c] + xs && forall y | y in rest + [c] :: y in xs + [c];
      OrderSplits(clock, s, [x], rest + [c], want, now);
      OrderSplits(clock, s, [x], [c] + rest, want, now);
      OrderSplits(clock, s, [c, x], rest, want, now);
      OrderSplits(clock, s, [x, c], rest, want, now);
      EdgesCommute(clock, s, c, x, want, now);
      var first := EdgeInOrder(clock, s, [x], want, now);
      if first.Ok? {
        MoveToFront(clock, first.value, rest, c, want, now);
      }
    }
  }

  predicate Permutes(xs: seq<CoreId>, ys: seq<CoreId>) {
    multiset(xs) == multiset(ys) && forall c | c in xs :: multiset(xs)[c] == 1
  }

  /** The first element of one order, found in the other. */
  lemma Split(xs: seq<CoreId>, ys: seq<CoreId>) returns (before: seq<CoreId>, after: seq<CoreId>)
    requires Permutes(xs, ys) && xs != []
    ensures ys == before + [xs[0]] + after && xs[0] !in before
    ensures Permutes(xs[1..], before + after)
    ensures forall c | c in before + after :: c in ys
  {
    assert xs[0] in multiset(ys);
    var i :| 0 <= i < |ys| && ys[i] == xs[0];
    before, after := ys[..i], ys[i + 1..];
    assert ys == before + [xs[0]] + after;
    assert xs == [xs[0]] + xs[1..];
    WithoutOne(xs[0], xs[1..], before, after);
  }

  lemma WithoutOne(c: CoreId, rest: seq<CoreId>, before: seq<CoreId>, after: seq<CoreId>)
    requires Permutes([c] + rest, before + [c] + after)
    ensures c !in before && Permutes(rest, before + after)
  {
    var xs: seq<CoreId>, ys: seq<CoreId> := [c] + rest, before + [c] + after;
    assert multiset(xs) == multiset{c} + multiset(rest);
    assert multiset(ys) == multiset(before) + multiset{c} + multiset(after);
    assert multiset(before + after) == multiset(before) + multiset(after);
    assert multiset(rest) == multiset(xs) - multiset{c} && multiset(before + after) == multiset(ys) - multiset{c};
    assert c in xs && multiset(xs)[c] == 1;
    assert c !in multiset(before);
    forall x | x in rest
      ensures multiset(rest)[x] == 1
    {
      assert x in multiset(rest) && x in xs;
    }
  }

  /**
   * Processing the same controllers in any two orders at one edge leaves the same links and units,
   * and raises a fault in one order exactly when it does in the other.
   */
  lemma {:induction false} AnyOrderSameOutcome(clock: Clock, s: System, xs: seq<CoreId>, ys: seq<CoreId>,
                                               want: map<CoreId, seq<CoreId>>, now: nat)
    requires clock.Valid() && s.Valid() && Permutes(xs, ys)
    requires forall c | c in xs :: c in s.pending && c in want
    requires forall c | c in ys :: c in s.pending && c in want
    ensures SameOutcome(EdgeInOrder(clock, s, xs, want, now), EdgeInOrder(clock, s, ys, want, now))
    decreases |xs|
  {
    if xs == [] {
      assert |multiset(ys)| == 0;
      assert ys == [];
    } else {
      var c, rest := xs[0], xs[1..];
      var before, after := Split(xs, ys);
      assert ys == (before + [c]) + after && xs == [c] + rest;
      assert ([c] + before) + after == [c] + (before + after);
      OrderSplits(clock, s, before + [c], after, want, now);
      OrderSplits(clock, s, [c] + before, after, want, now);
      OrderSplits(clock, s, [c], before + after, want, now);
      OrderSplits(clock, s, [c], rest, want, now);
      MoveToFront(clock, s, before, c, want, now);
      var first := EdgeInOrder(clock, s, [c], want, now);
      if first.Ok? {
        AnyOrderSameOutcome(clock, first.value, rest, before + after, want, now);
      }
    }
  }
}
