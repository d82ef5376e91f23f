/** The TCUs and the synchronization network together: matched points fire at equal ticks. */
module ZeroSkew {
  import opened Errors
  import opened Time
  import opened Sync
  import opened SyncPair
  import opened Protocol
  import opened Tcu
  import N = SyncRuns
  import R = TcuRuns
  import Q = TcuQueues

  /**
   * Controllers with their history: the tick of every cycle each timer has counted, the ticks at which a
   * missing instruction paused it, and for every booking the cycle of the point that made it.
   */
  datatype Machine = Machine(
    net: N.Run, tcus: map<CoreId, R.Run>, ticks: map<CoreId, seq<nat>>, starved: map<CoreId, set<nat>>,
    cycles: map<N.Connection, seq<nat>>)

  type Configs = map<CoreId, TcuConfig>

  /** A controller has a TCU on the network's clock. */
  ghost predicate Equipped(clock: Clock, cfgs: Configs, m: Machine, core: CoreId) {
    && core in m.net.last && core in cfgs && core in m.tcus && core in m.ticks && core in m.starved
    && cfgs[core].Valid() && cfgs[core].clock == clock
  }

  function BookingCheck(clock: Clock, r: N.Run, core: CoreId, now: nat): seq<nat> -> Result<()>
    requires clock.Valid() && N.Shaped(r) && core in r.last
  {
    targets =>
      var b := Book(clock, r.sys.links, core, r.sys.pending[core], targets, now);
      if b.Ok? then Ok(()) else Err(b.error)
  }

  /** What the TCU receives: its own inputs, and the pause and the booking check of its synchronization unit. */
  function Offered(clock: Clock, m: Machine, core: CoreId, input: Input): Input
    requires clock.Valid() && N.Shaped(m.net) && core in m.net.last
  {
    var now := m.net.last[core] + clock.period;
    N.StepPhaseKeepsShape(m.net, core, now);
    input.(synchronizationPaused := StepUnit(m.net.sys.links, core, m.net.sys.pending[core], now).paused,
           syncPreflight := Some(BookingCheck(clock, N.StepPhase(m.net, core, now), core, now)))
  }

  /** The synchronizations of the point that fired at this edge. */
  function FiredTargets(before: R.Run, after: R.Run): seq<CoreId> {
    if |before.fired| < |after.fired| && |before.fired| < |before.admitted|
    then before.admitted[|before.fired|].request.point.synchronizations else []
  }

  /** The end of the instruction stream, if it arrives at this edge: its last label. */
  function Ended(r: R.Run, end: Option<nat>): Result<R.Run> {
    if end.None? then Ok(r)
    else
      var closed :- Close(r.tcu, end.value);
      Ok(r.(tcu := closed))
  }

  /** What a controller receives at an edge: the TCU's own inputs, and perhaps the end of its stream. */
  datatype Arrival = Arrival(input: Input, end: Option<nat>)

  /** One controller's next edge: the synchronization unit steps, the TCU steps, then the unit books and the stream may end. */
  function Move(clock: Clock, cfgs: Configs, m: Machine, core: CoreId, arrival: Arrival): Result<Machine>
    requires clock.Valid() && N.Shaped(m.net) && Equipped(clock, cfgs, m, core)
  {
    var before, offered := m.tcus[core], Offered(clock, m, core, arrival.input);
    if MAX_TICK < before.next then Err(TimeOverflow)
    else
      var after :- R.Advance(cfgs[core], before, offered);
      var targets := FiredTargets(before, after);
      var net :- N.Act(clock, m.net, core, targets);
      var last :- Ended(after, arrival.end);
      var supply := CurrentTimingState(cfgs[core], before.tcu, before.next, offered.synchronizationPaused).pause.supply;
      Ok(Machine(net, m.tcus[core := last],
                 m.ticks[core := if before.cycle < after.cycle then m.ticks[core] + [before.next] else m.ticks[core]],
                 m.starved[core := if supply then m.starved[core] + {before.next} else m.starved[core]],
                 if targets != [] && (core, targets[0]) in m.cycles then m.cycles[(core, targets[0]) := m.cycles[(core, targets[0])] + [before.cycle]]
                 else m.cycles))
  }

  // ---- The ledger of one direction of a connection ----

  /** No missing instruction paused the timer after lo, up to hi. */
  ghost predicate Quiet(starved: set<nat>, lo: nat, hi: nat) {
    forall x | x in starved :: !(lo < x <= hi)
  }

  /** While a booking is open the timer counts up to the booking's deadline, and then waits. */
  ghost predicate OpenLedger(period: nat, n: nat, t: nat, c: nat, count: nat, starved: set<nat>, last: nat) {
    Quiet(starved, t, last) ==>
      if last < t + n * period then (count - 1 - c) * period == last - t else count == c + n
  }

  /**
   * The k-th booking was made at the tick of cycle cycles[k]; if nothing starved the timer meanwhile, its
   * completion is the tick of the cycle one outgoing delay (n cycles) later.
   */
  ghost predicate Ledger(period: nat, n: nat, booked: seq<nat>, done: seq<nat>, cycles: seq<nat>, ticks: seq<nat>,
                         starved: set<nat>, last: nat) {
    && |done| <= |booked| <= |done| + 1 && |cycles| == |booked|
    && (forall k | 0 <= k < |booked| :: cycles[k] < |ticks| && ticks[cycles[k]] == booked[k] <= last)
    && (forall k | 0 <= k < |done| :: Quiet(starved, booked[k], done[k]) ==>
          cycles[k] + n < |ticks| && ticks[cycles[k] + n] == done[k])
    && (forall k | 0 <= k < |done| :: done[k] <= last)
    && (|done| < |booked| ==> OpenLedger(period, n, booked[|done|], cycles[|done|], |ticks|, starved, last))
    && (forall x | x in starved :: x <= last)
  }

  /** The timer's part of an edge, as far as an open booking sees it. */
  ghost predicate TimerEdge(open: bool, deadline: nat, now: nat, grew: bool, supply: bool, complete: bool) {
    && (complete ==> open && deadline <= now)
    && (supply ==> !grew)
    && (open && !supply ==> (grew <==> now < deadline || complete))
  }

  lemma OpenLedgerTicks(period: nat, n: nat, t: nat, c: nat, count: nat, starved: set<nat>, last: nat, now: nat,
                        grew: bool, supply: bool, complete: bool)
    requires 0 < period && now == last + period && OpenLedger(period, n, t, c, count, starved, last) && t <= last
    requires TimerEdge(true, t + n * period, now, grew, supply, complete)
    requires last < t + n * period ==> now <= t + n * period
    requires forall x | x in starved :: x <= last
    ensures
      var starved' := if supply then starved + {now} else starved;
      var count' := if grew then count + 1 else count;
      && (!complete ==> OpenLedger(period, n, t, c, count', starved', now))
      && (complete && Quiet(starved', t, now) ==> grew && c + n == count)
  {
    var starved' := if supply then starved + {now} else starved;
    if Quiet(starved', t, now) {
      assert supply ==> now in starved';
      assert Quiet(starved, t, last);
      if last < t + n * period {
        CountsUp(period, count - 1 - c, n, last - t);
      }
    }
  }

  lemma CountsUp(period: nat, k: int, n: nat, elapsed: nat)
    requires 0 < period && k * period == elapsed && elapsed + period <= n * period
    ensures (k + 1) * period == elapsed + period
    ensures elapsed + period == n * period ==> k + 1 == n
  {
    assert (k + 1) * period == k * period + period;
    if k + 1 < n {
      MulMonotone(period, k + 2, n);
      assert period * (k + 2) == (k + 1) * period + period;
    } else if n < k + 1 {
      MulMonotone(period, n + 1, k + 1);
      assert period * (n + 1) == n * period + period;
    }
  }

  lemma QuietAside(starved: set<nat>, lo: nat, hi: nat, supply: bool, now: nat)
    requires hi < now
    ensures Quiet(if supply then starved + {now} else starved, lo, hi) <==> Quiet(starved, lo, hi)
  {
    if Quiet(if supply then starved + {now} else starved, lo, hi) {
      assert forall x | x in starved :: x in starved + {now};
    }
  }

  /** The synchronization and timer parts of an edge keep the ledger. */
  lemma LedgerTicks(period: nat, n: nat, booked: seq<nat>, done: seq<nat>, cycles: seq<nat>, ticks: seq<nat>,
                    starved: set<nat>, last: nat, now: nat, grew: bool, supply: bool, complete: bool)
    requires 0 < period && now == last + period && Ledger(period, n, booked, done, cycles, ticks, starved, last)
    requires
      var open := |done| < |booked|;
      && TimerEdge(open, if open then booked[|done|] + n * period else 0, now, grew, supply, complete)
      && (open && last < booked[|done|] + n * period ==> now <= booked[|done|] + n * period)
    ensures Ledger(period, n, booked, if complete then done + [now] else done, cycles,
                   if grew then ticks + [now] else ticks, if supply then starved + {now} else starved, now)
  {
    hide OpenLedger, Quiet;
    var done' := if complete then done + [now] else done;
    var ticks' := if grew then ticks + [now] else ticks;
    var starved' := if supply then starved + {now} else starved;
    if |done| < |booked| {
      OpenLedgerTicks(period, n, booked[|done|], cycles[|done|], |ticks|, starved, last, now, grew, supply, complete);
    }
    forall k | 0 <= k < |done'| && Quiet(starved', booked[k], done'[k])
      ensures cycles[k] + n < |ticks'| && ticks'[cycles[k] + n] == done'[k]
    {
      if k < |done| {
        assert done'[k] == done[k];
        QuietAside(starved, booked[k], done[k], supply, now);
      }
    }
  }

  lemma LedgerBooks(period: nat, n: nat, booked: seq<nat>, done: seq<nat>, cycles: seq<nat>, ticks: seq<nat>,
                    starved: set<nat>, now: nat)
    requires 0 < period && 0 < n && Ledger(period, n, booked, done, cycles, ticks, starved, now) && |done| == |booked|
    requires ticks != [] && ticks[|ticks| - 1] == now
    ensures Ledger(period, n, booked + [now], done, cycles + [|ticks| - 1], ticks, starved, now)
  {
    MulMonotone(period, 1, n);
    hide Quiet;
  }

  // ---- One controller's timer ----

  /** The k-th counted cycle is at ticks[k], and every point fires at the tick of its due cycle. */
  ghost predicate TimerOk(cfg: TcuConfig, run: R.Run, ticks: seq<nat>, last: nat)
    requires cfg.Valid()
  {
    && R.RunOk(cfg, run) && run.next == last + cfg.clock.period && |ticks| == run.cycle
    && |run.fired| <= |run.admitted|
    && forall j | 0 <= j < |run.fired| :: run.admitted[j].due < |ticks| && run.fired[j].tick == ticks[run.admitted[j].due]
  }

  /** What an edge does to the timer. */
  lemma AdvanceTimer(cfg: TcuConfig, r: R.Run, input: Input)
    requires cfg.Valid() && R.RunOk(cfg, r) && r.next <= MAX_TICK && R.Advance(cfg, r, input).Ok?
    ensures
      var r' := R.Advance(cfg, r, input).value;
      var supply := CurrentTimingState(cfg, r.tcu, r.next, input.synchronizationPaused).pause.supply;
      && R.RunOk(cfg, r') && r'.next == r.next + cfg.clock.period
      && r'.cycle == (if cfg.start <= r.next && !supply && !input.synchronizationPaused then r.cycle + 1 else r.cycle)
      && |r.admitted| <= |r'.admitted| && r'.admitted[..|r.admitted|] == r.admitted
      && |r.fired| <= |r'.fired| <= |r.fired| + 1 && r'.fired[..|r.fired|] == r.fired
      && (|r.fired| < |r'.fired| ==>
            && |r.fired| < |r.admitted| && r.admitted[|r.fired|].due == r.cycle && r'.fired[|r.fired|].tick == r.next
            && r'.cycle == r.cycle + 1)
  {
    hide R.RunOk, R.Advance, R.AdmittedBy, R.FiresNow, R.PausedNow, R.Committed;
    R.AdvanceIsEdge(cfg, r, input);
    R.AdvanceKeepsRun(cfg, r, input);
    if R.FiresNow(cfg, r, input) {
      FiringFacts(cfg, r, input);
    }
    StartedFacts(cfg, r, input);
    hide R.HeadFiring;
  }

  lemma FiringFacts(cfg: TcuConfig, r: R.Run, input: Input)
    requires cfg.Valid() && R.RunOk(cfg, r) && R.FiresNow(cfg, r, input)
    ensures |r.fired| < |r.admitted| && r.admitted[|r.fired|].due == r.cycle && R.Waiting(r) != []
    ensures !R.PausedNow(cfg, r, input) && cfg.start <= r.next && R.HeadFiring(r).tick == r.next
  {
    hide R.RunOk, CurrentTimingState;
  }

  lemma StartedFacts(cfg: TcuConfig, r: R.Run, input: Input)
    requires cfg.Valid() && R.RunOk(cfg, r)
    ensures
      var supply := CurrentTimingState(cfg, r.tcu, r.next, input.synchronizationPaused).pause.supply;
      && (cfg.start <= r.next ==> (R.PausedNow(cfg, r, input) <==> supply || input.synchronizationPaused))
      && (r.next < cfg.start ==> !supply && !R.PausedNow(cfg, r, input))
      && (0 < r.cycle ==> cfg.start <= r.next)
  {
    hide R.AdmissionsOk, Q.QueuesHold, R.FiredOk;
  }

  lemma TimerAdvances(cfg: TcuConfig, r: R.Run, input: Input, ticks: seq<nat>, last: nat)
    requires cfg.Valid() && TimerOk(cfg, r, ticks, last) && r.next <= MAX_TICK && R.Advance(cfg, r, input).Ok?
    ensures
      var r' := R.Advance(cfg, r, input).value;
      TimerOk(cfg, r', if r.cycle < r'.cycle then ticks + [r.next] else ticks, r.next)
  {
    hide R.RunOk, R.Advance;
    AdvanceTimer(cfg, r, input);
    hide CurrentTimingState;
    var r' := R.Advance(cfg, r, input).value;
    var ticks' := if r.cycle < r'.cycle then ticks + [r.next] else ticks;
    FiredNoMore(cfg, r');
    forall j | 0 <= j < |r'.fired|
      ensures r'.admitted[j].due < |ticks'| && r'.fired[j].tick == ticks'[r'.admitted[j].due]
    {
      if j < |r.fired| {
        assert r'.fired[j] == r'.fired[..|r.fired|][j] == r.fired[j];
      }
      assert r'.admitted[j] == r'.admitted[..|r.admitted|][j] == r.admitted[j];
    }
  }

  lemma FiredNoMore(cfg: TcuConfig, r: R.Run)
    requires cfg.Valid() && R.RunOk(cfg, r)
    ensures |r.fired| <= |r.admitted|
  {
    hide Q.QueuesHold, R.TimeOk, R.FiredOk;
  }

  // ---- One connection ----

  ghost predicate TimerHolds(clock: Clock, cfgs: Configs, m: Machine, a: CoreId) {
    Equipped(clock, cfgs, m, a) && TimerOk(cfgs[a], m.tcus[a], m.ticks[a], m.net.last[a])
  }

  ghost predicate SideLedger(period: nat, me: Side, cycles: seq<nat>, ticks: seq<nat>, starved: set<nat>)
    requires 0 < period
  {
    Ledger(period, me.delay / period, me.booked, me.done, cycles, ticks, starved, me.last)
  }

  ghost predicate LedgerHolds(clock: Clock, m: Machine, a: CoreId, b: CoreId)
    requires clock.Valid() && N.Shaped(m.net)
  {
    && (a, b) in m.net.sys.links && (a, b) in m.cycles && a in m.ticks && a in m.starved
    && SideLedger(clock.period, N.SideOf(m.net, a, b), m.cycles[(a, b)], m.ticks[a], m.starved[a])
  }

  /** A connection in one direction: the pair of sides is in order, the timer keeps its ticks, and the ledger holds. */
  ghost predicate DirectionOk(clock: Clock, cfgs: Configs, m: Machine, a: CoreId, b: CoreId)
    requires clock.Valid() && N.Shaped(m.net)
  {
    N.ConnectionOk(clock, m.net, a, b) && TimerHolds(clock, cfgs, m, a) && LedgerHolds(clock, m, a, b)
  }

  /** The side of the moving controller after its edge. */
  lemma ActOnSide(clock: Clock, r: N.Run, core: CoreId, want: seq<CoreId>, b: CoreId)
    requires clock.Valid() && N.Shaped(r) && core in r.last && (core, b) in r.sys.links && N.Act(clock, r, core, want).Ok?
    requires N.Shaped(N.Act(clock, r, core, want).value)
    ensures
      var now := r.last[core] + clock.period;
      var targets := N.Targets(r, core, want, now);
      var stepped := SideStep(N.SideOf(r, core, b), N.SideOf(r, b, core), now);
      var r' := N.Act(clock, r, core, want).value;
      && (core, b) in r'.sys.links && |targets| <= 1
      && N.SideOf(r', core, b) == (if targets == [b] then BookedAt(stepped, now) else stepped)
      && (targets == [b] ==> stepped.open.None?)
  {
    hide N.Shaped, N.StepPhase, N.BookPhase, N.SideOf, N.Targets, SideStep, Heard, BookedAt;
    var now := r.last[core] + clock.period;
    var targets := N.Targets(r, core, want, now);
    var mid := N.StepPhase(r, core, now);
    N.StepPhaseKeepsShape(r, core, now);
    N.StepPhaseOnSides(r, core, now, b);
    BookPhaseOnSide(clock, mid, core, targets, now, b);
  }

  lemma BookPhaseOnSide(clock: Clock, r: N.Run, core: CoreId, targets: seq<CoreId>, now: nat, b: CoreId)
    requires clock.Valid() && N.Shaped(r) && core in r.last && r.last[core] == now && (core, b) in r.sys.links
    requires N.BookPhase(clock, r, core, targets, now).Ok? && N.Shaped(N.BookPhase(clock, r, core, targets, now).value)
    ensures
      var r' := N.BookPhase(clock, r, core, targets, now).value;
      && (core, b) in r'.sys.links && |targets| <= 1
      && N.SideOf(r', core, b) == (if targets == [b] then BookedAt(N.SideOf(r, core, b), now) else N.SideOf(r, core, b))
      && (targets == [b] ==> N.SideOf(r, core, b).open.None?)
  {
    BookedTargets(clock, r, core, targets, now);
    if targets == [] {
      assert N.BookPhase(clock, r, core, targets, now).value.sys.pending == r.sys.pending;
    } else {
      var t := targets[0];
      assert targets == [t];
      hide N.BookPhase, BookedAt, N.Shaped;
      N.BookPhaseOnSides(clock, r, core, t, now);
      if t != b {
        N.BookPhaseElsewhere(clock, r, core, t, now, core, b);
      }
    }
  }

  lemma BookedTargets(clock: Clock, r: N.Run, core: CoreId, targets: seq<CoreId>, now: nat)
    requires clock.Valid() && N.Shaped(r) && core in r.last && N.BookPhase(clock, r, core, targets, now).Ok?
    ensures |targets| <= 1
  {
  }

  // ---- An edge of one controller ----

  /** The part of a side's step that the timer sees. */
  ghost predicate SideTimer(clock: Clock, me: Side, peer: Side, now: nat, grew: bool, supply: bool) {
    var s := SideStep(me, peer, now);
    var complete := |me.done| < |s.done|;
    && s.booked == me.booked && s.delay == me.delay && s.last == now
    && s.done == (if complete then me.done + [now] else me.done)
    && (me.open.Some? && me.booked != [] ==> me.open.value.deadline == me.booked[|me.booked| - 1] + me.delay)
    && TimerEdge(me.open.Some?, if me.open.Some? then me.open.value.deadline else 0, now, grew, supply, complete)
  }

  lemma StepSeenByTimer(clock: Clock, me: Side, peer: Side, now: nat, paused: bool, grew: bool, supply: bool)
    requires clock.Valid() && N.SidesOk(clock, me, peer) && now == me.last + clock.period
    requires (supply ==> !grew) && (me.open.Some? ==> grew == (!paused && !supply))
    requires me.open.Some? ==>
               var heard := me.open.value.received || FirstReady(peer.signals, now) < |peer.signals|;
               paused == (me.open.value.deadline <= now && !heard)
    ensures SideTimer(clock, me, peer, now, grew, supply)
  {
    hide SignalsOk, DoneOk, OnEdges, FirstReady;
  }

  /** The unit pauses the timer exactly while its open booking is due and unanswered. */
  lemma PauseOfSide(r: N.Run, core: CoreId, b: CoreId, now: nat)
    requires N.Shaped(r) && core in r.last && (core, b) in r.sys.links && (b, core) in r.sys.links
    ensures
      var me, peer := N.SideOf(r, core, b), N.SideOf(r, b, core);
      me.open.Some? ==>
        var heard := me.open.value.received || FirstReady(peer.signals, now) < |peer.signals|;
        StepUnit(r.sys.links, core, r.sys.pending[core], now).paused == (me.open.value.deadline <= now && !heard)
  {
    hide FirstReady, Consume;
  }

  lemma DeadlineIsAligned(clock: Clock, me: Side, peer: Side, now: nat)
    requires clock.Valid() && N.SidesOk(clock, me, peer) && now == me.last + clock.period
    ensures
      var n := me.delay / clock.period;
      && n * clock.period == me.delay && 0 < n
      && (me.booked != [] && me.last < me.booked[|me.booked| - 1] + n * clock.period
          ==> now <= me.booked[|me.booked| - 1] + n * clock.period)
  {
    hide SignalsOk, DoneOk, OpenOk, Alternates;
    var n := me.delay / clock.period;
    assert me.delay == n * clock.period;
    if n <= 0 {
      MulMonotone(clock.period, n, 0);
    }
    if me.booked != [] {
      var t := me.booked[|me.booked| - 1];
      EdgePlusCycles(clock, t, n);
      if me.last < t + n * clock.period {
        EdgeGap(clock, me.last, t + n * clock.period);
      }
    }
  }

  /** The step of the side and of the timer keep the ledger. */
  lemma StepKeepsLedger(clock: Clock, me: Side, peer: Side, cycles: seq<nat>, ticks: seq<nat>, starved: set<nat>, now: nat,
                        grew: bool, supply: bool)
    requires clock.Valid() && N.SidesOk(clock, me, peer) && now == me.last + clock.period
    requires SideLedger(clock.period, me, cycles, ticks, starved) && SideTimer(clock, me, peer, now, grew, supply)
    ensures SideLedger(clock.period, SideStep(me, peer, now), cycles,
                       if grew then ticks + [now] else ticks, if supply then starved + {now} else starved)
  {
    DeadlineIsAligned(clock, me, peer, now);
    OpenIsUndone(clock, me, peer);
    hide SideStep, N.SidesOk, Ledger;
    var s := SideStep(me, peer, now);
    LedgerTicks(clock.period, me.delay / clock.period, me.booked, me.done, cycles, ticks, starved, me.last, now,
                grew, supply, |me.done| < |s.done|);
  }

  lemma OpenIsUndone(clock: Clock, me: Side, peer: Side)
    requires clock.Valid() && N.SidesOk(clock, me, peer)
    ensures me.open.Some? <==> |me.done| < |me.booked|
    ensures |me.booked| <= |me.done| + 1
  {
    hide SignalsOk, DoneOk, OpenOk, OnEdges;
  }

  /** What the edge of `core` records: whether the timer counted it, whether it was starved, and what fired. */
  datatype Edge = Edge(now: nat, paused: bool, supply: bool, grew: bool, targets: seq<CoreId>)

  function EdgeOf(clock: Clock, cfgs: Configs, m: Machine, core: CoreId, arrival: Arrival): Edge
    requires clock.Valid() && N.Shaped(m.net) && Equipped(clock, cfgs, m, core) && Move(clock, cfgs, m, core, arrival).Ok?
  {
    var offered := Offered(clock, m, core, arrival.input);
    EdgeBetween(cfgs[core], m.tcus[core], R.Advance(cfgs[core], m.tcus[core], offered).value, offered.synchronizationPaused)
  }

  function EdgeBetween(cfg: TcuConfig, before: R.Run, after: R.Run, paused: bool): Edge
    requires cfg.Valid()
  {
    Edge(before.next, paused, CurrentTimingState(cfg, before.tcu, before.next, paused).pause.supply, before.cycle < after.cycle,
         FiredTargets(before, after))
  }

  lemma MoveShape(clock: Clock, cfgs: Configs, m: Machine, core: CoreId, arrival: Arrival)
    requires clock.Valid() && N.Shaped(m.net) && Equipped(clock, cfgs, m, core) && Move(clock, cfgs, m, core, arrival).Ok?
    ensures
      var m', e := Move(clock, cfgs, m, core, arrival).value, EdgeOf(clock, cfgs, m, core, arrival);
      var offered := Offered(clock, m, core, arrival.input);
      && R.Advance(cfgs[core], m.tcus[core], offered).Ok? && m.tcus[core].next == e.now <= MAX_TICK
      && e == EdgeBetween(cfgs[core], m.tcus[core], R.Advance(cfgs[core], m.tcus[core], offered).value, offered.synchronizationPaused)
      && e.paused == offered.synchronizationPaused
      && e.paused == StepUnit(m.net.sys.links, core, m.net.sys.pending[core], m.net.last[core] + clock.period).paused
      && N.Act(clock, m.net, core, e.targets) == Ok(m'.net)
      && Ended(R.Advance(cfgs[core], m.tcus[core], offered).value, arrival.end).Ok?
      && m'.tcus == m.tcus[core := Ended(R.Advance(cfgs[core], m.tcus[core], offered).value, arrival.end).value]
      && m'.ticks == m.ticks[core := if e.grew then m.ticks[core] + [e.now] else m.ticks[core]]
      && m'.starved == m.starved[core := if e.supply then m.starved[core] + {e.now} else m.starved[core]]
      && m'.cycles == (if e.targets != [] && (core, e.targets[0]) in m.cycles
                       then m.cycles[(core, e.targets[0]) := m.cycles[(core, e.targets[0])] + [m.tcus[core].cycle]] else m.cycles)
  {
    hide R.Advance, N.Act, FiredTargets, CurrentTimingState, N.Shaped, Ended;
  }

  /** The end of the stream leaves the timer's history alone. */
  lemma EndedKeepsTimer(cfg: TcuConfig, run: R.Run, end: Option<nat>, ticks: seq<nat>, last: nat)
    requires cfg.Valid() && TimerOk(cfg, run, ticks, last) && Ended(run, end).Ok?
    ensures
      var r' := Ended(run, end).value;
      && TimerOk(cfg, r', ticks, last) && r'.fired == run.fired && r'.admitted == run.admitted
  {
    hide R.RunOk;
    if end.Some? {
      R.ClosureKeepsRun(cfg, run);
    }
  }

  lemma EdgeKeepsTimer(cfg: TcuConfig, r: R.Run, input: Input, ticks: seq<nat>, last: nat)
    requires cfg.Valid() && TimerOk(cfg, r, ticks, last) && r.next <= MAX_TICK && R.Advance(cfg, r, input).Ok?
    ensures
      var r' := R.Advance(cfg, r, input).value;
      var e := EdgeBetween(cfg, r, r', input.synchronizationPaused);
      && TimerOk(cfg, r', if e.grew then ticks + [e.now] else ticks, e.now) && e.now == r.next == last + cfg.clock.period
      && (e.supply ==> !e.grew) && (ticks != [] ==> e.grew == (!e.paused && !e.supply))
      && (e.targets != [] ==> !e.paused && e.grew) && |ticks| == r.cycle && e.paused == input.synchronizationPaused
  {
    hide R.RunOk, R.Advance, CurrentTimingState;
    AdvanceTimer(cfg, r, input);
    StartedFacts(cfg, r, input);
    TimerAdvances(cfg, r, input, ticks, last);
  }

  /** The timer keeps its ticks, and what it fires, it fires unpaused. */
  lemma MoveKeepsTimer(clock: Clock, cfgs: Configs, m: Machine, core: CoreId, arrival: Arrival)
    requires clock.Valid() && N.Shaped(m.net) && TimerHolds(clock, cfgs, m, core) && Move(clock, cfgs, m, core, arrival).Ok?
    ensures
      var m', e := Move(clock, cfgs, m, core, arrival).value, EdgeOf(clock, cfgs, m, core, arrival);
      && TimerHolds(clock, cfgs, m', core) && e.now == m.net.last[core] + clock.period
      && (e.supply ==> !e.grew) && (m.ticks[core] != [] ==> e.grew == (!e.paused && !e.supply))
      && (e.targets != [] ==> !e.paused && e.grew) && |m.ticks[core]| == m.tcus[core].cycle
  {
    hide TimerOk, R.Advance, N.Act, N.Shaped, Move, Offered, EdgeOf, EdgeBetween, StepUnit, Ended;
    MoveShape(clock, cfgs, m, core, arrival);
    var offered := Offered(clock, m, core, arrival.input);
    ActMovesOn(clock, m.net, core, EdgeOf(clock, cfgs, m, core, arrival).targets);
    EdgeKeepsTimer(cfgs[core], m.tcus[core], offered, m.ticks[core], m.net.last[core]);
    var e := EdgeOf(clock, cfgs, m, core, arrival);
    EndedKeepsTimer(cfgs[core], R.Advance(cfgs[core], m.tcus[core], offered).value, arrival.end,
                    if e.grew then m.ticks[core] + [e.now] else m.ticks[core], e.now);
  }

  lemma ActMovesOn(clock: Clock, r: N.Run, core: CoreId, want: seq<CoreId>)
    requires clock.Valid() && N.Shaped(r) && core in r.last && N.Act(clock, r, core, want).Ok?
    ensures N.Shaped(N.Act(clock, r, core, want).value) && N.Act(clock, r, core, want).value.last == r.last[core := r.last[core] + clock.period]
  {
    hide N.Shaped, N.StepPhase, N.BookPhase, N.Targets;
    var now := r.last[core] + clock.period;
    N.StepPhaseKeepsShape(r, core, now);
    N.BookPhaseKeepsShape(clock, N.StepPhase(r, core, now), core, N.Targets(r, core, want, now), now);
  }

  // ---- What an edge does to the ledgers ----

  lemma OpenHasCounted(clock: Clock, me: Side, peer: Side, cycles: seq<nat>, ticks: seq<nat>, starved: set<nat>)
    requires clock.Valid() && N.SidesOk(clock, me, peer) && SideLedger(clock.period, me, cycles, ticks, starved)
    ensures me.open.Some? ==> ticks != []
  {
    OpenIsUndone(clock, me, peer);
    hide N.SidesOk, OpenLedger, Quiet;
  }

  lemma BookingKeepsLedger(clock: Clock, me: Side, peer: Side, cycles: seq<nat>, ticks: seq<nat>, starved: set<nat>, now: nat)
    requires clock.Valid() && N.SidesOk(clock, me, peer) && now == me.last + clock.period
    requires
      var s := SideStep(me, peer, now);
      s.open.None? && SideLedger(clock.period, s, cycles, ticks, starved)
    requires ticks != [] && ticks[|ticks| - 1] == now
    ensures SideLedger(clock.period, BookedAt(SideStep(me, peer, now), now), cycles + [|ticks| - 1], ticks, starved)
  {
    DeadlineIsAligned(clock, me, peer, now);
    OpenIsUndone(clock, me, peer);
    hide N.SidesOk, Ledger, FirstReady, Live;
    var s := SideStep(me, peer, now);
    assert s.last == now && s.delay == me.delay && |s.done| == |s.booked|;
    LedgerBooks(clock.period, me.delay / clock.period, s.booked, s.done, cycles, ticks, starved, now);
  }

  /** What an edge makes of one side, from the network and from the timer. */
  ghost predicate SideEdge(clock: Clock, me: Side, peer: Side, me': Side, e: Edge, b: CoreId, ticks: seq<nat>)
    requires clock.Valid()
  {
    && e.now == me.last + clock.period
    && (e.supply ==> !e.grew) && (ticks != [] ==> e.grew == (!e.paused && !e.supply)) && (e.targets != [] ==> e.grew)
    && (me.open.Some? ==>
          var heard := me.open.value.received || FirstReady(peer.signals, e.now) < |peer.signals|;
          e.paused == (me.open.value.deadline <= e.now && !heard))
    && me' == (if e.targets == [b] then BookedAt(SideStep(me, peer, e.now), e.now) else SideStep(me, peer, e.now))
    && (e.targets == [b] ==> SideStep(me, peer, e.now).open.None?)
  }

  lemma SideEdgeKeepsLedger(clock: Clock, me: Side, peer: Side, me': Side, e: Edge, b: CoreId,
                            cycles: seq<nat>, ticks: seq<nat>, starved: set<nat>)
    requires clock.Valid() && N.SidesOk(clock, me, peer) && SideLedger(clock.period, me, cycles, ticks, starved)
    requires SideEdge(clock, me, peer, me', e, b, ticks)
    ensures SideLedger(clock.period, me', if e.targets == [b] then cycles + [|ticks|] else cycles,
                       if e.grew then ticks + [e.now] else ticks, if e.supply then starved + {e.now} else starved)
  {
    hide N.SidesOk, SideLedger, SideStep, BookedAt, SideTimer;
    OpenHasCounted(clock, me, peer, cycles, ticks, starved);
    StepSeenByTimer(clock, me, peer, e.now, e.paused, e.grew, e.supply);
    StepKeepsLedger(clock, me, peer, cycles, ticks, starved, e.now, e.grew, e.supply);
    if e.targets == [b] {
      BookingKeepsLedger(clock, me, peer, cycles, ticks + [e.now], starved, e.now);
    }
  }

  lemma MoveIsSideEdge(clock: Clock, cfgs: Configs, m: Machine, a: CoreId, b: CoreId, arrival: Arrival)
    requires clock.Valid() && N.Shaped(m.net) && TimerHolds(clock, cfgs, m, a) && Equipped(clock, cfgs, m, a)
    requires (a, b) in m.net.sys.links && (b, a) in m.net.sys.links && Move(clock, cfgs, m, a, arrival).Ok?
    requires N.Shaped(Move(clock, cfgs, m, a, arrival).value.net)
    ensures
      var m', e := Move(clock, cfgs, m, a, arrival).value, EdgeOf(clock, cfgs, m, a, arrival);
      && (a, b) in m'.net.sys.links
      && SideEdge(clock, N.SideOf(m.net, a, b), N.SideOf(m.net, b, a), N.SideOf(m'.net, a, b), e, b, m.ticks[a])
  {
    hide N.Shaped, N.SidesOk, N.SideOf, Move, EdgeOf, N.Act, StepUnit, SideStep, BookedAt, TimerHolds, R.Advance,
      Offered;
    var e := EdgeOf(clock, cfgs, m, a, arrival);
    MoveShape(clock, cfgs, m, a, arrival);
    MoveKeepsTimer(clock, cfgs, m, a, arrival);
    SideLast(m.net, a, b);
    PauseOfSide(m.net, a, b, e.now);
    ActOnSide(clock, m.net, a, e.targets, b);
  }

  lemma OwnHistory(clock: Clock, cfgs: Configs, m: Machine, a: CoreId, b: CoreId, arrival: Arrival)
    requires clock.Valid() && N.Shaped(m.net) && TimerHolds(clock, cfgs, m, a) && Equipped(clock, cfgs, m, a)
    requires (a, b) in m.cycles && Move(clock, cfgs, m, a, arrival).Ok?
    ensures
      var m', e := Move(clock, cfgs, m, a, arrival).value, EdgeOf(clock, cfgs, m, a, arrival);
      && (a, b) in m'.cycles && a in m'.ticks && a in m'.starved
      && m'.ticks[a] == (if e.grew then m.ticks[a] + [e.now] else m.ticks[a])
      && m'.starved[a] == (if e.supply then m.starved[a] + {e.now} else m.starved[a])
      && (|e.targets| <= 1 ==>
            m'.cycles[(a, b)] == if e.targets == [b] then m.cycles[(a, b)] + [|m.ticks[a]|] else m.cycles[(a, b)])
  {
    hide N.Shaped, Move, EdgeOf, N.Act, TimerHolds, R.Advance, Offered;
    MoveShape(clock, cfgs, m, a, arrival);
    MoveKeepsTimer(clock, cfgs, m, a, arrival);
  }

  lemma MoveKeepsOwnLedger(clock: Clock, cfgs: Configs, m: Machine, a: CoreId, b: CoreId, arrival: Arrival)
    requires clock.Valid() && N.Shaped(m.net) && DirectionOk(clock, cfgs, m, a, b) && Equipped(clock, cfgs, m, a)
    requires Move(clock, cfgs, m, a, arrival).Ok? && N.Shaped(Move(clock, cfgs, m, a, arrival).value.net)
    ensures LedgerHolds(clock, Move(clock, cfgs, m, a, arrival).value, a, b)
  {
    hide N.Shaped, N.SidesOk, N.SideOf, Move, EdgeOf, SideLedger, TimerHolds, SideEdge;
    MoveIsSideEdge(clock, cfgs, m, a, b, arrival);
    OwnHistory(clock, cfgs, m, a, b, arrival);
    var e, m' := EdgeOf(clock, cfgs, m, a, arrival), Move(clock, cfgs, m, a, arrival).value;
    SideEdgeKeepsLedger(clock, N.SideOf(m.net, a, b), N.SideOf(m.net, b, a), N.SideOf(m'.net, a, b), e, b,
                        m.cycles[(a, b)], m.ticks[a], m.starved[a]);
    FewTargets(clock, cfgs, m, a, arrival);
  }

  lemma FewTargets(clock: Clock, cfgs: Configs, m: Machine, a: CoreId, arrival: Arrival)
    requires clock.Valid() && N.Shaped(m.net) && TimerHolds(clock, cfgs, m, a) && Equipped(clock, cfgs, m, a)
    requires Move(clock, cfgs, m, a, arrival).Ok?
    ensures |EdgeOf(clock, cfgs, m, a, arrival).targets| <= 1
  {
    hide N.Shaped, Move, EdgeOf, TimerHolds, R.Advance, Offered, N.StepPhase, N.BookPhase;
    MoveShape(clock, cfgs, m, a, arrival);
    MoveKeepsTimer(clock, cfgs, m, a, arrival);
    var now := m.net.last[a] + clock.period;
    N.StepPhaseKeepsShape(m.net, a, now);
    BookedTargets(clock, N.StepPhase(m.net, a, now), a, N.Targets(m.net, a, EdgeOf(clock, cfgs, m, a, arrival).targets, now), now);
  }

  lemma SideLast(r: N.Run, a: CoreId, b: CoreId)
    requires N.Shaped(r) && (a, b) in r.sys.links
    ensures N.SideOf(r, a, b).last == r.last[a]
  {
  }

  /** Another controller's edge leaves this direction's history and link delay alone. */
  lemma ActElsewhere(clock: Clock, r: N.Run, core: CoreId, want: seq<CoreId>, a: CoreId, b: CoreId)
    requires clock.Valid() && N.Shaped(r) && core in r.last && (a, b) in r.sys.links && N.Act(clock, r, core, want).Ok? && a != core
    requires N.Shaped(N.Act(clock, r, core, want).value)
    ensures
      var r' := N.Act(clock, r, core, want).value;
      && (a, b) in r'.sys.links && r'.booked[(a, b)] == r.booked[(a, b)] && r'.done[(a, b)] == r.done[(a, b)]
      && r'.sys.links[(a, b)].delay == r.sys.links[(a, b)].delay && r'.last[a] == r.last[a]
  {
    hide N.Targets, N.Shaped, N.StepPhase, N.BookPhase;
    var now := r.last[core] + clock.period;
    var mid := N.StepPhase(r, core, now);
    N.StepPhaseKeepsShape(r, core, now);
    StepElsewhere(r, core, now, a, b);
    BookElsewhere(clock, mid, core, N.Targets(r, core, want, now), now, a, b);
  }

  lemma StepElsewhere(r: N.Run, core: CoreId, now: nat, a: CoreId, b: CoreId)
    requires N.Shaped(r) && core in r.last && (a, b) in r.sys.links && a != core && N.Shaped(N.StepPhase(r, core, now))
    ensures
      var r' := N.StepPhase(r, core, now);
      && (a, b) in r'.sys.links && r'.booked[(a, b)] == r.booked[(a, b)] && r'.done[(a, b)] == r.done[(a, b)]
      && r'.sys.links[(a, b)].delay == r.sys.links[(a, b)].delay && r'.last[a] == r.last[a]
  {
    hide Consume, FirstReady;
  }

  lemma BookElsewhere(clock: Clock, r: N.Run, core: CoreId, targets: seq<CoreId>, now: nat, a: CoreId, b: CoreId)
    requires clock.Valid() && N.Shaped(r) && core in r.last && (a, b) in r.sys.links && a != core
    requires N.BookPhase(clock, r, core, targets, now).Ok? && N.Shaped(N.BookPhase(clock, r, core, targets, now).value)
    ensures
      var r' := N.BookPhase(clock, r, core, targets, now).value;
      && (a, b) in r'.sys.links && r'.booked[(a, b)] == r.booked[(a, b)] && r'.done[(a, b)] == r.done[(a, b)]
      && r'.sys.links[(a, b)].delay == r.sys.links[(a, b)].delay && r'.last[a] == r.last[a]
  {
    BookedTargets(clock, r, core, targets, now);
    if targets == [] {
      hide Live, CheckedAdd, Clock.Edge;
      assert N.BookPhase(clock, r, core, targets, now).value.booked == r.booked;
    } else {
      assert targets == [targets[0]];
      hide N.BookPhase, N.Shaped;
      N.BookPhaseElsewhere(clock, r, core, targets[0], now, a, b);
      LastUnmoved(clock, r, core, targets, now);
      SideParts(r, a, b);
      SideParts(N.BookPhase(clock, r, core, targets, now).value, a, b);
      hide N.SideOf;
    }
  }

  lemma LastUnmoved(clock: Clock, r: N.Run, core: CoreId, targets: seq<CoreId>, now: nat)
    requires clock.Valid() && N.Shaped(r) && core in r.last && N.BookPhase(clock, r, core, targets, now).Ok?
    ensures N.BookPhase(clock, r, core, targets, now).value.last == r.last
  {
    hide N.Shaped, Book;
  }

  lemma SideParts(r: N.Run, a: CoreId, b: CoreId)
    requires N.Shaped(r) && (a, b) in r.sys.links
    ensures (a, b) in r.booked && (a, b) in r.done && a in r.last
    ensures
      var side := N.SideOf(r, a, b);
      side.booked == r.booked[(a, b)] && side.done == r.done[(a, b)] && side.delay == r.sys.links[(a, b)].delay && side.last == r.last[a]
  {
  }

  lemma MoveKeepsOthers(clock: Clock, cfgs: Configs, m: Machine, core: CoreId, arrival: Arrival, a: CoreId, b: CoreId)
    requires clock.Valid() && N.Shaped(m.net) && DirectionOk(clock, cfgs, m, a, b) && Equipped(clock, cfgs, m, core) && a != core
    requires Move(clock, cfgs, m, core, arrival).Ok? && N.Shaped(Move(clock, cfgs, m, core, arrival).value.net)
    ensures
      var m' := Move(clock, cfgs, m, core, arrival).value;
      TimerHolds(clock, cfgs, m', a) && LedgerHolds(clock, m', a, b)
  {
    hide N.Shaped, N.SidesOk, Move, EdgeOf, N.Act, StepUnit, Ledger, TimerOk, R.Advance, Offered, N.ConnectionOk;
    MoveShape(clock, cfgs, m, core, arrival);
    var e := EdgeOf(clock, cfgs, m, core, arrival);
    ActElsewhere(clock, m.net, core, e.targets, a, b);
    ActMovesOn(clock, m.net, core, e.targets);
  }

  /** Every edge of every controller keeps both directions of a connection. */
  lemma MoveKeepsDirection(clock: Clock, cfgs: Configs, m: Machine, core: CoreId, arrival: Arrival, a: CoreId, b: CoreId)
    requires clock.Valid() && N.Shaped(m.net) && N.Behind(m.net, core) && N.InStep(clock, m.net)
    requires Equipped(clock, cfgs, m, core) && DirectionOk(clock, cfgs, m, a, b) && Move(clock, cfgs, m, core, arrival).Ok?
    ensures
      var m' := Move(clock, cfgs, m, core, arrival).value;
      N.Shaped(m'.net) && N.InStep(clock, m'.net) && DirectionOk(clock, cfgs, m', a, b)
  {
    assert core in m.net.last;
    hide N.Shaped, N.InStep, N.Behind, Move, EdgeOf, N.Act, LedgerHolds, TimerHolds, Equipped, N.ConnectionOk;
    var e, m' := EdgeOf(clock, cfgs, m, core, arrival), Move(clock, cfgs, m, core, arrival).value;
    MoveShape(clock, cfgs, m, core, arrival);
    ActMovesOn(clock, m.net, core, e.targets);
    N.ActKeepsConnection(clock, m.net, core, e.targets, a, b);
    N.ActKeepsInStep(clock, m.net, core, e.targets);
    if core == a {
      assert TimerHolds(clock, cfgs, m, a);
      MoveKeepsTimer(clock, cfgs, m, a, arrival);
      MoveKeepsOwnLedger(clock, cfgs, m, a, b, arrival);
    } else {
      MoveKeepsOthers(clock, cfgs, m, core, arrival, a, b);
    }
  }

  // ---- The points that book ----

  /** A fired point that is due at this cycle asks for a synchronization with b. */
  ghost predicate Asks(run: R.Run, b: CoreId, due: nat) {
    exists i :: 0 <= i < |run.fired| && i < |run.admitted| && run.admitted[i].due == due
                && b in run.admitted[i].request.point.synchronizations
  }

  /** Every booking of b was asked for by a fired point that is due at its cycle. */
  ghost predicate AskedBy(run: R.Run, b: CoreId, cycles: seq<nat>) {
    forall k | 0 <= k < |cycles| :: Asks(run, b, cycles[k])
  }

  ghost predicate BookingsAsked(m: Machine, a: CoreId, b: CoreId) {
    a in m.tcus && (a, b) in m.cycles && AskedBy(m.tcus[a], b, m.cycles[(a, b)])
  }

  lemma StillAsks(r: R.Run, r': R.Run, b: CoreId, due: nat)
    requires Asks(r, b, due) && |r.admitted| <= |r'.admitted| && r'.admitted[..|r.admitted|] == r.admitted && |r.fired| <= |r'.fired|
    ensures Asks(r', b, due)
  {
    var i :| 0 <= i < |r.fired| && i < |r.admitted| && r.admitted[i].due == due && b in r.admitted[i].request.point.synchronizations;
    assert r'.admitted[i] == r'.admitted[..|r.admitted|][i];
  }

  /** A point that fires at this edge is due at the timer's cycle and has the synchronizations that are booked. */
  lemma FiredAsks(cfg: TcuConfig, r: R.Run, input: Input, b: CoreId)
    requires cfg.Valid() && R.RunOk(cfg, r) && r.next <= MAX_TICK && R.Advance(cfg, r, input).Ok?
    ensures
      var r' := R.Advance(cfg, r, input).value;
      && |r.admitted| <= |r'.admitted| && r'.admitted[..|r.admitted|] == r.admitted && |r.fired| <= |r'.fired|
      && (b in FiredTargets(r, r') ==> Asks(r', b, r.cycle))
  {
    hide R.RunOk, R.Advance, CurrentTimingState;
    AdvanceTimer(cfg, r, input);
    var r' := R.Advance(cfg, r, input).value;
    if b in FiredTargets(r, r') {
      assert r'.admitted[|r.fired|] == r'.admitted[..|r.admitted|][|r.fired|];
    }
  }

  lemma MoveKeepsAsked(clock: Clock, cfgs: Configs, m: Machine, core: CoreId, arrival: Arrival, a: CoreId, b: CoreId)
    requires clock.Valid() && N.Shaped(m.net) && Equipped(clock, cfgs, m, core) && TimerHolds(clock, cfgs, m, a)
    requires Move(clock, cfgs, m, core, arrival).Ok? && BookingsAsked(m, a, b)
    ensures BookingsAsked(Move(clock, cfgs, m, core, arrival).value, a, b)
  {
    hide N.Shaped, Move, EdgeOf, N.Act, R.Advance, Offered, AskedBy, StepUnit, TimerOk, Ended, FiredTargets, CurrentTimingState;
    MoveShape(clock, cfgs, m, core, arrival);
    if core == a {
      var e, offered := EdgeOf(clock, cfgs, m, a, arrival), Offered(clock, m, a, arrival.input);
      OwnAsked(cfgs[a], m.tcus[a], offered, arrival.end, m.ticks[a], m.net.last[a], b, m.cycles[(a, b)]);
    }
  }

  lemma StillAsked(r: R.Run, r': R.Run, b: CoreId, cycles: seq<nat>)
    requires AskedBy(r, b, cycles) && |r.admitted| <= |r'.admitted| && r'.admitted[..|r.admitted|] == r.admitted && |r.fired| <= |r'.fired|
    ensures AskedBy(r', b, cycles)
  {
    hide Asks;
    forall k | 0 <= k < |cycles|
      ensures Asks(r', b, cycles[k])
    {
      assert Asks(r, b, cycles[k]);
      StillAsks(r, r', b, cycles[k]);
    }
  }

  lemma OwnAsked(cfg: TcuConfig, r: R.Run, input: Input, end: Option<nat>, ticks: seq<nat>, last: nat, b: CoreId, cycles: seq<nat>)
    requires cfg.Valid() && TimerOk(cfg, r, ticks, last) && r.next <= MAX_TICK && R.Advance(cfg, r, input).Ok?
    requires Ended(R.Advance(cfg, r, input).value, end).Ok? && AskedBy(r, b, cycles)
    ensures
      var r' := R.Advance(cfg, r, input).value;
      && AskedBy(Ended(r', end).value, b, cycles)
      && (b in FiredTargets(r, r') ==> AskedBy(Ended(r', end).value, b, cycles + [r.cycle]))
  {
    TimerIsRun(cfg, r, ticks, last);
    hide R.Advance, TimerOk, R.RunOk, FiredTargets, CurrentTimingState;
    FiredAsks(cfg, r, input, b);
    var r' := R.Advance(cfg, r, input).value;
    EndedIsAside(r', end);
    var closed := Ended(r', end).value;
    StillAsked(r, closed, b, cycles);
    if b in FiredTargets(r, r') {
      StillAsks(r', closed, b, r.cycle);
      hide Ended, Asks;
    }
  }

  lemma TimerIsRun(cfg: TcuConfig, r: R.Run, ticks: seq<nat>, last: nat)
    requires cfg.Valid() && TimerOk(cfg, r, ticks, last)
    ensures R.RunOk(cfg, r)
  {
    hide R.RunOk;
  }

  lemma EndedIsAside(r: R.Run, end: Option<nat>)
    requires Ended(r, end).Ok?
    ensures Ended(r, end).value.fired == r.fired && Ended(r, end).value.admitted == r.admitted
    ensures r.admitted[..|r.admitted|] == r.admitted
  {
  }

  // ---- Whole runs ----

  /** A schedule: which controller takes its next edge, and what its TCU receives there. */
  function RunAll(clock: Clock, cfgs: Configs, m: Machine, schedule: seq<(CoreId, Arrival)>): (result: Result<Machine>)
    requires clock.Valid() && N.Shaped(m.net)
    ensures result.Ok? ==> N.Shaped(result.value.net)
    decreases |schedule|
  {
    if schedule == [] then Ok(m)
    else
      var (core, arrival) := schedule[0];
      if core !in m.net.last || exists y :: y in m.net.last && m.net.last[y] < m.net.last[core] then Err(ErrorCode.Protocol)
      else if !(core in cfgs && core in m.tcus && core in m.ticks && core in m.starved && cfgs[core].Valid() && cfgs[core].clock == clock)
      then Err(InvalidProfile)
      else
        var next :- Move(clock, cfgs, m, core, arrival);
        assert N.Shaped(next.net) by {
          MoveShape(clock, cfgs, m, core, arrival);
          ActMovesOn(clock, m.net, core, EdgeOf(clock, cfgs, m, core, arrival).targets);
        }
        RunAll(clock, cfgs, next, schedule[1..])
  }

  /** A reset machine: an idle network, empty TCUs at their first edge, and no history. */
  ghost predicate Initial(clock: Clock, cfgs: Configs, m: Machine, edge: nat)
    requires clock.Valid()
  {
    && N.Initial(clock, m.net, edge)
    && (forall x | x in m.net.last ::
          && Equipped(clock, cfgs, m, x) && edge + clock.period <= cfgs[x].start
          && m.tcus[x] == R.Begin(cfgs[x], edge + clock.period) && m.ticks[x] == [] && m.starved[x] == {})
    && (forall key | key in m.net.sys.links :: key in m.cycles && m.cycles[key] == [])
  }

  lemma InitialIsOk(clock: Clock, cfgs: Configs, m: Machine, edge: nat, a: CoreId, b: CoreId)
    requires clock.Valid() && Initial(clock, cfgs, m, edge) && (a, b) in m.net.sys.links
    ensures N.Shaped(m.net) && N.InStep(clock, m.net) && DirectionOk(clock, cfgs, m, a, b)
  {
    N.InitialIsOk(clock, m.net, edge, a, b);
    assert a in m.net.last;
    NextEdge(clock, edge);
    R.BeginIsOk(cfgs[a], edge + clock.period);
    hide R.RunOk, N.ConnectionOk;
  }

  lemma {:induction false} RunsKeepDirection(clock: Clock, cfgs: Configs, m: Machine, schedule: seq<(CoreId, Arrival)>, a: CoreId, b: CoreId)
    requires clock.Valid() && N.Shaped(m.net) && N.InStep(clock, m.net) && DirectionOk(clock, cfgs, m, a, b)
    requires RunAll(clock, cfgs, m, schedule).Ok?
    ensures DirectionOk(clock, cfgs, RunAll(clock, cfgs, m, schedule).value, a, b)
    decreases |schedule|
  {
    if schedule != [] {
      var (core, arrival) := schedule[0];
      assert N.Behind(m.net, core) && Equipped(clock, cfgs, m, core);
      hide N.Shaped, N.InStep, N.Behind, DirectionOk, Move, Equipped;
      MoveKeepsDirection(clock, cfgs, m, core, arrival, a, b);
      RunsKeepDirection(clock, cfgs, Move(clock, cfgs, m, core, arrival).value, schedule[1..], a, b);
    }
  }

  lemma {:induction false} RunsKeepAsked(clock: Clock, cfgs: Configs, m: Machine, schedule: seq<(CoreId, Arrival)>, a: CoreId, b: CoreId)
    requires clock.Valid() && N.Shaped(m.net) && N.InStep(clock, m.net) && DirectionOk(clock, cfgs, m, a, b) && BookingsAsked(m, a, b)
    requires RunAll(clock, cfgs, m, schedule).Ok?
    ensures BookingsAsked(RunAll(clock, cfgs, m, schedule).value, a, b)
    decreases |schedule|
  {
    if schedule != [] {
      var (core, arrival) := schedule[0];
      assert N.Behind(m.net, core) && Equipped(clock, cfgs, m, core);
      assert TimerHolds(clock, cfgs, m, a);
      hide N.Shaped, N.InStep, N.Behind, DirectionOk, Move, Equipped, BookingsAsked, TimerHolds;
      MoveKeepsDirection(clock, cfgs, m, core, arrival, a, b);
      MoveKeepsAsked(clock, cfgs, m, core, arrival, a, b);
      RunsKeepAsked(clock, cfgs, Move(clock, cfgs, m, core, arrival).value, schedule[1..], a, b);
    }
  }

  lemma {:induction false} RunsKeepLinks(clock: Clock, cfgs: Configs, m: Machine, schedule: seq<(CoreId, Arrival)>, key: N.Connection)
    requires clock.Valid() && N.Shaped(m.net) && RunAll(clock, cfgs, m, schedule).Ok?
    requires key in RunAll(clock, cfgs, m, schedule).value.net.sys.links
    ensures key in m.net.sys.links
    decreases |schedule|
  {
    if schedule != [] {
      var (core, arrival) := schedule[0];
      assert core in m.net.last && Equipped(clock, cfgs, m, core);
      MoveShape(clock, cfgs, m, core, arrival);
      hide N.Shaped, Move, Equipped;
      N.ActKeepsShape(clock, m.net, core, EdgeOf(clock, cfgs, m, core, arrival).targets);
      RunsKeepLinks(clock, cfgs, Move(clock, cfgs, m, core, arrival).value, schedule[1..], key);
    }
  }

  lemma Reached(clock: Clock, cfgs: Configs, start: Machine, edge: nat, schedule: seq<(CoreId, Arrival)>, a: CoreId, b: CoreId)
    requires clock.Valid() && Initial(clock, cfgs, start, edge) && RunAll(clock, cfgs, start, schedule).Ok?
    requires (a, b) in RunAll(clock, cfgs, start, schedule).value.net.sys.links
    ensures DirectionOk(clock, cfgs, RunAll(clock, cfgs, start, schedule).value, a, b)
    ensures BookingsAsked(RunAll(clock, cfgs, start, schedule).value, a, b)
  {
    hide RunAll, DirectionOk, N.Shaped, N.InStep, BookingsAsked;
    InitialNet(clock, cfgs, start, edge);
    hide Initial;
    RunsKeepLinks(clock, cfgs, start, schedule, (a, b));
    InitialIsOk(clock, cfgs, start, edge, a, b);
    NothingAsked(clock, cfgs, start, edge, a, b);
    RunsKeepDirection(clock, cfgs, start, schedule, a, b);
    RunsKeepAsked(clock, cfgs, start, schedule, a, b);
  }

  lemma NothingAsked(clock: Clock, cfgs: Configs, m: Machine, edge: nat, a: CoreId, b: CoreId)
    requires clock.Valid() && Initial(clock, cfgs, m, edge) && (a, b) in m.net.sys.links && N.Shaped(m.net)
    ensures BookingsAsked(m, a, b)
  {
    assert a in m.net.last;
    hide N.Initial;
  }

  lemma InitialNet(clock: Clock, cfgs: Configs, m: Machine, edge: nat)
    requires clock.Valid() && Initial(clock, cfgs, m, edge)
    ensures N.Shaped(m.net)
  {
  }

  /** The cycle one outgoing delay after a booking is counted at the booking's completion. */
  lemma DelayedCycle(period: nat, me: Side, cycles: seq<nat>, ticks: seq<nat>, starved: set<nat>, k: nat)
    requires 0 < period && SideLedger(period, me, cycles, ticks, starved)
    requires k < |me.done| && k < |me.booked| && Quiet(starved, me.booked[k], me.done[k])
    ensures k < |cycles| && cycles[k] < |ticks| && ticks[cycles[k]] == me.booked[k]
    ensures cycles[k] + me.delay / period < |ticks| && ticks[cycles[k] + me.delay / period] == me.done[k]
  {
    hide Quiet, OpenLedger;
  }

  lemma BookedCycle(period: nat, me: Side, cycles: seq<nat>, ticks: seq<nat>, starved: set<nat>, k: nat)
    requires 0 < period && SideLedger(period, me, cycles, ticks, starved) && k < |me.booked|
    ensures k < |cycles| && cycles[k] < |ticks| && ticks[cycles[k]] == me.booked[k]
  {
    hide Quiet, OpenLedger;
  }

  /** A point fires at the tick of its due cycle. */
  lemma FiresAtItsCycle(cfg: TcuConfig, run: R.Run, ticks: seq<nat>, last: nat, i: nat)
    requires cfg.Valid() && TimerOk(cfg, run, ticks, last) && i < |run.fired|
    ensures i < |run.admitted| && run.admitted[i].due < |ticks| && run.fired[i].tick == ticks[run.admitted[i].due]
  {
    hide R.RunOk;
  }

  lemma MatchedSides(clock: Clock, me: Side, peer: Side, k: nat)
    requires clock.Valid() && N.SidesOk(clock, me, peer) && k < |me.done|
    ensures k < |me.booked| && k < |peer.booked| && me.done[k] == MatchTick(me.booked, me.delay, peer.booked, peer.delay, k)
    ensures k < |peer.done| ==> peer.done[k] == me.done[k]
  {
    hide OnEdges, SignalsOk, OpenOk, Alternates;
  }

  lemma DirectionParts(clock: Clock, cfgs: Configs, m: Machine, a: CoreId, b: CoreId)
    requires clock.Valid() && N.Shaped(m.net) && DirectionOk(clock, cfgs, m, a, b)
    ensures (a, b) in m.net.sys.links && (b, a) in m.net.sys.links
    ensures N.SidesOk(clock, N.SideOf(m.net, a, b), N.SideOf(m.net, b, a))
    ensures (a, b) in m.cycles && a in m.ticks && a in m.starved && a in m.tcus && a in m.net.last && a in cfgs && cfgs[a].Valid()
    ensures SideLedger(clock.period, N.SideOf(m.net, a, b), m.cycles[(a, b)], m.ticks[a], m.starved[a])
    ensures TimerOk(cfgs[a], m.tcus[a], m.ticks[a], m.net.last[a])
  {
    hide N.Shaped, N.SidesOk, N.SideOf, SideLedger, TimerOk;
  }

  /** A point whose due cycle has been counted has fired. */
  lemma CountedHasFired(cfg: TcuConfig, run: R.Run, ticks: seq<nat>, last: nat, i: nat)
    requires cfg.Valid() && TimerOk(cfg, run, ticks, last) && i < |run.admitted| && run.admitted[i].due < |ticks|
    ensures i < |run.fired|
  {
    hide TimerOk;
    if |run.fired| <= i {
      WaitingIsUncounted(cfg, run, ticks, last, i);
    }
  }

  lemma WaitingIsUncounted(cfg: TcuConfig, run: R.Run, ticks: seq<nat>, last: nat, i: nat)
    requires cfg.Valid() && TimerOk(cfg, run, ticks, last) && |run.fired| <= i < |run.admitted|
    ensures |ticks| <= run.admitted[i].due
  {
    assert R.Waiting(run)[i - |run.fired|] in R.Waiting(run);
    hide R.AdmissionsOk, Q.QueuesHold, R.FiredOk;
  }

  /**
   * Both neighbors have made their k-th bookings of each other, `a` has passed the later of the two deadlines, and no
   * missing instruction paused its timer from its booking to that edge. Its i-th point is due one outgoing delay after
   * the booking.
   */
  ghost predicate Scheduled(clock: Clock, m: Machine, a: CoreId, b: CoreId, k: nat, i: nat)
    requires clock.Valid() && N.Shaped(m.net)
  {
    && (a, b) in m.net.sys.links && (b, a) in m.net.sys.links && (a, b) in m.cycles && a in m.starved && a in m.tcus
    && (var me, peer := N.SideOf(m.net, a, b), N.SideOf(m.net, b, a);
        && k < |me.booked| && k < |peer.booked| && k < |m.cycles[(a, b)]|
        && (var matched := MatchTick(me.booked, me.delay, peer.booked, peer.delay, k);
            matched <= me.last && Quiet(m.starved[a], me.booked[k], matched))
        && i < |m.tcus[a].admitted| && m.tcus[a].admitted[i].due == m.cycles[(a, b)][k] + me.delay / clock.period)
  }

  /** What Scheduled says, on the sides and the timer. */
  lemma SideFires(clock: Clock, cfg: TcuConfig, me: Side, peer: Side, cycles: seq<nat>, run: R.Run, ticks: seq<nat>, starved: set<nat>,
                  last: nat, k: nat, i: nat)
    requires clock.Valid() && cfg.Valid() && N.SidesOk(clock, me, peer) && SideLedger(clock.period, me, cycles, ticks, starved)
    requires TimerOk(cfg, run, ticks, last) && k < |me.booked| && k < |peer.booked| && k < |cycles|
    requires
      var matched := MatchTick(me.booked, me.delay, peer.booked, peer.delay, k);
      matched <= me.last && Quiet(starved, me.booked[k], matched)
    requires i < |run.admitted| && run.admitted[i].due == cycles[k] + me.delay / clock.period
    ensures i < |run.fired| && run.fired[i].tick == MatchTick(me.booked, me.delay, peer.booked, peer.delay, k)
  {
    hide N.SidesOk, SideLedger, TimerOk, Quiet, MatchTick;
    N.SidesComplete(clock, me, peer, k);
    MatchedSides(clock, me, peer, k);
    DelayedCycle(clock.period, me, cycles, ticks, starved, k);
    CountedHasFired(cfg, run, ticks, last, i);
    FiresAtItsCycle(cfg, run, ticks, last, i);
  }

  lemma ScheduledFires(clock: Clock, cfgs: Configs, m: Machine, a: CoreId, b: CoreId, k: nat, i: nat)
    requires clock.Valid() && N.Shaped(m.net) && DirectionOk(clock, cfgs, m, a, b) && Scheduled(clock, m, a, b, k, i)
    ensures i < |m.tcus[a].fired|
    ensures
      var me, peer := N.SideOf(m.net, a, b), N.SideOf(m.net, b, a);
      m.tcus[a].fired[i].tick == MatchTick(me.booked, me.delay, peer.booked, peer.delay, k)
  {
    hide N.Shaped, N.SideOf, N.SidesOk, SideLedger, TimerOk, DirectionOk, Quiet, MatchTick;
    DirectionParts(clock, cfgs, m, a, b);
    SideFires(clock, cfgs[a], N.SideOf(m.net, a, b), N.SideOf(m.net, b, a), m.cycles[(a, b)], m.tcus[a], m.ticks[a], m.starved[a],
              m.net.last[a], k, i);
  }

  /**
   * Zero skew. In every run, let both neighbors have made their k-th bookings of each other and have passed the later of
   * the two deadlines, with no missing instruction pausing either timer from its booking to that edge. Then a point of
   * one that is due one outgoing delay after its booking, and a point of the other that is due one outgoing delay after
   * its own, have fired, both at the tick of that deadline.
   */
  lemma PointsFireTogether(clock: Clock, cfgs: Configs, start: Machine, edge: nat, schedule: seq<(CoreId, Arrival)>,
                           a: CoreId, b: CoreId, k: nat, i: nat, j: nat)
    requires clock.Valid() && Initial(clock, cfgs, start, edge) && N.Shaped(start.net) && RunAll(clock, cfgs, start, schedule).Ok?
    requires
      var m := RunAll(clock, cfgs, start, schedule).value;
      Scheduled(clock, m, a, b, k, i) && Scheduled(clock, m, b, a, k, j)
    ensures
      var m := RunAll(clock, cfgs, start, schedule).value;
      var me, peer := N.SideOf(m.net, a, b), N.SideOf(m.net, b, a);
      && i < |m.tcus[a].fired| && j < |m.tcus[b].fired|
      && m.tcus[a].fired[i].tick == m.tcus[b].fired[j].tick == MatchTick(me.booked, me.delay, peer.booked, peer.delay, k)
  {
    hide Initial, RunAll, DirectionOk, N.Shaped, N.SideOf, N.SidesOk, BookingsAsked;
    var m := RunAll(clock, cfgs, start, schedule).value;
    assert (a, b) in m.net.sys.links && (b, a) in m.net.sys.links && k < |N.SideOf(m.net, a, b).booked| && k < |N.SideOf(m.net, b, a).booked|;
    hide Scheduled;
    Reached(clock, cfgs, start, edge, schedule, a, b);
    Reached(clock, cfgs, start, edge, schedule, b, a);
    ScheduledFires(clock, cfgs, m, a, b, k, i);
    ScheduledFires(clock, cfgs, m, b, a, k, j);
  }

  /** In every run a booking is made by a point that asks for it, as it fires at the tick of its due cycle. */
  lemma BookingsAreMadeAtTheirCycles(clock: Clock, cfgs: Configs, start: Machine, edge: nat, schedule: seq<(CoreId, Arrival)>,
                                     a: CoreId, b: CoreId, k: nat)
    requires clock.Valid() && Initial(clock, cfgs, start, edge) && N.Shaped(start.net) && RunAll(clock, cfgs, start, schedule).Ok?
    requires
      var m := RunAll(clock, cfgs, start, schedule).value;
      (a, b) in m.net.sys.links && k < |N.SideOf(m.net, a, b).booked|
    ensures
      var m := RunAll(clock, cfgs, start, schedule).value;
      && (a, b) in m.cycles && a in m.ticks && k < |m.cycles[(a, b)]| && m.cycles[(a, b)][k] < |m.ticks[a]|
      && m.ticks[a][m.cycles[(a, b)][k]] == N.SideOf(m.net, a, b).booked[k]
      && a in m.tcus && exists i :: Makes(m.tcus[a], i, b, m.cycles[(a, b)][k], N.SideOf(m.net, a, b).booked[k])
  {
    hide Initial, RunAll, DirectionOk, N.Shaped, N.SideOf, N.SidesOk, SideLedger, TimerOk;
    var m := RunAll(clock, cfgs, start, schedule).value;
    Reached(clock, cfgs, start, edge, schedule, a, b);
    DirectionParts(clock, cfgs, m, a, b);
    var cycles := m.cycles[(a, b)];
    BookedCycle(clock.period, N.SideOf(m.net, a, b), cycles, m.ticks[a], m.starved[a], k);
    assert Asks(m.tcus[a], b, cycles[k]);
    var i :| 0 <= i < |m.tcus[a].fired| && i < |m.tcus[a].admitted| && m.tcus[a].admitted[i].due == cycles[k]
              && b in m.tcus[a].admitted[i].request.point.synchronizations;
    FiresAtItsCycle(cfgs[a], m.tcus[a], m.ticks[a], m.net.last[a], i);
    assert Makes(m.tcus[a], i, b, cycles[k], N.SideOf(m.net, a, b).booked[k]);
  }

  /** The i-th point is due at this cycle, asks for a synchronization with b, and fired at this tick. */
  predicate Makes(run: R.Run, i: nat, b: CoreId, due: nat, tick: nat) {
    && i < |run.fired| && i < |run.admitted| && run.admitted[i].due == due && run.fired[i].tick == tick
    && b in run.admitted[i].request.point.synchronizations
  }
}
