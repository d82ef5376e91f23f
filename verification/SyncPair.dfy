/** Two neighbors, seen as two sides that book, signal and complete: the invariant of their matches. */
module SyncPair {
  import opened Errors
  import opened Time
  import opened Sync

  datatype Open = Open(deadline: nat, received: bool)

  /**
   * One side of a connection: the edges at which it booked the peer and completed those bookings,
   * its outgoing delay and signals, its open booking of the peer, and the last edge it processed.
   */
  datatype Side = Side(booked: seq<nat>, done: seq<nat>, delay: nat, signals: seq<Signal>,
                       open: Option<Open>, last: nat)

  /** The peer's signals after `me` steps at `now`. */
  function Heard(me: Side, peer: Side, now: nat): Side {
    if me.open.Some? && !me.open.value.received then peer.(signals := Consume(peer.signals, now)) else peer
  }

  function SideStep(me: Side, peer: Side, now: nat): Side {
    if me.open.None? then me.(last := now)
    else
      var received := me.open.value.received || FirstReady(peer.signals, now) < |peer.signals|;
      if me.open.value.deadline <= now && received then me.(last := now, open := None, done := me.done + [now])
      else me.(last := now, open := Some(me.open.value.(received := received)))
  }

  function BookedAt(me: Side, now: nat): Side {
    me.(booked := me.booked + [now],
        open := Some(Open(now + me.delay, false)),
        signals := Live(me.signals, now) + [Signal(now + me.delay, None)])
  }

  /** How many of the peer's signals this side has consumed: one for each booking but an unanswered one. */
  function Taken(me: Side): int {
    |me.booked| - if me.open.Some? && !me.open.value.received then 1 else 0
  }

  /** The edge on which both sides complete their i-th bookings of each other. */
  function MatchTick(mine: seq<nat>, myDelay: nat, theirs: seq<nat>, theirDelay: nat, i: nat): nat
    requires i < |mine| && i < |theirs|
  {
    Max(mine[i] + myDelay, theirs[i] + theirDelay)
  }

  /** The edge on which the peer consumes the signal of the i-th booking in `mine`. */
  function ConsumeTick(period: nat, mine: seq<nat>, myDelay: nat, theirs: seq<nat>, i: nat): nat
    requires i < |mine| && i < |theirs|
  {
    Max(mine[i] + myDelay, theirs[i] + period)
  }

  /** Everything a side does falls on an edge. */
  ghost predicate OnEdges(c: Clock, me: Side)
    requires c.Valid()
  {
    && c.Edge(me.last) && me.delay % c.period == 0
    && (forall i | 0 <= i < |me.booked| :: c.Edge(me.booked[i]))
  }

  /** A side books only after completing, and completes at least one period after booking. */
  ghost predicate Alternates(period: nat, booked: seq<nat>, done: seq<nat>, last: nat) {
    && |done| <= |booked| <= |done| + 1
    && (forall i | 0 <= i < |booked| :: booked[i] <= last)
    && (forall i | 0 <= i < |done| :: booked[i] + period <= done[i] <= last)
    && (forall i, j | 0 <= i < j < |booked| :: done[i] <= booked[j])
  }

  /** Every completed booking is matched with the peer's booking of the same number. */
  ghost predicate DoneOk(done: seq<nat>, mine: seq<nat>, myDelay: nat, theirs: seq<nat>, theirDelay: nat) {
    && |done| <= |mine| && |done| <= |theirs|
    && (forall i | 0 <= i < |done| :: done[i] == MatchTick(mine, myDelay, theirs, theirDelay, i))
  }

  ghost predicate OpenOk(period: nat, open: Option<Open>, last: nat,
                         mine: seq<nat>, myDelay: nat, theirs: seq<nat>, theirDelay: nat) {
    open.Some? && mine != [] ==>
      var n := |mine|;
      && open.value.deadline == mine[n - 1] + myDelay
      && (open.value.received <==> n <= |theirs| && ConsumeTick(period, theirs, theirDelay, mine, n - 1) <= last)
      && (n <= |theirs| ==> last < MatchTick(mine, myDelay, theirs, theirDelay, n - 1))
  }

  /** The stored signals are the latest ones sent, each consumed exactly when its turn came. */
  ghost predicate SignalsOk(period: nat, signals: seq<Signal>, taken: int, mine: seq<nat>, myDelay: nat, theirs: seq<nat>) {
    var erased := |mine| - |signals|;
    && |signals| <= 2
    && 0 <= erased <= taken <= |mine| && taken <= |theirs|
    && (forall j | 0 <= j < |signals| ::
          signals[j] == Signal(mine[erased + j] + myDelay,
                               if erased + j < taken then Some(ConsumeTick(period, mine, myDelay, theirs, erased + j)) else None))
  }

  ghost predicate SideOk(period: nat, me: Side, peer: Side) {
    && 0 < period <= me.delay
    && |me.done| == |me.booked| - (if me.open.Some? then 1 else 0)
    && Alternates(period, me.booked, me.done, me.last)
    && DoneOk(me.done, me.booked, me.delay, peer.booked, peer.delay)
    && OpenOk(period, me.open, me.last, me.booked, me.delay, peer.booked, peer.delay)
    && SignalsOk(period, me.signals, Taken(peer), me.booked, me.delay, peer.booked)
  }

  ghost predicate PairOk(period: nat, me: Side, peer: Side) {
    SideOk(period, me, peer) && SideOk(period, peer, me)
  }

  lemma EdgeDelay(c: Clock, t: nat, delay: nat)
    requires c.Valid() && c.Edge(t) && delay % c.period == 0
    ensures c.Edge(t + delay)
  {
    EdgePlusCycles(c, t, delay / c.period);
    assert delay == delay / c.period * c.period;
  }

  /** The tick on which the side's open booking is heard, or completes, is on the next edge if passed by it. */
  ghost predicate TicksReached(period: nat, me: Side, peer: Side, now: nat) {
    var n := |me.booked|;
    0 < n <= |peer.booked| ==>
      var heard := ConsumeTick(period, peer.booked, peer.delay, me.booked, n - 1);
      var match_ := MatchTick(me.booked, me.delay, peer.booked, peer.delay, n - 1);
      (me.last < heard <= now ==> heard == now) && (me.last < match_ <= now ==> match_ == now)
  }

  lemma TicksAreEdges(c: Clock, me: Side, peer: Side, now: nat)
    requires c.Valid() && OnEdges(c, me) && OnEdges(c, peer) && now == me.last + c.period
    ensures TicksReached(c.period, me, peer, now) && c.Edge(now)
  {
    NextEdge(c, me.last);
    var n := |me.booked|;
    if 0 < n <= |peer.booked| {
      EdgeDelay(c, me.booked[n - 1], me.delay);
      EdgeDelay(c, peer.booked[n - 1], peer.delay);
      NextEdge(c, me.booked[n - 1]);
      var x := ConsumeTick(c.period, peer.booked, peer.delay, me.booked, n - 1);
      var y := MatchTick(me.booked, me.delay, peer.booked, peer.delay, n - 1);
      if me.last < x {
        EdgeGap(c, me.last, x);
      }
      if me.last < y {
        EdgeGap(c, me.last, y);
      }
    }
  }

  /** When an unanswered side hears its peer at its next edge, and that this is the scheduled edge. */
  lemma Hearing(period: nat, me: Side, peer: Side, now: nat)
    requires PairOk(period, me, peer) && now == me.last + period && TicksReached(period, me, peer, now)
    requires me.open.Some? && !me.open.value.received
    ensures
      var n, i := |me.booked|, FirstReady(peer.signals, now);
      && 0 < n && Taken(me) == n - 1
      && (i < |peer.signals| <==> n <= |peer.booked| && ConsumeTick(period, peer.booked, peer.delay, me.booked, n - 1) <= now)
      && (i < |peer.signals| ==> |peer.booked| - |peer.signals| + i == n - 1)
      && (i < |peer.signals| ==> ConsumeTick(period, peer.booked, peer.delay, me.booked, n - 1) == now)
  {
    var n := |me.booked|;
    var erased, i := |peer.booked| - |peer.signals|, FirstReady(peer.signals, now);
    assert forall j | 0 <= j < |peer.signals| && erased + j < n - 1 :: peer.signals[j].consumed.Some?;
    assert me.booked[n - 1] <= me.last;
    if n <= |peer.booked| {
      var k := n - 1 - erased;
      assert peer.signals[k] == Signal(peer.booked[n - 1] + peer.delay, None);
      if peer.booked[n - 1] + peer.delay <= now {
        assert Ready(peer.signals[k], now);
        assert i == k;
      } else {
        forall j | 0 <= j < |peer.signals|
          ensures !Ready(peer.signals[j], now)
        {
          if n - 1 < erased + j {
            Grows(period, peer, n - 1, erased + j);
          }
        }
      }
    }
  }

  lemma Grows(period: nat, me: Side, i: nat, j: nat)
    requires Alternates(period, me.booked, me.done, me.last) && i < j < |me.booked|
    ensures me.booked[i] <= me.booked[j]
  {
    assert me.done[i] <= me.booked[j];
  }

  /** What a step does to a side with an open booking, in terms of the match. */
  lemma StepShape(period: nat, me: Side, peer: Side, now: nat)
    requires PairOk(period, me, peer) && now == me.last + period && TicksReached(period, me, peer, now)
    requires me.open.Some?
    ensures
      var n, me' := |me.booked|, SideStep(me, peer, now);
      var heard := n <= |peer.booked| && ConsumeTick(period, peer.booked, peer.delay, me.booked, n - 1) <= now;
      && 0 < n
      && (if heard && MatchTick(me.booked, me.delay, peer.booked, peer.delay, n - 1) <= now then
            && MatchTick(me.booked, me.delay, peer.booked, peer.delay, n - 1) == now
            && me' == me.(last := now, open := None, done := me.done + [now])
          else
            && (n <= |peer.booked| ==> now < MatchTick(me.booked, me.delay, peer.booked, peer.delay, n - 1))
            && me' == me.(last := now, open := Some(Open(me.open.value.deadline, heard))))
  {
    if !me.open.value.received {
      Hearing(period, me, peer, now);
    }
  }

  lemma CompletionKeepsHistory(period: nat, done: seq<nat>, mine: seq<nat>, myDelay: nat,
                               theirs: seq<nat>, theirDelay: nat, last: nat, now: nat)
    requires Alternates(period, mine, done, last) && DoneOk(done, mine, myDelay, theirs, theirDelay)
    requires |done| < |mine| && |done| < |theirs| && last < now && period <= myDelay
    requires now == MatchTick(mine, myDelay, theirs, theirDelay, |done|)
    ensures Alternates(period, mine, done + [now], now) && DoneOk(done + [now], mine, myDelay, theirs, theirDelay)
  {
  }

  /** A side's step keeps its own history and open booking. */
  lemma StepKeepsSide(period: nat, me: Side, peer: Side, now: nat)
    requires PairOk(period, me, peer) && now == me.last + period && TicksReached(period, me, peer, now)
    ensures SideOk(period, SideStep(me, peer, now), Heard(me, peer, now))
  {
    hide SignalsOk, TicksReached, Consume;
    var me', peer' := SideStep(me, peer, now), Heard(me, peer, now);
    assert Taken(peer') == Taken(peer);
    if me.open.Some? {
      StepShape(period, me, peer, now);
      if me'.open.None? {
        CompletionKeepsHistory(period, me.done, me.booked, me.delay, peer.booked, peer.delay, me.last, now);
      } else {
        assert OpenOk(period, me'.open, now, me.booked, me.delay, peer.booked, peer.delay);
      }
    }
    assert Alternates(period, me'.booked, me'.done, me'.last);
  }

  lemma TakingKeepsSignals(period: nat, signals: seq<Signal>, taken: int, mine: seq<nat>, myDelay: nat,
                           theirs: seq<nat>, i: nat, now: nat)
    requires SignalsOk(period, signals, taken, mine, myDelay, theirs)
    requires i < |signals| && |mine| - |signals| + i == taken && taken < |theirs|
    requires now == ConsumeTick(period, mine, myDelay, theirs, taken)
    ensures SignalsOk(period, signals[i := signals[i].(consumed := Some(now))], taken + 1, mine, myDelay, theirs)
  {
  }

  /** A side's step consumes the peer's signal when its turn comes, and changes nothing else of the peer. */
  lemma StepKeepsPeer(period: nat, me: Side, peer: Side, now: nat)
    requires PairOk(period, me, peer) && now == me.last + period && TicksReached(period, me, peer, now)
    ensures SideOk(period, Heard(me, peer, now), SideStep(me, peer, now))
  {
    hide Alternates, DoneOk, OpenOk, TicksReached;
    var me', peer' := SideStep(me, peer, now), Heard(me, peer, now);
    if me.open.Some? && !me.open.value.received {
      StepShape(period, me, peer, now);
      Hearing(period, me, peer, now);
      var i := FirstReady(peer.signals, now);
      if i < |peer.signals| {
        TakingKeepsSignals(period, peer.signals, Taken(me), peer.booked, peer.delay, me.booked, i, now);
        assert Taken(me') == Taken(me) + 1;
      }
    }
    assert SignalsOk(period, peer'.signals, Taken(me'), peer.booked, peer.delay, me.booked);
  }

  // ---- Booking ----

  lemma {:induction false} LiveIsSuffix(signals: seq<Signal>, now: nat, k: nat)
    requires k <= |signals|
    requires forall j | 0 <= j < k :: Expired(signals[j], now)
    requires forall j | k <= j < |signals| :: !Expired(signals[j], now)
    ensures Live(signals, now) == signals[k..]
    decreases |signals|
  {
    if signals != [] {
      var tail := signals[1..];
      assert forall j | 0 <= j < |tail| :: tail[j] == signals[j + 1];
      if k > 0 {
        LiveIsSuffix(tail, now, k - 1);
      } else {
        LiveIsSuffix(tail, now, 0);
        assert Live(signals, now) == [signals[0]] + tail;
      }
    }
  }

  /** When a side books again, at most its previous signal is still stored. */
  lemma AtMostOneLive(period: nat, me: Side, peer: Side, now: nat)
    requires PairOk(period, me, peer) && me.open.None? && me.last == now <= peer.last + period
    ensures |Live(me.signals, now)| <= 1
    ensures |Live(me.signals, now)| <= |me.signals|
    ensures Live(me.signals, now) == me.signals[|me.signals| - |Live(me.signals, now)|..]
  {
    var n, erased := |me.booked|, |me.booked| - |me.signals|;
    forall j | 0 <= j < |me.signals| && erased + j < n - 1
      ensures Expired(me.signals[j], now)
    {
      var i := erased + j;
      assert me.done[i] <= me.booked[n - 1];
      assert me.booked[n - 1] + period <= me.done[n - 1];
    }
    if me.signals != [] {
      var k := |me.signals| - if Expired(me.signals[|me.signals| - 1], now) then 0 else 1;
      LiveIsSuffix(me.signals, now, k);
    }
  }

  lemma BookingKeepsHistory(period: nat, done: seq<nat>, mine: seq<nat>, myDelay: nat,
                            theirs: seq<nat>, theirDelay: nat, now: nat)
    requires Alternates(period, mine, done, now) && |done| == |mine|
    requires DoneOk(done, mine, myDelay, theirs, theirDelay)
    ensures Alternates(period, mine + [now], done, now)
    ensures DoneOk(done, mine + [now], myDelay, theirs, theirDelay)
  {
    var more := mine + [now];
    assert forall i | 0 <= i < |mine| :: more[i] == mine[i];
  }

  lemma FreshBookingIsOpen(period: nat, mine: seq<nat>, myDelay: nat, theirs: seq<nat>, theirDelay: nat, now: nat)
    requires 0 < period <= myDelay
    ensures OpenOk(period, Some(Open(now + myDelay, false)), now, mine + [now], myDelay, theirs, theirDelay)
  {
  }

  /** A booking keeps its own side. */
  lemma BookKeepsSide(period: nat, me: Side, peer: Side, now: nat)
    requires PairOk(period, me, peer) && me.open.None? && me.last == now <= peer.last + period
    ensures SideOk(period, BookedAt(me, now), peer)
  {
    AtMostOneLive(period, me, peer, now);
    hide Live, Alternates, DoneOk, OpenOk, SignalsOk;
    var me' := BookedAt(me, now);
    BookingKeepsHistory(period, me.done, me.booked, me.delay, peer.booked, peer.delay, now);
    FreshBookingIsOpen(period, me.booked, me.delay, peer.booked, peer.delay, now);
    SendingKeepsSignals(period, me.signals, Live(me.signals, now), Taken(peer), me.booked, me.delay, peer.booked, now);
  }

  lemma SendingKeepsSignals(period: nat, signals: seq<Signal>, live: seq<Signal>, taken: int,
                            mine: seq<nat>, myDelay: nat, theirs: seq<nat>, now: nat)
    requires SignalsOk(period, signals, taken, mine, myDelay, theirs)
    requires |live| <= 1 && |live| <= |signals| && live == signals[|signals| - |live|..]
    requires |mine| - |live| <= taken
    ensures SignalsOk(period, live + [Signal(now + myDelay, None)], taken, mine + [now], myDelay, theirs)
  {
    var sent := live + [Signal(now + myDelay, None)];
    assert |live| == 1 ==> sent[0] == signals[|signals| - 1];
  }

  lemma PeerBookingKeepsOpen(period: nat, open: Option<Open>, last: nat,
                             mine: seq<nat>, myDelay: nat, theirs: seq<nat>, theirDelay: nat, now: nat)
    requires OpenOk(period, open, last, mine, myDelay, theirs, theirDelay)
    requires last <= now && 0 < period <= theirDelay
    ensures OpenOk(period, open, last, mine, myDelay, theirs + [now], theirDelay)
  {
    var more := theirs + [now];
    var n := |mine|;
    assert 0 < n <= |theirs| ==> more[n - 1] == theirs[n - 1];
  }

  lemma PeerBookingKeepsRest(period: nat, done: seq<nat>, signals: seq<Signal>, taken: int,
                             mine: seq<nat>, myDelay: nat, theirs: seq<nat>, theirDelay: nat, now: nat)
    requires DoneOk(done, mine, myDelay, theirs, theirDelay)
    requires SignalsOk(period, signals, taken, mine, myDelay, theirs)
    ensures DoneOk(done, mine, myDelay, theirs + [now], theirDelay)
    ensures SignalsOk(period, signals, taken, mine, myDelay, theirs + [now])
  {
  }

  /** A booking answers the peer's open one, if there is one, strictly later than its present edge. */
  lemma BookKeepsPeer(period: nat, me: Side, peer: Side, now: nat)
    requires PairOk(period, me, peer) && me.open.None? && peer.last <= me.last == now
    ensures SideOk(period, peer, BookedAt(me, now))
  {
    PeerBookingKeepsOpen(period, peer.open, peer.last, peer.booked, peer.delay, me.booked, me.delay, now);
    PeerBookingKeepsRest(period, peer.done, peer.signals, Taken(me), peer.booked, peer.delay, me.booked, me.delay, now);
    assert Taken(BookedAt(me, now)) == Taken(me);
  }
}
