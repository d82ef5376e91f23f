/** Ticks, overflow-checked arithmetic and receiver clocks. */
module Time {
  import opened Errors

  const MAX_TICK: nat := 0xFFFF_FFFF_FFFF_FFFF

  function CheckedAdd(a: nat, b: nat): Result<nat> {
    if b <= MAX_TICK - a then Ok(a + b) else Err(TimeOverflow)
  }

  function CheckedMul(a: nat, b: nat): Result<nat> {
    if a == 0 || b <= MAX_TICK / a then Ok(a * b) else Err(TimeOverflow)
  }

  /** A product is accepted exactly when it fits a tick. */
  lemma CheckedMulIsExact(a: nat, b: nat)
    ensures CheckedMul(a, b) == if a * b <= MAX_TICK then Ok(a * b) else Err(TimeOverflow)
  {
    if a != 0 {
      var q := MAX_TICK / a;
      assert MAX_TICK == a * q + MAX_TICK % a;
      if b <= q {
        MulMonotone(a, b, q);
      } else {
        MulMonotone(a, q + 1, b);
        assert a * (q + 1) == a * q + a;
      }
    }
  }

  lemma MulMonotone(a: nat, x: int, y: int)
    requires x <= y
    ensures a * x <= a * y
  {
    assert a * y == a * x + a * (y - x) && 0 <= a * (y - x);
  }

  datatype Clock = Clock(period: nat, phase: nat) {
    predicate Valid() { 0 < period && phase < period }

    predicate Edge(t: nat)
      requires Valid()
    {
      phase <= t && (t - phase) % period == 0
    }

    /** The arrival edge of a message published at `publication`. */
    function After(publication: nat, latency: nat): Result<nat>
      requires Valid()
    {
      if latency == 0 then Err(InvalidProfile)
      else
        var first :-
          if publication < phase then Ok(phase)
          else
            var next :- CheckedAdd((publication - phase) / period, 1);
            var offset :- CheckedMul(next, period);
            CheckedAdd(phase, offset);
        var wait :- CheckedMul(latency - 1, period);
        CheckedAdd(first, wait)
    }

    // The number of edges at or before t.
    function Elapsed(t: nat): nat
      requires Valid()
    {
      if t < phase then 0 else (t - phase) / period + 1
    }

    // The tick of the n-th edge, counting from one.
    function Nth(n: nat): nat
      requires Valid() && 0 < n
    {
      phase + (n - 1) * period
    }
  }

  /** The number of edges strictly after `lo` and at or before `hi`. */
  ghost function EdgesBetween(c: Clock, lo: nat, hi: nat): nat
    requires c.Valid()
    decreases hi
  {
    if hi <= lo then 0 else EdgesBetween(c, lo, hi - 1) + if c.Edge(hi) then 1 else 0
  }

  lemma DivStep(x: nat, p: nat)
    requires 0 < p
    ensures (x + 1) / p == x / p + if (x + 1) % p == 0 then 1 else 0
  {
    var q, r := x / p, x % p;
    assert x == q * p + r;
    if r + 1 == p {
      DivUnique(x + 1, p, q + 1, 0);
    } else {
      DivUnique(x + 1, p, q, r + 1);
    }
  }

  lemma DivUnique(x: int, p: nat, q: int, r: nat)
    requires r < p && x == q * p + r
    ensures x / p == q && x % p == r
  {
    var d := x / p - q;
    assert x == (x / p) * p + x % p;
    assert d * p == r - x % p by {
      assert d * p == (x / p) * p - q * p;
    }
    if d >= 1 {
      MulMonotone(p, 1, d);
    } else if d <= -1 {
      MulMonotone(p, d, -1);
    }
  }

  lemma {:induction false} EdgesAreElapsed(c: Clock, lo: nat, hi: nat)
    requires c.Valid() && lo <= hi
    ensures EdgesBetween(c, lo, hi) == c.Elapsed(hi) - c.Elapsed(lo)
    decreases hi
  {
    if lo < hi {
      EdgesAreElapsed(c, lo, hi - 1);
      if c.phase < hi {
        DivStep(hi - 1 - c.phase, c.period);
      } else if c.phase == hi {
        DivUnique(0, c.period, 0, 0);
      }
    }
  }

  lemma NthIsEdge(c: Clock, n: nat)
    requires c.Valid() && 0 < n
    ensures c.Edge(c.Nth(n)) && c.Elapsed(c.Nth(n)) == n
  {
    DivUnique((n - 1) * c.period, c.period, n - 1, 0);
  }

  /** The overflow checks refuse exactly the arrivals that do not fit a tick. */
  lemma AfterIsNth(c: Clock, publication: nat, latency: nat)
    requires c.Valid() && 0 < latency
    ensures
      var arrival := c.Nth(c.Elapsed(publication) + latency);
      c.After(publication, latency) == if arrival <= MAX_TICK then Ok(arrival) else Err(TimeOverflow)
  {
    var e := c.Elapsed(publication);
    CheckedMulIsExact(latency - 1, c.period);
    CheckedMulIsExact(e, c.period);
    assert (e + latency - 1) * c.period == e * c.period + (latency - 1) * c.period;
    if c.phase <= publication {
      MulMonotone(e, 1, c.period);
    }
  }

  /**
   * A message published at p with latency n arrives on a receiver edge strictly after p, and it is
   * the n-th such edge; it is refused exactly when no tick can represent that edge.
   */
  lemma AfterIsLatencyThEdge(c: Clock, publication: nat, latency: nat)
    requires c.Valid() && 0 < latency
    ensures
      var r := c.After(publication, latency);
      && (r.Ok? ==> publication < r.value && c.Edge(r.value)
                    && EdgesBetween(c, publication, r.value) == latency)
      && (r.Err? ==> r.error == TimeOverflow
                     && forall t: nat | publication < t && c.Edge(t)
                                        && EdgesBetween(c, publication, t) == latency :: MAX_TICK < t)
  {
    AfterIsNth(c, publication, latency);
    var n := c.Elapsed(publication) + latency;
    NthIsEdge(c, n);
    ElapsedMonotone(c, c.Nth(n), publication);
    EdgesAreElapsed(c, publication, c.Nth(n));
    forall t: nat | publication < t && c.Edge(t) && EdgesBetween(c, publication, t) == latency
      ensures t == c.Nth(n)
    {
      EdgesAreElapsed(c, publication, t);
      EdgeIsNth(c, t);
    }
  }

  lemma EdgeIsNth(c: Clock, t: nat)
    requires c.Valid() && c.Edge(t)
    ensures t == c.Nth(c.Elapsed(t))
  {
    assert t - c.phase == (t - c.phase) / c.period * c.period;
  }

  lemma ElapsedMonotone(c: Clock, s: nat, t: nat)
    requires c.Valid()
    ensures s <= t ==> c.Elapsed(s) <= c.Elapsed(t)
  {
    if s <= t {
      EdgesAreElapsed(c, s, t);
    }
  }

  /** Later publications never arrive earlier. */
  lemma AfterMonotone(c: Clock, p: nat, q: nat, latency: nat)
    requires c.Valid() && 0 < latency && p <= q
    requires c.After(p, latency).Ok? && c.After(q, latency).Ok?
    ensures c.After(p, latency).value <= c.After(q, latency).value
  {
    AfterIsNth(c, p, latency);
    AfterIsNth(c, q, latency);
    ElapsedMonotone(c, p, q);
    MulMonotone(c.period, c.Elapsed(p) + latency - 1, c.Elapsed(q) + latency - 1);
  }

  lemma NextEdge(c: Clock, t: nat)
    requires c.Valid() && c.Edge(t)
    ensures c.Edge(t + c.period)
  {
    EdgePlusCycles(c, t, 1);
  }

  lemma EdgePlusCycles(c: Clock, t: nat, cycles: nat)
    requires c.Valid() && c.Edge(t)
    ensures c.Edge(t + cycles * c.period)
  {
    var k := (t - c.phase) / c.period;
    assert t - c.phase == k * c.period;
    assert (k + cycles) * c.period == k * c.period + cycles * c.period;
    DivUnique(t - c.phase + cycles * c.period, c.period, k + cycles, 0);
  }

  /** Distinct edges are at least one period apart. */
  lemma EdgeGap(c: Clock, s: nat, t: nat)
    requires c.Valid() && c.Edge(s) && c.Edge(t) && s < t
    ensures s + c.period <= t
  {
    var j, k := (s - c.phase) / c.period, (t - c.phase) / c.period;
    assert s - c.phase == j * c.period && t - c.phase == k * c.period;
    if k <= j {
      MulMonotone(c.period, k, j);
    } else {
      MulMonotone(c.period, j + 1, k);
      assert c.period * (j + 1) == j * c.period + c.period;
    }
  }
}
