/** Between boundaries a decoder step changes nothing, so stepping at boundaries equals stepping at every tick. */
module DecoderEvents {
  import opened Errors
  import opened Time
  import opened Decoder

  /** Nothing that was due at t is left to do. */
  ghost predicate Settled(cfg: Config, s: State, t: nat)
    requires cfg.Valid()
  {
    && (forall i | 0 <= i < |s.requests| :: Sent(s.requests[i], t))
    && (s.reset.Some? ==> Sent(s.reset.value, t) && t < s.reset.value.arrival)
    && (forall i | 0 <= i < |s.jobs| :: JobSettled(s.jobs[i], t))
    && AdmitRequests(cfg, s, t) == Ok(s)
    && (NextReady(s.jobs) < |s.jobs| ==> t < s.rx)
  }

  predicate Sent(p: Request, t: nat) {
    p.sent <= t ==> p.transmitted
  }

  predicate JobSettled(j: Job, t: nat) {
    (j.start <= t ==> j.started) && (j.completion <= t ==> j.completed) && (j.arrival.Some? ==> t < j.arrival.value)
  }

  // ---- A step settles ----

  lemma {:induction false} UncancelledMembers(requests: seq<Request>, reset: Request)
    ensures forall p :: p in Uncancelled(requests, reset) ==> p in requests
    decreases |requests|
  {
    if requests != [] {
      UncancelledMembers(requests[1..], reset);
    }
  }

  lemma TransmissionSettles(s: State, t: nat)
    ensures
      var s' := AdvanceTransmission(s, t);
      && (forall i | 0 <= i < |s'.requests| :: Sent(s'.requests[i], t))
      && (s'.reset.Some? ==> Sent(s'.reset.value, t) && t < s'.reset.value.arrival)
  {
    var s', all := AdvanceTransmission(s, t), TransmitAll(s.requests, t);
    if s.reset.Some? && Transmit(s.reset.value, t).arrival <= t {
      UncancelledMembers(all, Transmit(s.reset.value, t));
      forall i | 0 <= i < |s'.requests|
        ensures Sent(s'.requests[i], t)
      {
        assert s'.requests[i] in s'.requests;
        var j :| 0 <= j < |all| && all[j] == s'.requests[i];
      }
    }
  }

  lemma {:induction false} JobsSettle(sessions: map<Key, Session>, jobs: seq<Job>, t: nat)
    ensures forall i | 0 <= i < |AdvanceJobs(sessions, jobs, t).jobs| :: JobSettled(AdvanceJobs(sessions, jobs, t).jobs[i], t)
    decreases |jobs|
  {
    if jobs != [] {
      var j := Progress(jobs[0], t);
      if j.arrival.Some? && j.arrival.value <= t {
        JobsSettle(sessions[j.key := Returned(if j.key in sessions then sessions[j.key] else FRESH, j)], jobs[1..], t);
      } else {
        JobsSettle(sessions, jobs[1..], t);
      }
    }
  }

  /** Admission settles: repeating it at once changes nothing; fresh jobs start later. */
  lemma {:induction false} AdmissionSettles(cfg: Config, s: State, t: nat)
    requires AdmitRequests(cfg, s, t).Ok? && forall i | 0 <= i < |s.jobs| :: JobSettled(s.jobs[i], t)
    requires forall i | 0 <= i < |s.requests| :: Sent(s.requests[i], t)
    requires forall id | id in cfg.kernels :: cfg.kernels[id].Valid()
    ensures
      var s' := AdmitRequests(cfg, s, t).value;
      && AdmitRequests(cfg, s', t) == Ok(s') && s'.reset == s.reset && s'.rx == s.rx
      && (forall i | 0 <= i < |s'.jobs| :: JobSettled(s'.jobs[i], t))
      && (forall i | 0 <= i < |s'.requests| :: Sent(s'.requests[i], t))
    decreases |s.requests|
  {
    hide ReservedCount;
    if s.requests != [] && s.requests[0].arrival <= t {
      var p := s.requests[0];
      var k := cfg.kernels[p.key.1];
      if !SessionOf(s, p.key).submitted && !HeadBlocked(cfg, s, p, k) {
        AdmitHeadShape(cfg, s, t);
        AdmissionSettles(cfg, AdmitHead(cfg, s, t).value, t);
      }
    }
  }

  lemma AdmitHeadShape(cfg: Config, s: State, t: nat)
    requires s.requests != [] && s.requests[0].key.1 in cfg.kernels && AdmitHead(cfg, s, t).Ok?
    requires forall id | id in cfg.kernels :: cfg.kernels[id].Valid()
    ensures
      var s' := AdmitHead(cfg, s, t).value;
      && s'.requests == s.requests[1..] && s'.reset == s.reset && s'.rx == s.rx && |s.jobs| <= |s'.jobs| <= |s.jobs| + 1
      && s'.jobs[..|s.jobs|] == s.jobs && (|s.jobs| < |s'.jobs| ==> JobSettled(s'.jobs[|s.jobs|], t))
      && (forall i | 0 <= i < |s'.jobs| :: i < |s.jobs| ==> s'.jobs[i] == s.jobs[i])
  {
  }

  /** One result is sent at a time, and its arrival is later. */
  lemma ResultSettles(cfg: Config, s: State, t: nat)
    requires cfg.Valid() && TransmitResult(cfg, s, t).Ok? && forall i | 0 <= i < |s.jobs| :: JobSettled(s.jobs[i], t)
    ensures
      var s' := TransmitResult(cfg, s, t).value;
      && (NextReady(s'.jobs) < |s'.jobs| ==> t < s'.rx)
      && (forall i | 0 <= i < |s'.jobs| :: JobSettled(s'.jobs[i], t))
      && s' == s.(jobs := s'.jobs, rx := s'.rx)
  {
    hide NextReady;
  }

  /** Admission leaves the state alone only when its head is not due, or must wait. */
  lemma StuckHead(cfg: Config, s: State, t: nat)
    requires AdmitRequests(cfg, s, t) == Ok(s) && s.requests != [] && s.requests[0].arrival <= t
    ensures s.requests[0].key.1 in cfg.kernels && HeadBlocked(cfg, s, s.requests[0], cfg.kernels[s.requests[0].key.1])
  {
    hide ReservedCount;
    if AdmitHead(cfg, s, t).Ok? {
      AdmissionShrinks(cfg, AdmitHead(cfg, s, t).value, t);
    }
  }

  lemma AdmissionIgnoresJobs(cfg: Config, s: State, jobs: seq<Job>, rx: nat, t: nat)
    requires AdmitRequests(cfg, s, t) == Ok(s)
    ensures AdmitRequests(cfg, s.(jobs := jobs, rx := rx), t) == Ok(s.(jobs := jobs, rx := rx))
  {
    hide ReservedCount;
    if s.requests != [] && s.requests[0].arrival <= t {
      StuckHead(cfg, s, t);
    }
  }

  lemma {:induction false} AdmissionShrinks(cfg: Config, s: State, t: nat)
    ensures AdmitRequests(cfg, s, t).Ok? ==> |AdmitRequests(cfg, s, t).value.requests| <= |s.requests|
    decreases |s.requests|
  {
    hide ReservedCount;
    if s.requests != [] && s.requests[0].arrival <= t && s.requests[0].key.1 in cfg.kernels && AdmitHead(cfg, s, t).Ok? {
      AdmissionShrinks(cfg, AdmitHead(cfg, s, t).value, t);
    }
  }

  lemma StepSettles(cfg: Config, s: State, t: nat)
    requires cfg.Valid() && Step(cfg, s, t).Ok?
    ensures Settled(cfg, Step(cfg, s, t).value, t)
  {
    var s1 := AdvanceTransmission(s, t);
    var s2 := AdvancedJobs(s1, t);
    TransmissionSettles(s, t);
    JobsSettle(s1.sessions, s1.jobs, t);
    hide AdvanceTransmission, AdvanceJobs, AdmitRequests, NextReady, TransmitResult, JobSettled, Sent;
    AdmissionSettles(cfg, s2, t);
    var s3 := AdmitRequests(cfg, s2, t).value;
    ResultSettles(cfg, s3, t);
    var s4 := TransmitResult(cfg, s3, t).value;
    AdmissionIgnoresJobs(cfg, s3, s4.jobs, s4.rx, t);
  }

  // ---- Boundaries ----

  /** `next` is none, or not later than `tick` when that is in the future. */
  predicate Bounds(next: Option<nat>, tick: nat, now: nat) {
    now < tick ==> next.Some? && next.value <= tick
  }

  predicate NoLater(a: Option<nat>, b: Option<nat>) {
    b.Some? ==> a.Some? && a.value <= b.value
  }

  ghost predicate RequestBounded(next: Option<nat>, p: Request, now: nat) {
    (!p.transmitted ==> Bounds(next, p.sent, now)) && Bounds(next, p.arrival, now)
  }

  ghost predicate JobBounded(next: Option<nat>, j: Job, rx: nat, now: nat) {
    && Bounds(next, j.start, now) && Bounds(next, j.completion, now)
    && (j.arrival.Some? ==> Bounds(next, j.arrival.value, now))
    && (Waiting(j) ==> Bounds(next, rx, now))
  }

  lemma {:induction false} RequestsBounded(next: Option<nat>, requests: seq<Request>, now: nat)
    ensures
      var r := RequestBoundaries(next, requests, now);
      && NoLater(r, next) && (r.Some? ==> r == next || now < r.value)
      && forall i | 0 <= i < |requests| :: RequestBounded(r, requests[i], now)
    decreases |requests|
  {
    if requests != [] {
      RequestsBounded(RequestBoundary(next, requests[0], now), requests[1..], now);
    }
  }

  lemma {:induction false} JobsBounded(next: Option<nat>, jobs: seq<Job>, rx: nat, now: nat)
    ensures
      var r := JobBoundaries(next, jobs, rx, now);
      && NoLater(r, next) && (r.Some? ==> r == next || now < r.value)
      && forall i | 0 <= i < |jobs| :: JobBounded(r, jobs[i], rx, now)
    decreases |jobs|
  {
    if jobs != [] {
      JobsBounded(JobBoundary(next, jobs[0], rx, now), jobs[1..], rx, now);
    }
  }

  /** The boundary is in the future, and not after anything still to happen. */
  lemma BoundaryBounds(s: State, now: nat)
    ensures
      var b := NextBoundary(s, now);
      && (b.Some? ==> now < b.value)
      && (forall i | 0 <= i < |s.requests| :: RequestBounded(b, s.requests[i], now))
      && (s.reset.Some? ==> RequestBounded(b, s.reset.value, now))
      && (forall i | 0 <= i < |s.jobs| :: JobBounded(b, s.jobs[i], s.rx, now))
  {
    RequestsBounded(None, s.requests, now);
    var first := RequestBoundaries(None, s.requests, now);
    var second := if s.reset.Some? then RequestBoundary(first, s.reset.value, now) else first;
    JobsBounded(second, s.jobs, s.rx, now);
    var b := NextBoundary(s, now);
    hide RequestBoundaries, JobBoundaries;
    forall i | 0 <= i < |s.requests|
      ensures RequestBounded(b, s.requests[i], now)
    {
      assert RequestBounded(first, s.requests[i], now);
    }
  }

  // ---- Before the boundary nothing changes ----

  predicate Before(t: nat, boundary: Option<nat>) {
    boundary.Some? ==> t < boundary.value
  }

  lemma TransmissionIdle(s: State, t: nat, u: nat, b: Option<nat>)
    requires t < u && Before(u, b) && (forall i | 0 <= i < |s.requests| :: Sent(s.requests[i], t) && RequestBounded(b, s.requests[i], t))
    requires s.reset.Some? ==> Sent(s.reset.value, t) && t < s.reset.value.arrival && RequestBounded(b, s.reset.value, t)
    ensures AdvanceTransmission(s, u) == s
  {
    forall i | 0 <= i < |s.requests|
      ensures Transmit(s.requests[i], u) == s.requests[i]
    {
      assert Sent(s.requests[i], t) && RequestBounded(b, s.requests[i], t);
    }
    assert TransmitAll(s.requests, u) == s.requests;
  }

  lemma {:induction false} JobsIdle(sessions: map<Key, Session>, jobs: seq<Job>, rx: nat, t: nat, u: nat, b: Option<nat>)
    requires t < u && Before(u, b) && forall i | 0 <= i < |jobs| :: JobSettled(jobs[i], t) && JobBounded(b, jobs[i], rx, t)
    ensures AdvanceJobs(sessions, jobs, u) == Jobs(sessions, jobs)
    decreases |jobs|
  {
    if jobs != [] {
      assert JobSettled(jobs[0], t) && JobBounded(b, jobs[0], rx, t);
      assert Progress(jobs[0], u) == jobs[0];
      assert forall i | 0 <= i < |jobs| - 1 :: jobs[1..][i] == jobs[i + 1];
      JobsIdle(sessions, jobs[1..], rx, t, u, b);
      assert [jobs[0]] + jobs[1..] == jobs;
    }
  }

  lemma AdmissionIdle(cfg: Config, s: State, t: nat, u: nat, b: Option<nat>)
    requires t < u && Before(u, b) && (s.requests != [] ==> RequestBounded(b, s.requests[0], t))
    requires AdmitRequests(cfg, s, t) == Ok(s)
    ensures AdmitRequests(cfg, s, u) == Ok(s)
  {
    hide ReservedCount;
    if s.requests != [] && s.requests[0].arrival <= t {
      StuckHead(cfg, s, t);
    }
  }

  lemma {:induction false} ReadyIsWaiting(jobs: seq<Job>)
    ensures NextReady(jobs) < |jobs| ==> Waiting(jobs[NextReady(jobs)])
    decreases |jobs|
  {
    if jobs != [] {
      ReadyIsWaiting(jobs[1..]);
    }
  }

  lemma ResultIdle(cfg: Config, s: State, t: nat, u: nat, b: Option<nat>)
    requires cfg.Valid() && t < u && Before(u, b) && forall i | 0 <= i < |s.jobs| :: JobBounded(b, s.jobs[i], s.rx, t)
    requires NextReady(s.jobs) < |s.jobs| ==> t < s.rx
    ensures TransmitResult(cfg, s, u) == Ok(s)
  {
    ReadyIsWaiting(s.jobs);
    hide NextReady;
    if NextReady(s.jobs) < |s.jobs| {
      assert JobBounded(b, s.jobs[NextReady(s.jobs)], s.rx, t);
    }
  }

  /** Right after a step, stepping at any tick before the next boundary changes nothing. */
  lemma IdleBeforeBoundary(cfg: Config, s: State, t: nat, u: nat)
    requires cfg.Valid() && Settled(cfg, s, t) && t < u && Before(u, NextBoundary(s, t))
    ensures Step(cfg, s, u) == Ok(s)
  {
    BoundaryBounds(s, t);
    var b := NextBoundary(s, t);
    hide NextBoundary, AdmitRequests, NextReady, RequestBounded, JobBounded, Sent, JobSettled, AdvanceTransmission,
      AdvanceJobs, TransmitResult;
    TransmissionIdle(s, t, u, b);
    JobsIdle(s.sessions, s.jobs, s.rx, t, u, b);
    AdmissionIdle(cfg, s, t, u, b);
    ResultIdle(cfg, s, t, u, b);
  }

  /** A pending job always has a boundary: its start, its completion, its turn on the link, or its arrival. */
  lemma PendingJobsHaveBoundary(cfg: Config, s: State, t: nat)
    requires cfg.Valid() && Settled(cfg, s, t) && s.jobs != []
    ensures NextBoundary(s, t).Some?
  {
    BoundaryBounds(s, t);
    hide NextBoundary, AdmitRequests;
    var j, b := s.jobs[0], NextBoundary(s, t);
    assert JobSettled(j, t) && JobBounded(b, j, s.rx, t);
    if Waiting(j) {
      SomeIsReady(s.jobs, 0);
    }
  }

  lemma {:induction false} SomeIsReady(jobs: seq<Job>, i: nat)
    requires i < |jobs| && Waiting(jobs[i])
    ensures NextReady(jobs) < |jobs|
    decreases |jobs|
  {
    if 0 < i {
      SomeIsReady(jobs[1..], i - 1);
    }
  }

  // ---- Event-driven stepping is tick-by-tick stepping ----

  /** A step at every tick after t, up to u. */
  function EveryTick(cfg: Config, s: State, t: nat, u: nat): Errors.Result<State>
    requires cfg.Valid()
    decreases u - t
  {
    if u <= t then Ok(s)
    else
      var next :- Step(cfg, s, t + 1);
      EveryTick(cfg, next, t + 1, u)
  }

  /** A step at each boundary after t, up to u. */
  function AtBoundaries(cfg: Config, s: State, t: nat, u: nat): Errors.Result<State>
    requires cfg.Valid()
    decreases u - t
  {
    var b := NextBoundary(s, t);
    if b.None? || u < b.value || b.value <= t then Ok(s)
    else
      var next :- Step(cfg, s, b.value);
      AtBoundaries(cfg, next, b.value, u)
  }

  lemma {:induction false} SkipTicks(cfg: Config, s: State, t: nat, m: nat, u: nat)
    requires cfg.Valid() && t <= m <= u && forall v | t < v <= m :: Step(cfg, s, v) == Ok(s)
    ensures EveryTick(cfg, s, t, u) == EveryTick(cfg, s, m, u)
    decreases m - t
  {
    hide Step;
    if t < m {
      SkipTicks(cfg, s, t + 1, m, u);
    }
  }

  /** Between accesses, stepping only at the boundaries equals stepping at every tick. */
  lemma {:induction false} BoundariesSuffice(cfg: Config, s: State, t: nat, u: nat)
    requires cfg.Valid() && Settled(cfg, s, t) && t <= u
    ensures AtBoundaries(cfg, s, t, u) == EveryTick(cfg, s, t, u)
    decreases u - t
  {
    BoundaryBounds(s, t);
    hide Settled, NextBoundary, Step, RequestBounded, JobBounded;
    var b := NextBoundary(s, t);
    if b.None? || u < b.value {
      forall v | t < v <= u
        ensures Step(cfg, s, v) == Ok(s)
      {
        IdleBeforeBoundary(cfg, s, t, v);
      }
      SkipTicks(cfg, s, t, u, u);
    } else {
      forall v | t < v <= b.value - 1
        ensures Step(cfg, s, v) == Ok(s)
      {
        IdleBeforeBoundary(cfg, s, t, v);
      }
      SkipTicks(cfg, s, t, b.value - 1, u);
      if Step(cfg, s, b.value).Ok? {
        StepSettles(cfg, s, b.value);
        BoundariesSuffice(cfg, Step(cfg, s, b.value).value, b.value, u);
      }
    }
  }
}
