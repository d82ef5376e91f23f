/** The decoder service as the object the source runs: queues changed in place by its four phases. */
module DecoderModel {
  import opened Errors
  import opened Time
  import D = Decoder

  method MarkTransmitted(requests: seq<D.Request>, now: nat) returns (marked: seq<D.Request>)
    ensures marked == D.TransmitAll(requests, now)
  {
    marked := requests;
    for i := 0 to |requests|
      invariant |marked| == |requests|
      invariant forall k | 0 <= k < i :: marked[k] == D.Transmit(requests[k], now)
      invariant forall k | i <= k < |requests| :: marked[k] == requests[k]
    {
      if !marked[i].transmitted && marked[i].sent <= now {
        marked := marked[i := marked[i].(transmitted := true)];
      }
    }
  }

  method EraseRequests(requests: seq<D.Request>, reset: D.Request) returns (kept: seq<D.Request>)
    ensures kept == D.Uncancelled(requests, reset)
  {
    kept := [];
    assert requests[0..] == requests;
    for i := 0 to |requests|
      invariant kept + D.Uncancelled(requests[i..], reset) == D.Uncancelled(requests, reset)
    {
      var p := requests[i];
      assert requests[i..][0] == p && requests[i..][1..] == requests[i + 1..];
      if !(p.key == reset.key && p.id < reset.id) {
        assert kept + ([p] + D.Uncancelled(requests[i + 1..], reset)) == kept + [p] + D.Uncancelled(requests[i + 1..], reset);
        kept := kept + [p];
      }
    }
  }

  method EraseJobs(jobs: seq<D.Job>, reset: D.Request) returns (kept: seq<D.Job>)
    ensures kept == D.UncancelledJobs(jobs, reset)
  {
    kept := [];
    assert jobs[0..] == jobs;
    for i := 0 to |jobs|
      invariant kept + D.UncancelledJobs(jobs[i..], reset) == D.UncancelledJobs(jobs, reset)
    {
      var j := jobs[i];
      assert jobs[i..][0] == j && jobs[i..][1..] == jobs[i + 1..];
      if !(j.key == reset.key && j.id < reset.id) {
        assert kept + ([j] + D.UncancelledJobs(jobs[i + 1..], reset)) == kept + [j] + D.UncancelledJobs(jobs[i + 1..], reset);
        kept := kept + [j];
      }
    }
  }

  /** Job r of the first n is the completed one that finished first (with the lowest identifier), or there is none and r is |jobs|. */
  ghost predicate Earliest(jobs: seq<D.Job>, n: nat, r: nat)
    requires n <= |jobs|
  {
    if r == |jobs| then forall k | 0 <= k < n :: !D.Waiting(jobs[k])
    else
      && r < n && D.Waiting(jobs[r])
      && (forall k | 0 <= k < r && D.Waiting(jobs[k]) :: D.Sooner(jobs[r], jobs[k]))
      && (forall k | r < k < n && D.Waiting(jobs[k]) :: !D.Sooner(jobs[k], jobs[r]))
  }

  lemma {:induction false} EarliestIsNext(jobs: seq<D.Job>, r: nat)
    requires Earliest(jobs, |jobs|, r)
    ensures r == D.NextReady(jobs)
    decreases |jobs|
  {
    if jobs != [] {
      var tail := jobs[1..];
      assert forall k | 0 <= k < |tail| :: tail[k] == jobs[k + 1];
      if 0 < r {
        EarliestIsNext(tail, r - 1);
      } else {
        NextIsEarliest(tail);
      }
    }
  }

  /** The job chosen to be sent is the earliest completed one. */
  lemma {:induction false} NextIsEarliest(jobs: seq<D.Job>)
    ensures Earliest(jobs, |jobs|, D.NextReady(jobs))
    decreases |jobs|
  {
    if jobs != [] {
      var tail := jobs[1..];
      assert forall k | 0 <= k < |tail| :: tail[k] == jobs[k + 1];
      NextIsEarliest(tail);
      var rest := D.NextReady(tail);
      forall k | 0 < k < |jobs|
        ensures jobs[k] == tail[k - 1]
      {
      }
    }
  }

  method FindReady(jobs: seq<D.Job>) returns (ready: nat)
    ensures ready == D.NextReady(jobs)
  {
    ready := |jobs|;
    for i := 0 to |jobs|
      invariant Earliest(jobs, i, ready)
    {
      if jobs[i].completed && jobs[i].arrival.None? && (ready == |jobs| || D.Sooner(jobs[i], jobs[ready])) {
        ready := i;
      }
    }
    EarliestIsNext(jobs, ready);
  }

  class DecoderSystem {
    const cfg: D.Config
    var sessions: map<D.Key, D.Session>
    var available: map<nat, nat>
    var requests: seq<D.Request>
    var resetRequest: Option<D.Request>
    var jobs: seq<D.Job>
    var tx: nat
    var rx: nat
    var next: nat

    ghost predicate Valid() reads this { cfg.Valid() }

    ghost function View(): D.State
      reads this
    {
      D.State(sessions, available, requests, resetRequest, jobs, tx, rx, next)
    }

    constructor (cfg: D.Config)
      requires cfg.Valid()
      ensures Valid() && this.cfg == cfg && View() == D.EMPTY
    {
      this.cfg := cfg;
      sessions, available, requests, resetRequest, jobs, tx, rx, next := map[], map[], [], None, [], 0, 0, 1;
    }

    /** Clears everything but the next identifier. */
    method Reset()
      requires Valid()
      modifies this
      ensures Valid() && View() == D.EMPTY.(next := old(next))
    {
      sessions, available, requests, resetRequest, jobs, tx, rx := map[], map[], [], None, [], 0, 0;
    }

    method SubmitPacket(core: nat, decoder: nat, bits: seq<bool>, now: nat) returns (outcome: Result<D.Answer>)
      requires Valid() && decoder in cfg.kernels
      modifies this
      ensures Valid()
      ensures
        var r := D.Access(cfg, old(View()), core, D.Submit(decoder, bits), now);
        if r.Ok? then outcome == Ok(r.value.answer) && View() == r.value.state else outcome == Err(r.error) && View() == old(View())
    {
      hide D.MakePacket;
      if bits == [] || 64 < |bits| {
        return Err(InvalidOperand);
      }
      if cfg.requestCapacity <= |requests| {
        return Ok(D.Blocked);
      }
      var packet :- D.MakePacket(cfg, D.State(sessions, available, requests, resetRequest, jobs, tx, rx, next), (core, decoder), bits, now);
      PacketArrives(cfg, View(), (core, decoder), bits, now);
      requests := requests + [packet];
      next := next + 1;
      tx := packet.arrival - cfg.linkLatency;
      return Ok(D.Done);
    }

    method SubmitReset(core: nat, decoder: nat, now: nat) returns (outcome: Result<D.Answer>)
      requires Valid() && decoder in cfg.kernels
      modifies this
      ensures Valid()
      ensures
        var r := D.Access(cfg, old(View()), core, D.Reset(decoder), now);
        if r.Ok? then outcome == Ok(r.value.answer) && View() == r.value.state else outcome == Err(r.error) && View() == old(View())
    {
      hide D.MakePacket;
      if resetRequest.Some? {
        return Ok(D.Blocked);
      }
      var packet :- D.MakePacket(cfg, D.State(sessions, available, requests, resetRequest, jobs, tx, rx, next), (core, decoder), [], now);
      PacketArrives(cfg, View(), (core, decoder), [], now);
      resetRequest := Some(packet);
      next := next + 1;
      tx := packet.arrival - cfg.linkLatency;
      return Ok(D.Done);
    }

    method ConsumeResult(core: nat, decoder: nat) returns (outcome: Result<D.Answer>)
      requires Valid() && decoder in cfg.kernels
      modifies this
      ensures Valid()
      ensures
        var r := D.Access(cfg, old(View()), core, D.Consume(decoder), 0);
        if r.Ok? then outcome == Ok(r.value.answer) && View() == r.value.state else outcome == Err(r.error) && View() == old(View())
    {
      var key := (core, decoder);
      var session := if key in sessions then sessions[key] else D.FRESH;
      if session.result.None? || session.submitted || session.measurements != [] {
        return Err(Protocol);
      }
      sessions := sessions[key := D.FRESH];
      return Ok(D.Done);
    }

    method AdvanceTransmission(now: nat)
      requires Valid()
      modifies this
      ensures Valid() && View() == D.AdvanceTransmission(old(View()), now)
    {
      hide D.TransmitAll, D.Uncancelled, D.UncancelledJobs;
      var marked := MarkTransmitted(requests, now);
      requests := marked;
      if resetRequest.Some? {
        var p := D.Transmit(resetRequest.value, now);
        if p.arrival <= now {
          resetRequest := None;
          var kept := EraseRequests(requests, p);
          var keptJobs := EraseJobs(jobs, p);
          requests, jobs := kept, keptJobs;
          sessions := sessions[p.key := D.FRESH];
        } else {
          resetRequest := Some(p);
        }
      }
    }

    method AdvanceJobs(now: nat)
      requires Valid()
      modifies this
      ensures Valid() && View() == D.AdvancedJobs(old(View()), now)
    {
      var kept: seq<D.Job> := [];
      var i := 0;
      ghost var all := jobs;
      ghost var target := D.AdvanceJobs(sessions, jobs, now);
      assert all[0..] == all;
      while i < |jobs|
        invariant i <= |jobs| && jobs == all
        invariant View() == old(View()).(sessions := sessions)
        invariant
          var rest := D.AdvanceJobs(sessions, all[i..], now);
          target.sessions == rest.sessions && target.jobs == kept + rest.jobs
      {
        var j := D.Progress(jobs[i], now);
        assert all[i..][0] == all[i] && all[i..][1..] == all[i + 1..];
        if j.arrival.Some? && j.arrival.value <= now {
          sessions := sessions[j.key := D.Returned(if j.key in sessions then sessions[j.key] else D.FRESH, j)];
        } else {
          assert kept + ([j] + D.AdvanceJobs(sessions, all[i + 1..], now).jobs) == kept + [j] + D.AdvanceJobs(sessions, all[i + 1..], now).jobs;
          kept := kept + [j];
        }
        i := i + 1;
      }
      assert kept + [] == kept;
      jobs := kept;
    }

    method AdmitOne(now: nat) returns (outcome: Result<()>)
      requires Valid() && requests != [] && requests[0].key.1 in cfg.kernels
      modifies this
      ensures Valid()
      ensures
        var r := D.AdmitHead(cfg, old(View()), now);
        if r.Ok? then outcome.Ok? && View() == r.value else outcome == Err(r.error) && View() == old(View())
    {
      var p := requests[0];
      var k := cfg.kernels[p.key.1];
      var session := if p.key in sessions then sessions[p.key] else D.FRESH;
      var measurements := session.measurements + p.bits;
      if |session.measurements| + |p.bits| == k.measurements {
        var result :- k.decode(measurements);
        var soonest :- CheckedAdd(now, 1);
        var start := Max(soonest, if p.key.1 in available then available[p.key.1] else 0);
        var free :- CheckedAdd(start, k.interval);
        var completion :- CheckedAdd(start, k.latency);
        available := available[p.key.1 := free];
        jobs := jobs + [D.Job(p.id, p.key, start, completion, result, None, false, false)];
        sessions := sessions[p.key := D.Session([], session.result, true)];
      } else {
        sessions := sessions[p.key := session.(measurements := measurements)];
      }
      requests := requests[1..];
      return Ok(());
    }

    method AdmitRequests(now: nat) returns (outcome: Result<()>)
      requires Valid()
      modifies this
      ensures Valid()
      ensures
        var r := D.AdmitRequests(cfg, old(View()), now);
        if r.Ok? then outcome.Ok? && View() == r.value else outcome == Err(r.error)
    {
      hide D.AdmitHead, D.ReservedCount;
      while requests != [] && requests[0].arrival <= now
        invariant D.AdmitRequests(cfg, View(), now) == D.AdmitRequests(cfg, old(View()), now)
        decreases |requests|
      {
        var p := requests[0];
        if p.key.1 !in cfg.kernels {
          return Err(InvalidOperand);
        }
        var k := cfg.kernels[p.key.1];
        var session := if p.key in sessions then sessions[p.key] else D.FRESH;
        if session.submitted {
          return Ok(());
        }
        if k.measurements < |session.measurements| + |p.bits| {
          return Err(Protocol);
        }
        if |session.measurements| + |p.bits| == k.measurements && session.result.None?
           && cfg.resultCapacity <= D.ReservedCount(sessions) {
          return Ok(());
        }
        HeadIsPopped(cfg, View(), now);
        var _ :- AdmitOne(now);
      }
      return Ok(());
    }

    method TransmitResult(now: nat) returns (outcome: Result<()>)
      requires Valid()
      modifies this
      ensures Valid()
      ensures
        var r := D.TransmitResult(cfg, old(View()), now);
        if r.Ok? then outcome.Ok? && View() == r.value else outcome == Err(r.error) && View() == old(View())
    {
      hide D.NextReady, D.Duration;
      var i := FindReady(jobs);
      if now < rx || i == |jobs| {
        return Ok(());
      }
      if jobs[i].key.1 !in cfg.kernels {
        return Err(InvalidOperand);
      }
      var duration :- D.Duration(cfg, (cfg.kernels[jobs[i].key.1].outputs + 7) / 8);
      var end :- CheckedAdd(now, duration);
      var arrival :- CheckedAdd(end, cfg.linkLatency);
      jobs := jobs[i := jobs[i].(arrival := Some(arrival))];
      rx := end;
      return Ok(());
    }

    method Step(now: nat) returns (outcome: Result<()>)
      requires Valid()
      modifies this
      ensures Valid()
      ensures
        var r := D.Step(cfg, old(View()), now);
        if r.Ok? then outcome.Ok? && View() == r.value else outcome == Err(r.error)
    {
      hide D.AdvanceTransmission, D.AdvancedJobs, D.AdmitRequests, D.TransmitResult;
      AdvanceTransmission(now);
      AdvanceJobs(now);
      var _ :- AdmitRequests(now);
      var _ :- TransmitResult(now);
      return Ok(());
    }

    /** The earliest future tick at which a step can change anything. */
    method NextBoundary(now: nat) returns (boundary: Option<nat>)
      requires Valid()
      ensures boundary == D.NextBoundary(View(), now)
    {
      boundary := None;
      assert requests[0..] == requests && jobs[0..] == jobs;
      for i := 0 to |requests|
        invariant D.RequestBoundaries(boundary, requests[i..], now) == D.RequestBoundaries(None, requests, now)
      {
        assert requests[i..][0] == requests[i] && requests[i..][1..] == requests[i + 1..];
        boundary := D.RequestBoundary(boundary, requests[i], now);
      }
      if resetRequest.Some? {
        boundary := D.RequestBoundary(boundary, resetRequest.value, now);
      }
      ghost var before := boundary;
      for i := 0 to |jobs|
        invariant D.JobBoundaries(boundary, jobs[i..], rx, now) == D.JobBoundaries(before, jobs, rx, now)
      {
        assert jobs[i..][0] == jobs[i] && jobs[i..][1..] == jobs[i + 1..];
        boundary := D.JobBoundary(boundary, jobs[i], rx, now);
      }
    }
  }

  lemma PacketArrives(cfg: D.Config, s: D.State, key: D.Key, bits: seq<bool>, now: nat)
    requires cfg.Valid()
    ensures D.MakePacket(cfg, s, key, bits, now).Ok? ==> cfg.linkLatency <= D.MakePacket(cfg, s, key, bits, now).value.arrival
  {
    hide D.Duration;
  }

  lemma HeadIsPopped(cfg: D.Config, s: D.State, now: nat)
    requires s.requests != [] && s.requests[0].key.1 in cfg.kernels
    ensures D.AdmitHead(cfg, s, now).Ok? ==> D.AdmitHead(cfg, s, now).value.requests == s.requests[1..]
  {
  }
}
