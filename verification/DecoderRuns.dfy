/** Whole runs of the decoder service, seen by one session: its result is a plain XOR accumulator over its windows. */
module DecoderRuns {
  import opened Errors
  import opened Time
  import opened Decoder

  datatype Packet = Packet(id: nat, bits: seq<bool>)

  /**
   * One session's history: every accepted submission and the last accepted reset; the last reset performed
   * and the submissions after it, of which the first `consumed` were consumed and the first `admitted`
   * admitted; and, since the last consume or reset, the complete windows, their decoded values, and how many
   * of those have been returned.
   */
  datatype Track = Track(submitted: seq<Packet>, lastReset: nat, cut: nat, packets: seq<Packet>, consumed: nat, admitted: nat,
                         windows: seq<seq<bool>>, values: seq<Bits64>, returned: nat)

  const NEW_TRACK := Track([], 0, 0, [], 0, 0, [], [], 0)

  // ---- One session's part of the service ----

  /** The session's packets in the shared queue, in order. */
  function QueueOf(requests: seq<Request>, key: Key): seq<Packet> {
    if requests == [] then []
    else (if requests[0].key == key then [Packet(requests[0].id, requests[0].bits)] else []) + QueueOf(requests[1..], key)
  }

  function JobsOf(jobs: seq<Job>, key: Key): seq<Job> {
    if jobs == [] then [] else (if jobs[0].key == key then [jobs[0]] else []) + JobsOf(jobs[1..], key)
  }

  /** The packets from an identifier on. */
  function From(packets: seq<Packet>, id: nat): seq<Packet> {
    if packets == [] then [] else (if packets[0].id < id then [] else [packets[0]]) + From(packets[1..], id)
  }

  function Bits(packets: seq<Packet>): seq<bool> {
    if packets == [] then [] else Bits(packets[..|packets| - 1]) + packets[|packets| - 1].bits
  }

  function Concat(windows: seq<seq<bool>>): seq<bool> {
    if windows == [] then [] else Concat(windows[..|windows| - 1]) + windows[|windows| - 1]
  }

  /** The exclusive or of all values. */
  function XorAll(values: seq<Bits64>): Bits64 {
    if values == [] then 0 else Xor(XorAll(values[..|values| - 1]), values[|values| - 1])
  }

  /** The consecutive complete windows of a bit stream. */
  function Windows(bits: seq<bool>, size: nat): seq<seq<bool>>
    requires 0 < size
    decreases |bits|
  {
    if |bits| < size then [] else [bits[..size]] + Windows(bits[size..], size)
  }

  // ---- How an operation changes the history ----

  function AccessTrack(cfg: Config, s: State, key: Key, t: Track, core: nat, command: Command, now: nat): Track
    requires cfg.Valid()
  {
    var accessed := Access(cfg, s, core, command, now);
    if key != (core, command.decoder) || accessed.Err? || accessed.value.answer != Done then t
    else
      match command
      case Submit(_, bits) => t.(submitted := t.submitted + [Packet(s.next, bits)], packets := t.packets + [Packet(s.next, bits)])
      case Reset(_) => t.(lastReset := s.next)
      case Consume(_) => t.(consumed := t.admitted, windows := [], values := [], returned := 0)
      case _ => t
  }

  predicate Performs(s: State, key: Key, now: nat) {
    s.reset.Some? && s.reset.value.key == key && s.reset.value.arrival <= now
  }

  function ResetTrack(s: State, key: Key, t: Track, now: nat): Track {
    if Performs(s, key, now) then
      t.(cut := s.reset.value.id, packets := From(t.packets, s.reset.value.id), consumed := 0, admitted := 0,
         windows := [], values := [], returned := 0)
    else t
  }

  predicate Returns(j: Job, now: nat) { j.arrival.Some? && j.arrival.value <= now }

  function JobsTrack(jobs: seq<Job>, key: Key, t: Track, now: nat): Track
    decreases |jobs|
  {
    if jobs == [] then t
    else JobsTrack(jobs[1..], key, if jobs[0].key == key && Returns(jobs[0], now) then t.(returned := t.returned + 1) else t, now)
  }

  function AdmitTrack(cfg: Config, s: State, key: Key, t: Track): Track
    requires s.requests != [] && s.requests[0].key.1 in cfg.kernels
  {
    var p, k := s.requests[0], cfg.kernels[s.requests[0].key.1];
    var session := SessionOf(s, p.key);
    if p.key != key then t
    else if !Completes(k, session, p) then t.(admitted := t.admitted + 1)
    else
      var window := session.measurements + p.bits;
      t.(admitted := t.admitted + 1, windows := t.windows + [window],
         values := t.values + [if k.decode(window).Ok? then k.decode(window).value else 0])
  }

  /** The history and the last identifier taken from the queue. */
  datatype Admitting = Admitting(track: Track, frontier: nat)

  function AdmissionTrack(cfg: Config, s: State, key: Key, t: Track, frontier: nat, now: nat): Admitting
    decreases |s.requests|
  {
    if s.requests == [] || now < s.requests[0].arrival || s.requests[0].key.1 !in cfg.kernels then Admitting(t, frontier)
    else
      var p, k := s.requests[0], cfg.kernels[s.requests[0].key.1];
      if SessionOf(s, p.key).submitted || k.measurements < |SessionOf(s, p.key).measurements| + |p.bits| || HeadBlocked(cfg, s, p, k)
         || AdmitHead(cfg, s, now).Err?
      then Admitting(t, frontier)
      else AdmissionTrack(cfg, AdmitHead(cfg, s, now).value, key, AdmitTrack(cfg, s, key, t), p.id, now)
  }

  // ---- Runs ----

  /** The service with one session's history. */
  datatype Run = Run(state: State, track: Track, frontier: nat)

  datatype Op = Accesses(core: nat, command: Command, now: nat) | Steps(now: nat)

  function Apply(cfg: Config, key: Key, r: Run, op: Op): Errors.Result<Run>
    requires cfg.Valid()
  {
    match op
    case Accesses(core, command, now) =>
      var accessed :- Decoder.Access(cfg, r.state, core, command, now);
      Ok(Run(accessed.state, AccessTrack(cfg, r.state, key, r.track, core, command, now), r.frontier))
    case Steps(now) =>
      var next :- Decoder.Step(cfg, r.state, now);
      var s1 := AdvanceTransmission(r.state, now);
      var a := AdmissionTrack(cfg, AdvancedJobs(s1, now), key,
                              JobsTrack(s1.jobs, key, ResetTrack(r.state, key, r.track, now), now), r.frontier, now);
      Ok(Run(next, a.track, a.frontier))
  }

  function RunAll(cfg: Config, key: Key, r: Run, ops: seq<Op>): Errors.Result<Run>
    requires cfg.Valid()
    decreases |ops|
  {
    if ops == [] then Ok(r)
    else
      var next :- Apply(cfg, key, r, ops[0]);
      RunAll(cfg, key, next, ops[1..])
  }

  const BEGIN := Run(EMPTY, NEW_TRACK, 0)

  // ---- The invariant ----

  /** Packets and the reset are in the order of their identifiers, on the link as in the queue. */
  ghost predicate QueueOk(cfg: Config, requests: seq<Request>, reset: Option<Request>, tx: nat, next: nat, frontier: nat) {
    && frontier < next
    && (forall i | 0 <= i < |requests| :: frontier < requests[i].id < next && requests[i].arrival <= tx + cfg.linkLatency)
    && (forall i, j | 0 <= i < j < |requests| :: requests[i].id < requests[j].id && requests[i].arrival < requests[j].arrival)
    && (reset.Some? ==>
          && frontier < reset.value.id < next && reset.value.arrival <= tx + cfg.linkLatency
          && forall i | 0 <= i < |requests| ::
               && requests[i].id != reset.value.id
               && (requests[i].id < reset.value.id <==> requests[i].arrival < reset.value.arrival))
  }

  ghost predicate PacketsOk(t: Track, queue: seq<Packet>, reset: Option<Request>, key: Key, next: nat, frontier: nat) {
    && t.consumed <= t.admitted <= |t.packets| && queue == t.packets[t.admitted..]
    && t.packets == From(t.submitted, t.cut)
    && (forall i | 0 <= i < t.admitted :: t.packets[i].id <= frontier)
    && t.cut < next && t.lastReset < next
    && (if reset.Some? && reset.value.key == key then t.lastReset == reset.value.id else t.cut == t.lastReset)
    && (reset.Some? && reset.value.key == key ==> t.cut <= reset.value.id)
  }

  ghost predicate WindowsOk(k: Kernel, t: Track, session: Session)
    requires t.consumed <= t.admitted <= |t.packets|
  {
    && Bits(t.packets[t.consumed..t.admitted]) == Concat(t.windows) + session.measurements
    && |session.measurements| < k.measurements
    && |t.values| == |t.windows|
    && forall i | 0 <= i < |t.windows| :: |t.windows[i]| == k.measurements && k.decode(t.windows[i]) == Ok(t.values[i])
  }

  /** The result is the XOR of the returned values; a submitted window has exactly one job. */
  ghost predicate ResultOk(t: Track, session: Session, jobs: seq<Job>) {
    && t.returned <= |t.values|
    && session.result == (if t.returned == 0 then None else Some(XorAll(t.values[..t.returned])))
    && (if session.submitted then t.returned + 1 == |t.values| && |jobs| == 1 && jobs[0].result == t.values[t.returned]
        else t.returned == |t.values| && jobs == [])
  }

  ghost predicate SessionOk(k: Kernel, s: State, key: Key, t: Track, frontier: nat) {
    && PacketsOk(t, QueueOf(s.requests, key), s.reset, key, s.next, frontier)
    && WindowsOk(k, t, SessionOf(s, key))
    && ResultOk(t, SessionOf(s, key), JobsOf(s.jobs, key))
  }

  /** Every job belongs to a session that awaits its result, and to no other job's session. */
  ghost predicate JobsOwned(sessions: map<Key, Session>, jobs: seq<Job>, frontier: nat) {
    && (forall i | 0 <= i < |jobs| :: jobs[i].id <= frontier && jobs[i].key in sessions && sessions[jobs[i].key].submitted)
    && (forall i, j | 0 <= i < j < |jobs| :: jobs[i].key != jobs[j].key)
  }

  ghost predicate ServiceOk(cfg: Config, s: State, frontier: nat) {
    && QueueOk(cfg, s.requests, s.reset, s.tx, s.next, frontier)
    && JobsOwned(s.sessions, s.jobs, frontier)
    && ReservedCount(s.sessions) <= cfg.resultCapacity
  }

  ghost predicate RunOk(cfg: Config, key: Key, r: Run)
    requires key.1 in cfg.kernels
  {
    ServiceOk(cfg, r.state, r.frontier) && SessionOk(cfg.kernels[key.1], r.state, key, r.track, r.frontier)
  }

  lemma BeginIsOk(cfg: Config, key: Key)
    requires cfg.Valid() && key.1 in cfg.kernels
    ensures RunOk(cfg, key, BEGIN)
  {
    assert (set k | k in EMPTY.sessions && Reserved(EMPTY.sessions[k])) == {};
  }

  // ---- Filters ----

  lemma {:induction false} QueueAppends(xs: seq<Request>, x: Request, key: Key)
    ensures QueueOf(xs + [x], key) == QueueOf(xs, key) + if x.key == key then [Packet(x.id, x.bits)] else []
    decreases |xs|
  {
    if xs == [] {
      assert (xs + [x])[1..] == [];
    } else {
      assert (xs + [x])[0] == xs[0] && (xs + [x])[1..] == xs[1..] + [x];
      QueueAppends(xs[1..], x, key);
    }
  }

  lemma {:induction false} JobsAppend(xs: seq<Job>, ys: seq<Job>, key: Key)
    ensures JobsOf(xs + ys, key) == JobsOf(xs, key) + JobsOf(ys, key)
    decreases |xs|
  {
    if xs == [] {
      assert xs + ys == ys;
    } else {
      assert (xs + ys)[0] == xs[0] && (xs + ys)[1..] == xs[1..] + ys;
      JobsAppend(xs[1..], ys, key);
      assert JobsOf(xs + ys, key) == (if xs[0].key == key then [xs[0]] else []) + JobsOf(xs[1..] + ys, key);
    }
  }

  lemma {:induction false} FromAppends(xs: seq<Packet>, ys: seq<Packet>, id: nat)
    ensures From(xs + ys, id) == From(xs, id) + From(ys, id)
    decreases |xs|
  {
    if xs == [] {
      assert xs + ys == ys;
    } else {
      assert (xs + ys)[0] == xs[0] && (xs + ys)[1..] == xs[1..] + ys;
      FromAppends(xs[1..], ys, id);
      assert From(xs + ys, id) == (if xs[0].id < id then [] else [xs[0]]) + From(xs[1..] + ys, id);
    }
  }

  lemma {:induction false} FromNone(xs: seq<Packet>, id: nat)
    requires forall i | 0 <= i < |xs| :: xs[i].id < id
    ensures From(xs, id) == []
    decreases |xs|
  {
    if xs != [] {
      assert forall i | 0 <= i < |xs| - 1 :: xs[1..][i] == xs[i + 1];
      FromNone(xs[1..], id);
    }
  }

  lemma {:induction false} FromFrom(xs: seq<Packet>, cut: nat, id: nat)
    requires cut <= id
    ensures From(From(xs, cut), id) == From(xs, id)
    decreases |xs|
  {
    if xs != [] {
      FromFrom(xs[1..], cut, id);
      FromAppends(if xs[0].id < cut then [] else [xs[0]], From(xs[1..], cut), id);
    }
  }

  /** A reset cancels its session's earlier packets, and no others. */
  lemma {:induction false} CancelledQueue(requests: seq<Request>, reset: Request, key: Key)
    ensures QueueOf(Uncancelled(requests, reset), key)
         == if key == reset.key then From(QueueOf(requests, key), reset.id) else QueueOf(requests, key)
    decreases |requests|
  {
    if requests != [] {
      var p := requests[0];
      CancelledQueue(requests[1..], reset, key);
      var rest := Uncancelled(requests[1..], reset);
      if p.key == reset.key && p.id < reset.id {
        assert Uncancelled(requests, reset) == rest;
      } else {
        assert Uncancelled(requests, reset) == [p] + rest;
        assert ([p] + rest)[1..] == rest;
      }
      FromAppends(if p.key == key then [Packet(p.id, p.bits)] else [], QueueOf(requests[1..], key), reset.id);
    }
  }

  lemma {:induction false} CancelledJobs(jobs: seq<Job>, reset: Request, key: Key)
    requires forall i | 0 <= i < |jobs| :: jobs[i].id < reset.id
    ensures JobsOf(UncancelledJobs(jobs, reset), key) == if key == reset.key then [] else JobsOf(jobs, key)
    decreases |jobs|
  {
    if jobs != [] {
      assert forall i | 0 <= i < |jobs| - 1 :: jobs[1..][i] == jobs[i + 1];
      CancelledJobs(jobs[1..], reset, key);
      var rest := UncancelledJobs(jobs[1..], reset);
      if jobs[0].key == reset.key {
        assert UncancelledJobs(jobs, reset) == rest;
      } else {
        assert UncancelledJobs(jobs, reset) == [jobs[0]] + rest && ([jobs[0]] + rest)[1..] == rest;
      }
    }
  }

  lemma {:induction false} TransmitKeepsQueue(requests: seq<Request>, now: nat, key: Key)
    ensures QueueOf(TransmitAll(requests, now), key) == QueueOf(requests, key)
    decreases |requests|
  {
    if requests != [] {
      assert TransmitAll(requests, now)[1..] == TransmitAll(requests[1..], now);
      TransmitKeepsQueue(requests[1..], now, key);
    }
  }

  // ---- Counting reserved sessions ----

  function ReservedSet(sessions: map<Key, Session>): set<Key> {
    set key | key in sessions && Reserved(sessions[key])
  }

  /** An update reserves at most one more slot, and none when the session held one or holds none now. */
  lemma ReservedAfterUpdate(sessions: map<Key, Session>, key: Key, session: Session)
    ensures ReservedCount(sessions[key := session]) <= ReservedCount(sessions) + 1
    ensures !Reserved(session) || (key in sessions && Reserved(sessions[key]))
            ==> ReservedCount(sessions[key := session]) <= ReservedCount(sessions)
  {
    var before, after := ReservedSet(sessions), ReservedSet(sessions[key := session]);
    assert after <= before + {key};
    Subset(after, before + {key});
    if !Reserved(session) || (key in sessions && Reserved(sessions[key])) {
      assert after <= before;
      Subset(after, before);
    }
  }

  lemma {:induction false} Subset<T>(a: set<T>, b: set<T>)
    requires a <= b
    ensures |a| <= |b|
    decreases |a|
  {
    if a != {} {
      var x :| x in a;
      Subset(a - {x}, b - {x});
    }
  }

  // ---- Accesses ----

  lemma PacketIsLatest(cfg: Config, s: State, key: Key, bits: seq<bool>, now: nat, frontier: nat)
    requires cfg.Valid() && MakePacket(cfg, s, key, bits, now).Ok?
    ensures
      var p := MakePacket(cfg, s, key, bits, now).value;
      && p.id == s.next && p.key == key && p.bits == bits && s.tx + cfg.linkLatency < p.arrival && cfg.linkLatency <= p.arrival
      && !p.transmitted
  {
  }

  lemma SubmitKeepsQueue(cfg: Config, requests: seq<Request>, reset: Option<Request>, tx: nat, next: nat, frontier: nat, p: Request)
    requires QueueOk(cfg, requests, reset, tx, next, frontier) && p.id == next && tx + cfg.linkLatency < p.arrival
    ensures QueueOk(cfg, requests + [p], reset, p.arrival - cfg.linkLatency, next + 1, frontier)
  {
  }

  lemma ResetKeepsQueue(cfg: Config, requests: seq<Request>, tx: nat, next: nat, frontier: nat, p: Request)
    requires QueueOk(cfg, requests, None, tx, next, frontier) && p.id == next && tx + cfg.linkLatency < p.arrival
    ensures QueueOk(cfg, requests, Some(p), p.arrival - cfg.linkLatency, next + 1, frontier)
  {
  }

  lemma SubmitKeepsPackets(t: Track, queue: seq<Packet>, reset: Option<Request>, key: Key, next: nat, frontier: nat, bits: seq<bool>)
    requires PacketsOk(t, queue, reset, key, next, frontier)
    ensures
      var p := Packet(next, bits);
      PacketsOk(t.(submitted := t.submitted + [p], packets := t.packets + [p]), queue + [p], reset, key, next + 1, frontier)
  {
    FromAppends(t.submitted, [Packet(next, bits)], t.cut);
  }

  lemma PacketsBounds(t: Track, queue: seq<Packet>, reset: Option<Request>, key: Key, next: nat, frontier: nat)
    requires PacketsOk(t, queue, reset, key, next, frontier)
    ensures t.consumed <= t.admitted <= |t.packets|
  {
    hide From;
  }

  lemma SubmitKeepsRun(cfg: Config, key: Key, r: Run, core: nat, command: Command, now: nat)
    requires cfg.Valid() && key.1 in cfg.kernels && RunOk(cfg, key, r) && command.Submit?
    requires Decoder.Access(cfg, r.state, core, command, now).Ok?
    ensures RunOk(cfg, key, Apply(cfg, key, r, Accesses(core, command, now)).value)
  {
    hide MakePacket, QueueOk, PacketsOk, WindowsOk, ResultOk, JobsOwned, ReservedCount, QueueOf, JobsOf, From, Bits;
    var s, own := r.state, (core, command.decoder);
    if |s.requests| < cfg.requestCapacity {
      PacketIsLatest(cfg, s, own, command.bits, now, r.frontier);
      var p := MakePacket(cfg, s, own, command.bits, now).value;
      PacketsBounds(r.track, QueueOf(s.requests, key), s.reset, key, s.next, r.frontier);
      SubmitKeepsQueue(cfg, s.requests, s.reset, s.tx, s.next, r.frontier, p);
      QueueAppends(s.requests, p, key);
      if own == key {
        SubmitKeepsPackets(r.track, QueueOf(s.requests, key), s.reset, key, s.next, r.frontier, command.bits);
        SubmitKeepsWindows(cfg.kernels[key.1], r.track, SessionOf(s, key), Packet(s.next, command.bits));
        SubmitKeepsResult(r.track, SessionOf(s, key), JobsOf(s.jobs, key), Packet(s.next, command.bits));
      } else {
        assert QueueOf(s.requests, key) + [] == QueueOf(s.requests, key);
        NextGrows(r.track, QueueOf(s.requests, key), s.reset, key, s.next, r.frontier);
      }
    }
  }

  lemma SubmitKeepsWindows(k: Kernel, t: Track, session: Session, p: Packet)
    requires t.consumed <= t.admitted <= |t.packets| && WindowsOk(k, t, session)
    ensures WindowsOk(k, t.(submitted := t.submitted + [p], packets := t.packets + [p]), session)
  {
    assert (t.packets + [p])[t.consumed..t.admitted] == t.packets[t.consumed..t.admitted];
    hide Bits, Concat;
  }

  lemma SubmitKeepsResult(t: Track, session: Session, jobs: seq<Job>, p: Packet)
    requires ResultOk(t, session, jobs)
    ensures ResultOk(t.(submitted := t.submitted + [p], packets := t.packets + [p]), session, jobs)
  {
    hide XorAll;
  }

  lemma NextGrows(t: Track, queue: seq<Packet>, reset: Option<Request>, key: Key, next: nat, frontier: nat)
    requires PacketsOk(t, queue, reset, key, next, frontier)
    ensures PacketsOk(t, queue, reset, key, next + 1, frontier)
  {
    hide From;
  }

  lemma ResetKeepsService(cfg: Config, key: Key, r: Run, core: nat, command: Command, now: nat)
    requires cfg.Valid() && key.1 in cfg.kernels && RunOk(cfg, key, r) && command.Reset? && r.state.reset.None?
    requires Decoder.Access(cfg, r.state, core, command, now).Ok?
    ensures ServiceOk(cfg, Decoder.Access(cfg, r.state, core, command, now).value.state, r.frontier)
  {
    var s, own := r.state, (core, command.decoder);
    PacketIsLatest(cfg, s, own, [], now, r.frontier);
    var p := MakePacket(cfg, s, own, [], now).value;
    hide MakePacket, QueueOk, SessionOk, JobsOwned, ReservedCount;
    ResetKeepsQueue(cfg, s.requests, s.tx, s.next, r.frontier, p);
  }

  lemma ResetKeepsSession(cfg: Config, key: Key, r: Run, core: nat, command: Command, now: nat)
    requires cfg.Valid() && key.1 in cfg.kernels && RunOk(cfg, key, r) && command.Reset? && r.state.reset.None?
    requires Decoder.Access(cfg, r.state, core, command, now).Ok?
    ensures
      var r' := Apply(cfg, key, r, Accesses(core, command, now)).value;
      SessionOk(cfg.kernels[key.1], r'.state, key, r'.track, r.frontier)
  {
    var s, own := r.state, (core, command.decoder);
    PacketIsLatest(cfg, s, own, [], now, r.frontier);
    hide MakePacket, ServiceOk, WindowsOk, ResultOk, QueueOf, From, Bits;
    if own == key {
      LaterReset(cfg.kernels[key.1], r.track, SessionOf(s, key), JobsOf(s.jobs, key), s.next);
    }
  }

  lemma ResetCommandKeepsRun(cfg: Config, key: Key, r: Run, core: nat, command: Command, now: nat)
    requires cfg.Valid() && key.1 in cfg.kernels && RunOk(cfg, key, r) && command.Reset?
    requires Decoder.Access(cfg, r.state, core, command, now).Ok?
    ensures RunOk(cfg, key, Apply(cfg, key, r, Accesses(core, command, now)).value)
  {
    hide ServiceOk, SessionOk, MakePacket;
    if r.state.reset.None? {
      ResetKeepsService(cfg, key, r, core, command, now);
      ResetKeepsSession(cfg, key, r, core, command, now);
    }
  }

  lemma LaterReset(k: Kernel, t: Track, session: Session, jobs: seq<Job>, id: nat)
    requires t.consumed <= t.admitted <= |t.packets| && WindowsOk(k, t, session) && ResultOk(t, session, jobs)
    ensures WindowsOk(k, t.(lastReset := id), session) && ResultOk(t.(lastReset := id), session, jobs)
  {
    hide Bits, Concat, XorAll;
  }

  lemma ConsumeKeepsRun(cfg: Config, key: Key, r: Run, core: nat, command: Command, now: nat)
    requires cfg.Valid() && key.1 in cfg.kernels && RunOk(cfg, key, r) && command.Consume?
    requires Decoder.Access(cfg, r.state, core, command, now).Ok?
    ensures RunOk(cfg, key, Apply(cfg, key, r, Accesses(core, command, now)).value)
  {
    var s, own := r.state, (core, command.decoder);
    hide QueueOk, QueueOf, From, ReservedCount, XorAll, JobsOf;
    ReservedAfterUpdate(s.sessions, own, FRESH);
    ConsumeKeepsJobs(s.sessions, s.jobs, own, r.frontier);
    if own == key {
      assert r.track.packets[r.track.admitted..r.track.admitted] == [];
    }
  }

  lemma ConsumeKeepsJobs(sessions: map<Key, Session>, jobs: seq<Job>, key: Key, frontier: nat)
    requires JobsOwned(sessions, jobs, frontier) && (key in sessions ==> !sessions[key].submitted)
    ensures JobsOwned(sessions[key := FRESH], jobs, frontier)
  {
  }

  lemma AccessKeepsRun(cfg: Config, key: Key, r: Run, core: nat, command: Command, now: nat)
    requires cfg.Valid() && key.1 in cfg.kernels && RunOk(cfg, key, r)
    requires Decoder.Access(cfg, r.state, core, command, now).Ok?
    ensures RunOk(cfg, key, Apply(cfg, key, r, Accesses(core, command, now)).value)
  {
    match command {
      case Submit(_, _) => SubmitKeepsRun(cfg, key, r, core, command, now);
      case Reset(_) => ResetCommandKeepsRun(cfg, key, r, core, command, now);
      case Consume(_) => ConsumeKeepsRun(cfg, key, r, core, command, now);
      case Status(_) => hide RunOk, Busy;
      case Read(_) => hide RunOk;
    }
  }

  // ---- Transmission and the reset ----

  lemma {:induction false} UncancelledMembers(requests: seq<Request>, reset: Request)
    ensures forall p | p in Uncancelled(requests, reset) :: p in requests
    decreases |requests|
  {
    if requests != [] {
      UncancelledMembers(requests[1..], reset);
      assert requests == [requests[0]] + requests[1..];
    }
  }

  lemma MemberPosition(requests: seq<Request>, p: Request) returns (i: nat)
    requires p in requests
    ensures i < |requests| && requests[i] == p
  {
    i :| 0 <= i < |requests| && requests[i] == p;
  }

  ghost predicate InOrder(requests: seq<Request>) {
    forall i, j | 0 <= i < j < |requests| :: requests[i].id < requests[j].id && requests[i].arrival < requests[j].arrival
  }

  lemma {:induction false} UncancelledOrder(requests: seq<Request>, reset: Request)
    requires InOrder(requests)
    ensures InOrder(Uncancelled(requests, reset))
    decreases |requests|
  {
    if requests != [] {
      var tail := requests[1..];
      assert forall i | 0 <= i < |tail| :: tail[i] == requests[i + 1];
      UncancelledOrder(tail, reset);
      UncancelledMembers(tail, reset);
      var rest := Uncancelled(tail, reset);
      hide Uncancelled;
      forall j | 0 <= j < |rest|
        ensures requests[0].id < rest[j].id && requests[0].arrival < rest[j].arrival
      {
        var i := MemberPosition(tail, rest[j]);
      }
    }
  }

  /** Marking packets as transmitted keeps the queue in order. */
  lemma MarkingKeepsQueue(cfg: Config, requests: seq<Request>, reset: Option<Request>, tx: nat, next: nat, frontier: nat, now: nat)
    requires QueueOk(cfg, requests, reset, tx, next, frontier)
    ensures QueueOk(cfg, TransmitAll(requests, now), if reset.Some? then Some(Transmit(reset.value, now)) else None, tx, next, frontier)
  {
  }

  lemma CancellingKeepsQueue(cfg: Config, requests: seq<Request>, reset: Request, tx: nat, next: nat, frontier: nat)
    requires QueueOk(cfg, requests, Some(reset), tx, next, frontier)
    ensures QueueOk(cfg, Uncancelled(requests, reset), None, tx, next, frontier)
  {
    UncancelledOrder(requests, reset);
    UncancelledMembers(requests, reset);
    var rest := Uncancelled(requests, reset);
    hide Uncancelled;
    forall i | 0 <= i < |rest|
      ensures frontier < rest[i].id < next && rest[i].arrival <= tx + cfg.linkLatency
    {
      var j := MemberPosition(requests, rest[i]);
    }
    assert InOrder(rest);
  }

  lemma TransmissionKeepsQueue(cfg: Config, s: State, now: nat, frontier: nat)
    requires QueueOk(cfg, s.requests, s.reset, s.tx, s.next, frontier)
    ensures
      var s' := AdvanceTransmission(s, now);
      QueueOk(cfg, s'.requests, s'.reset, s'.tx, s'.next, frontier)
  {
    hide QueueOk, TransmitAll, Uncancelled, UncancelledJobs;
    MarkingKeepsQueue(cfg, s.requests, s.reset, s.tx, s.next, frontier, now);
    if s.reset.Some? && s.reset.value.arrival <= now {
      CancellingKeepsQueue(cfg, TransmitAll(s.requests, now), Transmit(s.reset.value, now), s.tx, s.next, frontier);
    }
  }

  lemma {:induction false} UncancelledOwned(sessions: map<Key, Session>, jobs: seq<Job>, reset: Request, frontier: nat)
    requires JobsOwned(sessions, jobs, frontier) && frontier < reset.id
    ensures JobsOwned(sessions[reset.key := FRESH], UncancelledJobs(jobs, reset), frontier)
    ensures forall j | j in UncancelledJobs(jobs, reset) :: j in jobs
    decreases |jobs|
  {
    if jobs != [] {
      var tail := jobs[1..];
      assert forall i | 0 <= i < |tail| :: tail[i] == jobs[i + 1];
      UncancelledOwned(sessions, tail, reset, frontier);
      assert jobs == [jobs[0]] + tail;
      var rest := UncancelledJobs(tail, reset);
      forall j | 0 <= j < |rest|
        ensures rest[j].key != jobs[0].key
      {
        assert rest[j] in rest;
        var i :| 0 <= i < |tail| && tail[i] == rest[j];
      }
    }
  }

  lemma PerformedReset(t: Track, queue: seq<Packet>, reset: Request, key: Key, next: nat, frontier: nat)
    requires PacketsOk(t, queue, Some(reset), key, next, frontier) && reset.key == key && frontier < reset.id
    ensures
      var t' := t.(cut := reset.id, packets := From(t.packets, reset.id), consumed := 0, admitted := 0, windows := [], values := [], returned := 0);
      PacketsOk(t', From(queue, reset.id), None, key, next, frontier)
  {
    var done, rest := t.packets[..t.admitted], t.packets[t.admitted..];
    assert t.packets == done + rest;
    FromAppends(done, rest, reset.id);
    FromNone(done, reset.id);
    FromFrom(t.submitted, t.cut, reset.id);
    assert From(t.packets, reset.id) == From(rest, reset.id);
    assert From(t.packets, reset.id)[0..] == From(t.packets, reset.id);
  }

  lemma FrontierBelowReset(cfg: Config, s: State, frontier: nat)
    requires ServiceOk(cfg, s, frontier) && s.reset.Some?
    ensures frontier < s.reset.value.id && forall i | 0 <= i < |s.jobs| :: s.jobs[i].id < s.reset.value.id
  {
    hide ReservedCount;
  }

  lemma OwnResetKeepsSession(cfg: Config, key: Key, s: State, t: Track, now: nat, frontier: nat, after: State, reset: Track)
    requires cfg.Valid() && key.1 in cfg.kernels && ServiceOk(cfg, s, frontier) && SessionOk(cfg.kernels[key.1], s, key, t, frontier)
    requires Performs(s, key, now) && after == AdvanceTransmission(s, now) && reset == ResetTrack(s, key, t, now)
    ensures SessionOk(cfg.kernels[key.1], after, key, reset, frontier)
  {
    hide TransmitAll, QueueOf, JobsOf, Uncancelled, UncancelledJobs, ReservedCount, Bits, From, XorAll, PacketsOk,
      ServiceOk;
    TransmitKeepsQueue(s.requests, now, key);
    var p := Transmit(s.reset.value, now);
    FrontierBelowReset(cfg, s, frontier);
    CancelledQueue(TransmitAll(s.requests, now), p, key);
    CancelledJobs(s.jobs, p, key);
    PerformedReset(t, QueueOf(s.requests, key), s.reset.value, key, s.next, frontier);
    EmptyTrack(cfg.kernels[key.1], ResetTrack(s, key, t, now));
    assert cfg.kernels[key.1].Valid();
  }

  lemma EmptyTrack(k: Kernel, t: Track)
    requires k.Valid() && t.consumed == t.admitted == 0 && t.windows == [] && t.values == [] && t.returned == 0
    ensures WindowsOk(k, t, FRESH) && ResultOk(t, FRESH, [])
  {
    assert t.packets[0..0] == [];
  }

  lemma OtherResetKeepsSession(cfg: Config, key: Key, s: State, t: Track, now: nat, frontier: nat)
    requires cfg.Valid() && key.1 in cfg.kernels && ServiceOk(cfg, s, frontier) && SessionOk(cfg.kernels[key.1], s, key, t, frontier)
    requires !Performs(s, key, now)
    ensures SessionOk(cfg.kernels[key.1], AdvanceTransmission(s, now), key, ResetTrack(s, key, t, now), frontier)
  {
    hide TransmitAll, QueueOf, JobsOf, Uncancelled, UncancelledJobs, ReservedCount, Bits, From, XorAll, WindowsOk,
      ResultOk, ServiceOk;
    TransmitKeepsQueue(s.requests, now, key);
    if s.reset.Some? && s.reset.value.arrival <= now {
      var p := Transmit(s.reset.value, now);
      FrontierBelowReset(cfg, s, frontier);
      CancelledQueue(TransmitAll(s.requests, now), p, key);
      CancelledJobs(s.jobs, p, key);
    }
  }

  lemma TransmissionKeepsSession(cfg: Config, key: Key, s: State, t: Track, now: nat, frontier: nat)
    requires cfg.Valid() && key.1 in cfg.kernels && ServiceOk(cfg, s, frontier) && SessionOk(cfg.kernels[key.1], s, key, t, frontier)
    ensures SessionOk(cfg.kernels[key.1], AdvanceTransmission(s, now), key, ResetTrack(s, key, t, now), frontier)
  {
    hide *;
    if Performs(s, key, now) {
      OwnResetKeepsSession(cfg, key, s, t, now, frontier, AdvanceTransmission(s, now), ResetTrack(s, key, t, now));
    } else {
      OtherResetKeepsSession(cfg, key, s, t, now, frontier);
    }
  }

  lemma TransmissionKeepsService(cfg: Config, s: State, now: nat, frontier: nat)
    requires cfg.Valid() && ServiceOk(cfg, s, frontier)
    ensures ServiceOk(cfg, AdvanceTransmission(s, now), frontier)
  {
    TransmissionKeepsQueue(cfg, s, now, frontier);
    if s.reset.Some? && s.reset.value.arrival <= now {
      var p := Transmit(s.reset.value, now);
      UncancelledOwned(s.sessions, s.jobs, p, frontier);
      ReservedAfterUpdate(s.sessions, p.key, FRESH);
    }
    hide QueueOk, JobsOwned, ReservedCount, TransmitAll, Uncancelled, UncancelledJobs;
  }

  // ---- Jobs ----

  ghost predicate SameResults(a: seq<Job>, b: seq<Job>) {
    |a| == |b| && forall i | 0 <= i < |a| :: a[i].result == b[i].result
  }

  lemma ResultsAside(t: Track, session: Session, a: seq<Job>, b: seq<Job>)
    requires ResultOk(t, session, a) && SameResults(a, b)
    ensures ResultOk(t, session, b)
  {
    hide XorAll;
  }

  /** A session's view of the jobs after the first of them has been processed. */
  lemma OneJobProgresses(kept: seq<Job>, j: Job, j': Job, rest: seq<Job>, key: Key)
    requires j'.key == j.key && j'.result == j.result
    ensures SameResults(JobsOf(kept + ([j] + rest), key), JobsOf(kept + [j'] + rest, key))
  {
    JobsAppend(kept, [j] + rest, key);
    JobsAppend([j], rest, key);
    JobsAppend(kept + [j'], rest, key);
    JobsAppend(kept, [j'], key);
    assert [j][1..] == [] && [j'][1..] == [];
  }

  lemma OneJobReturns(kept: seq<Job>, j: Job, rest: seq<Job>, key: Key)
    ensures JobsOf(kept + ([j] + rest), key)
         == JobsOf(kept, key) + (if j.key == key then [j] else []) + JobsOf(rest, key)
    ensures JobsOf(kept + rest, key) == JobsOf(kept, key) + JobsOf(rest, key)
  {
    JobsAppend(kept, [j] + rest, key);
    JobsAppend([j], rest, key);
    JobsAppend(kept, rest, key);
    assert [j][1..] == [];
  }

  function SessionIn(sessions: map<Key, Session>, key: Key): Session {
    if key in sessions then sessions[key] else FRESH
  }

  /** The returned value joins the accumulator. */
  lemma ReturnAccumulates(t: Track, session: Session, before: seq<Job>, j: Job, after: seq<Job>)
    requires ResultOk(t, session, before + [j] + after)
    ensures before == [] && after == []
    ensures ResultOk(t.(returned := t.returned + 1), Returned(session, j), [])
  {
    var all := before + [j] + after;
    assert |all| == 1 && all[0] == j;
    var n := t.returned;
    assert t.values[..n + 1][..n] == t.values[..n];
    hide Xor;
    if n == 0 {
      assert t.values[..1] == [t.values[0]] && XorAll([]) == 0;
    }
  }

  lemma ReturningJob(sessions: map<Key, Session>, kept: seq<Job>, j: Job, j': Job, rest: seq<Job>, key: Key, t: Track)
    requires ResultOk(t, SessionIn(sessions, key), JobsOf(kept + ([j] + rest), key)) && j'.result == j.result && j'.key == j.key
    ensures
      var sessions' := sessions[j.key := Returned(SessionIn(sessions, j.key), j')];
      && ResultOk(if j.key == key then t.(returned := t.returned + 1) else t, SessionIn(sessions', key), JobsOf(kept + rest, key))
      && SessionIn(sessions', key).measurements == SessionIn(sessions, key).measurements
  {
    hide ResultOk, JobsOf;
    OneJobReturns(kept, j, rest, key);
    if j.key == key {
      ReturnAccumulates(t, SessionIn(sessions, key), JobsOf(kept, key), j, JobsOf(rest, key));
      assert JobsOf(kept + rest, key) == [];
      SameReturn(SessionIn(sessions, key), j, j');
    } else {
      assert JobsOf(kept, key) + [] + JobsOf(rest, key) == JobsOf(kept, key) + JobsOf(rest, key);
    }
  }

  lemma StayingJob(session: Session, kept: seq<Job>, j: Job, j': Job, rest: seq<Job>, key: Key, t: Track)
    requires ResultOk(t, session, JobsOf(kept + ([j] + rest), key)) && j'.result == j.result && j'.key == j.key
    ensures ResultOk(t, session, JobsOf(kept + [j'] + rest, key))
  {
    hide ResultOk, JobsOf;
    OneJobProgresses(kept, j, j', rest, key);
    ResultsAside(t, session, JobsOf(kept + ([j] + rest), key), JobsOf(kept + [j'] + rest, key));
  }

  lemma AdvanceOne(sessions: map<Key, Session>, jobs: seq<Job>, now: nat)
    requires jobs != []
    ensures
      var j, j', rest := jobs[0], Progress(jobs[0], now), jobs[1..];
      var r := AdvanceJobs(sessions, jobs, now);
      if Returns(j, now) then r == AdvanceJobs(sessions[j.key := Returned(SessionIn(sessions, j.key), j')], rest, now)
      else
        var more := AdvanceJobs(sessions, rest, now);
        r == Jobs(more.sessions, [j'] + more.jobs)
  {
  }

  lemma {:induction false} JobsKeepResult(sessions: map<Key, Session>, kept: seq<Job>, jobs: seq<Job>, now: nat, key: Key, t: Track)
    requires ResultOk(t, SessionIn(sessions, key), JobsOf(kept + jobs, key))
    ensures
      var r := AdvanceJobs(sessions, jobs, now);
      && ResultOk(JobsTrack(jobs, key, t, now), SessionIn(r.sessions, key), JobsOf(kept + r.jobs, key))
      && SessionIn(r.sessions, key).measurements == SessionIn(sessions, key).measurements
    decreases |jobs|
  {
    hide ResultOk, JobsOf, SessionIn, Returned, AdvanceJobs;
    if jobs == [] {
      NothingAdvances(sessions, now);
    } else {
      var j, rest := jobs[0], jobs[1..];
      var j' := Progress(j, now);
      assert [j] + rest == jobs;
      AdvanceOne(sessions, jobs, now);
      if Returns(j, now) {
        ReturningJob(sessions, kept, j, j', rest, key, t);
        JobsKeepResult(sessions[j.key := Returned(SessionIn(sessions, j.key), j')], kept, rest, now, key,
                       if j.key == key then t.(returned := t.returned + 1) else t);
      } else {
        StayingJob(SessionIn(sessions, key), kept, j, j', rest, key, t);
        JobsKeepResult(sessions, kept + [j'], rest, now, key, t);
        assert kept + [j'] + AdvanceJobs(sessions, rest, now).jobs == kept + ([j'] + AdvanceJobs(sessions, rest, now).jobs);
      }
    }
  }

  lemma NothingAdvances(sessions: map<Key, Session>, now: nat)
    ensures AdvanceJobs(sessions, [], now) == Jobs(sessions, [])
  {
  }

  lemma SameReturn(session: Session, j: Job, j': Job)
    requires j'.result == j.result
    ensures Returned(session, j) == Returned(session, j')
  {
  }

  lemma {:induction false} JobsKeepOwners(sessions: map<Key, Session>, kept: seq<Job>, jobs: seq<Job>, now: nat, frontier: nat)
    requires JobsOwned(sessions, kept + jobs, frontier)
    ensures
      var r := AdvanceJobs(sessions, jobs, now);
      JobsOwned(r.sessions, kept + r.jobs, frontier) && ReservedCount(r.sessions) <= ReservedCount(sessions)
    decreases |jobs|
  {
    hide ReservedCount, JobsOwned, AdvanceJobs, SessionIn, Returned;
    if jobs == [] {
      NothingAdvances(sessions, now);
    } else {
      var j, rest := jobs[0], jobs[1..];
      var j' := Progress(j, now);
      assert [j] + rest == jobs;
      AdvanceOne(sessions, jobs, now);
      OwnersSplit(sessions, kept, j, j', rest, frontier);
      if Returns(j, now) {
        var session' := Returned(SessionIn(sessions, j.key), j');
        ReservedAfterUpdate(sessions, j.key, session');
        ReturnKeepsOwners(sessions, kept, j, rest, session', frontier);
        JobsKeepOwners(sessions[j.key := session'], kept, rest, now, frontier);
      } else {
        JobsKeepOwners(sessions, kept + [j'], rest, now, frontier);
        assert kept + [j'] + AdvanceJobs(sessions, rest, now).jobs == kept + ([j'] + AdvanceJobs(sessions, rest, now).jobs);
      }
    }
  }

  lemma OwnersSplit(sessions: map<Key, Session>, kept: seq<Job>, j: Job, j': Job, rest: seq<Job>, frontier: nat)
    requires JobsOwned(sessions, kept + ([j] + rest), frontier)
    requires j'.key == j.key && j'.id == j.id
    ensures JobsOwned(sessions, kept + [j'] + rest, frontier) && j.key in sessions && sessions[j.key].submitted
    ensures JobsOwned(sessions, kept + [j] + rest, frontier)
  {
    var all, all' := kept + [j] + rest, kept + [j'] + rest;
    assert kept + ([j] + rest) == all;
    assert all[|kept|] == j && |all| == |all'|;
    assert forall i | 0 <= i < |all| && i != |kept| :: all'[i] == all[i];
  }

  lemma ReturnKeepsOwners(sessions: map<Key, Session>, kept: seq<Job>, j: Job, rest: seq<Job>, session: Session, frontier: nat)
    requires JobsOwned(sessions, kept + [j] + rest, frontier)
    ensures JobsOwned(sessions[j.key := session], kept + rest, frontier)
  {
    var all, less := kept + [j] + rest, kept + rest;
    forall i | 0 <= i < |less|
      ensures less[i] == all[if i < |kept| then i else i + 1] && less[i].key != j.key
    {
      assert all[|kept|] == j;
    }
  }

  lemma AdvancedKeepsRun(cfg: Config, key: Key, s: State, t: Track, now: nat, frontier: nat)
    requires cfg.Valid() && key.1 in cfg.kernels && ServiceOk(cfg, s, frontier) && SessionOk(cfg.kernels[key.1], s, key, t, frontier)
    ensures ServiceOk(cfg, AdvancedJobs(s, now), frontier)
    ensures SessionOk(cfg.kernels[key.1], AdvancedJobs(s, now), key, JobsTrack(s.jobs, key, t, now), frontier)
  {
    hide QueueOk, PacketsOk, WindowsOk, ResultOk, JobsOwned, ReservedCount, JobsOf, QueueOf, AdvanceJobs;
    assert [] + s.jobs == s.jobs && [] + AdvanceJobs(s.sessions, s.jobs, now).jobs == AdvanceJobs(s.sessions, s.jobs, now).jobs;
    JobsKeepResult(s.sessions, [], s.jobs, now, key, t);
    JobsKeepOwners(s.sessions, [], s.jobs, now, frontier);
    JobsTrackAside(s.jobs, key, t, now);
    PacketsAside(t, JobsTrack(s.jobs, key, t, now), QueueOf(s.requests, key), s.reset, key, s.next, frontier);
    PacketsBounds(t, QueueOf(s.requests, key), s.reset, key, s.next, frontier);
    WindowsAside(cfg.kernels[key.1], t, JobsTrack(s.jobs, key, t, now), SessionOf(s, key), SessionOf(AdvancedJobs(s, now), key));
  }

  lemma {:induction false} JobsTrackAside(jobs: seq<Job>, key: Key, t: Track, now: nat)
    ensures JobsTrack(jobs, key, t, now) == t.(returned := JobsTrack(jobs, key, t, now).returned)
    decreases |jobs|
  {
    if jobs != [] {
      JobsTrackAside(jobs[1..], key, if jobs[0].key == key && Returns(jobs[0], now) then t.(returned := t.returned + 1) else t, now);
    }
  }

  lemma PacketsAside(t: Track, t': Track, queue: seq<Packet>, reset: Option<Request>, key: Key, next: nat, frontier: nat)
    requires PacketsOk(t, queue, reset, key, next, frontier) && t' == t.(returned := t'.returned)
    ensures PacketsOk(t', queue, reset, key, next, frontier)
  {
    hide From;
  }

  lemma WindowsAside(k: Kernel, t: Track, t': Track, session: Session, session': Session)
    requires t.consumed <= t.admitted <= |t.packets| && WindowsOk(k, t, session) && t' == t.(returned := t'.returned)
    requires session'.measurements == session.measurements
    ensures WindowsOk(k, t', session')
  {
    hide Bits, Concat;
  }

  // ---- Admission ----

  lemma QueuePops(cfg: Config, requests: seq<Request>, reset: Option<Request>, tx: nat, next: nat, frontier: nat, now: nat)
    requires QueueOk(cfg, requests, reset, tx, next, frontier) && requests != [] && requests[0].arrival <= now
    requires reset.Some? ==> now < reset.value.arrival
    ensures frontier <= requests[0].id && QueueOk(cfg, requests[1..], reset, tx, next, requests[0].id)
  {
    assert forall i | 0 <= i < |requests| - 1 :: requests[1..][i] == requests[i + 1];
  }

  lemma OwnHeadIsNext(t: Track, requests: seq<Request>, reset: Option<Request>, key: Key, next: nat, frontier: nat,
                      windows: seq<seq<bool>>, values: seq<Bits64>)
    requires requests != [] && requests[0].key == key && PacketsOk(t, QueueOf(requests, key), reset, key, next, frontier)
    requires frontier <= requests[0].id
    ensures t.admitted < |t.packets| && t.packets[t.admitted] == Packet(requests[0].id, requests[0].bits)
    ensures PacketsOk(t.(admitted := t.admitted + 1, windows := windows, values := values), QueueOf(requests[1..], key), reset, key, next, requests[0].id)
  {
    var queue := QueueOf(requests, key);
    assert queue == [Packet(requests[0].id, requests[0].bits)] + QueueOf(requests[1..], key);
    assert t.packets[t.admitted..][0] == t.packets[t.admitted];
    assert t.packets[t.admitted + 1..] == t.packets[t.admitted..][1..];
    hide From, QueueOf;
  }

  lemma OtherHeadPasses(t: Track, requests: seq<Request>, reset: Option<Request>, key: Key, next: nat, frontier: nat)
    requires requests != [] && requests[0].key != key && PacketsOk(t, QueueOf(requests, key), reset, key, next, frontier)
    requires frontier <= requests[0].id
    ensures PacketsOk(t, QueueOf(requests[1..], key), reset, key, next, requests[0].id)
  {
    hide From;
  }

  lemma BitsGrow(t: Track, packet: Packet)
    requires t.consumed <= t.admitted < |t.packets| && t.packets[t.admitted] == packet
    ensures Bits(t.packets[t.consumed..t.admitted + 1]) == Bits(t.packets[t.consumed..t.admitted]) + packet.bits
  {
    var more := t.packets[t.consumed..t.admitted + 1];
    assert more[..|more| - 1] == t.packets[t.consumed..t.admitted] && more[|more| - 1] == packet;
  }

  /** A packet that leaves its window incomplete. */
  lemma PartialKeepsWindows(k: Kernel, t: Track, session: Session, packet: Packet)
    requires t.consumed <= t.admitted < |t.packets| && t.packets[t.admitted] == packet && WindowsOk(k, t, session)
    requires |session.measurements| + |packet.bits| < k.measurements
    ensures WindowsOk(k, t.(admitted := t.admitted + 1), session.(measurements := session.measurements + packet.bits))
  {
    BitsGrow(t, packet);
    assert Concat(t.windows) + session.measurements + packet.bits == Concat(t.windows) + (session.measurements + packet.bits);
    hide Bits, Concat;
  }

  /** A packet that completes its window. */
  lemma CompleteKeepsWindows(k: Kernel, t: Track, session: Session, packet: Packet, value: Bits64)
    requires k.Valid() && t.consumed <= t.admitted < |t.packets| && t.packets[t.admitted] == packet && WindowsOk(k, t, session)
    requires |session.measurements| + |packet.bits| == k.measurements && k.decode(session.measurements + packet.bits) == Ok(value)
    ensures
      var window := session.measurements + packet.bits;
      WindowsOk(k, t.(admitted := t.admitted + 1, windows := t.windows + [window], values := t.values + [value]), Session([], session.result, true))
  {
    var window := session.measurements + packet.bits;
    BitsGrow(t, packet);
    var more := t.windows + [window];
    assert more[..|more| - 1] == t.windows;
    assert Concat(more) + [] == Concat(t.windows) + window;
    assert Concat(t.windows) + session.measurements + packet.bits == Concat(t.windows) + window;
    hide Bits, Concat;
  }

  lemma CompleteKeepsResult(t: Track, session: Session, jobs: seq<Job>, job: Job, windows: seq<seq<bool>>, value: Bits64)
    requires ResultOk(t, session, jobs) && !session.submitted && job.result == value
    ensures ResultOk(t.(admitted := t.admitted + 1, windows := windows, values := t.values + [value]), Session([], session.result, true), jobs + [job])
  {
    assert (t.values + [value])[..t.returned] == t.values[..t.returned];
    hide XorAll;
  }

  lemma PartialKeepsResult(t: Track, session: Session, jobs: seq<Job>, measurements: seq<bool>)
    requires ResultOk(t, session, jobs)
    ensures ResultOk(t.(admitted := t.admitted + 1), session.(measurements := measurements), jobs)
  {
    hide XorAll;
  }

  lemma HeadShape(cfg: Config, s: State, now: nat)
    requires s.requests != [] && s.requests[0].key.1 in cfg.kernels && AdmitHead(cfg, s, now).Ok?
    ensures
      var s', p := AdmitHead(cfg, s, now).value, s.requests[0];
      var k, session := cfg.kernels[p.key.1], SessionOf(s, p.key);
      && s'.requests == s.requests[1..] && s'.reset == s.reset && s'.tx == s.tx && s'.next == s.next
      && (if Completes(k, session, p) then
            var result := k.decode(session.measurements + p.bits);
            && result.Ok? && s'.sessions == s.sessions[p.key := Session([], session.result, true)]
            && |s'.jobs| == |s.jobs| + 1 && s'.jobs == s.jobs + [s'.jobs[|s.jobs|]]
            && s'.jobs[|s.jobs|].id == p.id && s'.jobs[|s.jobs|].key == p.key && s'.jobs[|s.jobs|].result == result.value
          else
            s'.jobs == s.jobs && s'.sessions == s.sessions[p.key := session.(measurements := session.measurements + p.bits)])
  {
  }

  /** The head may be admitted. */
  predicate Admissible(cfg: Config, s: State, now: nat) {
    && s.requests != [] && s.requests[0].arrival <= now && s.requests[0].key.1 in cfg.kernels
    && !SessionOf(s, s.requests[0].key).submitted
    && |SessionOf(s, s.requests[0].key).measurements| + |s.requests[0].bits| <= cfg.kernels[s.requests[0].key.1].measurements
    && !HeadBlocked(cfg, s, s.requests[0], cfg.kernels[s.requests[0].key.1])
    && AdmitHead(cfg, s, now).Ok?
  }

  lemma AdmitKeepsService(cfg: Config, s: State, frontier: nat, now: nat)
    requires cfg.Valid() && ServiceOk(cfg, s, frontier) && Admissible(cfg, s, now) && (s.reset.Some? ==> now < s.reset.value.arrival)
    ensures ServiceOk(cfg, AdmitHead(cfg, s, now).value, s.requests[0].id)
  {
    hide QueueOk, JobsOwned, ReservedCount, AdmitHead;
    HeadShape(cfg, s, now);
    QueuePops(cfg, s.requests, s.reset, s.tx, s.next, frontier, now);
    var s', p := AdmitHead(cfg, s, now).value, s.requests[0];
    ReservedAfterUpdate(s.sessions, p.key, s'.sessions[p.key]);
    if Completes(cfg.kernels[p.key.1], SessionOf(s, p.key), p) {
      AddedJobIsOwned(s.sessions, s.jobs, frontier, s'.sessions[p.key], s'.jobs[|s.jobs|]);
    } else {
      UpdatedOwners(s.sessions, s.jobs, frontier, p.id, p.key, s'.sessions[p.key]);
    }
  }

  lemma AddedJobIsOwned(sessions: map<Key, Session>, jobs: seq<Job>, frontier: nat, session: Session, job: Job)
    requires JobsOwned(sessions, jobs, frontier) && session.submitted && frontier <= job.id
    requires job.key in sessions ==> !sessions[job.key].submitted
    ensures JobsOwned(sessions[job.key := session], jobs + [job], job.id)
  {
  }

  lemma UpdatedOwners(sessions: map<Key, Session>, jobs: seq<Job>, frontier: nat, later: nat, key: Key, session: Session)
    requires JobsOwned(sessions, jobs, frontier) && frontier <= later && (key in sessions ==> session.submitted == sessions[key].submitted)
    ensures JobsOwned(sessions[key := session], jobs, later)
  {
  }

  lemma AdmitKeepsOwnSession(cfg: Config, key: Key, s: State, t: Track, frontier: nat, now: nat)
    requires cfg.Valid() && key.1 in cfg.kernels && SessionOk(cfg.kernels[key.1], s, key, t, frontier) && Admissible(cfg, s, now)
    requires frontier <= s.requests[0].id && s.requests[0].key == key
    ensures SessionOk(cfg.kernels[key.1], AdmitHead(cfg, s, now).value, key, AdmitTrack(cfg, s, key, t), s.requests[0].id)
  {
    hide PacketsOk, WindowsOk, ResultOk, AdmitHead, QueueOf, JobsOf, ReservedCount;
    HeadShape(cfg, s, now);
    PacketsBounds(t, QueueOf(s.requests, key), s.reset, key, s.next, frontier);
    var t' := AdmitTrack(cfg, s, key, t);
    OwnHeadIsNext(t, s.requests, s.reset, key, s.next, frontier, t'.windows, t'.values);
    var s', p, k, session := AdmitHead(cfg, s, now).value, s.requests[0], cfg.kernels[key.1], SessionOf(s, key);
    var packet := Packet(p.id, p.bits);
    if Completes(k, session, p) {
      var value := k.decode(session.measurements + p.bits).value;
      CompleteKeepsWindows(k, t, session, packet, value);
      CompleteKeepsResult(t, session, JobsOf(s.jobs, key), s'.jobs[|s.jobs|], t.windows + [session.measurements + p.bits], value);
      JobsAppend(s.jobs, [s'.jobs[|s.jobs|]], key);
      OneJob(s'.jobs[|s.jobs|], key);
    } else {
      PartialKeepsWindows(k, t, session, packet);
      PartialKeepsResult(t, session, JobsOf(s.jobs, key), session.measurements + p.bits);
      SameWindows(t);
    }
  }

  lemma SameWindows(t: Track)
    ensures t.(admitted := t.admitted + 1, windows := t.windows, values := t.values) == t.(admitted := t.admitted + 1)
  {
  }

  lemma OneJob(j: Job, key: Key)
    ensures JobsOf([j], key) == if j.key == key then [j] else []
  {
    assert [j][1..] == [];
  }

  lemma AdmitKeepsOtherSession(cfg: Config, key: Key, s: State, t: Track, frontier: nat, now: nat)
    requires cfg.Valid() && key.1 in cfg.kernels && SessionOk(cfg.kernels[key.1], s, key, t, frontier) && Admissible(cfg, s, now)
    requires frontier <= s.requests[0].id && s.requests[0].key != key
    ensures SessionOk(cfg.kernels[key.1], AdmitHead(cfg, s, now).value, key, AdmitTrack(cfg, s, key, t), s.requests[0].id)
  {
    hide PacketsOk, WindowsOk, ResultOk, AdmitHead, QueueOf, JobsOf, ReservedCount;
    HeadShape(cfg, s, now);
    PacketsBounds(t, QueueOf(s.requests, key), s.reset, key, s.next, frontier);
    OtherHeadPasses(t, s.requests, s.reset, key, s.next, frontier);
    var s', p := AdmitHead(cfg, s, now).value, s.requests[0];
    if Completes(cfg.kernels[p.key.1], SessionOf(s, p.key), p) {
      JobsAppend(s.jobs, [s'.jobs[|s.jobs|]], key);
      OneJob(s'.jobs[|s.jobs|], key);
      assert JobsOf(s.jobs, key) + [] == JobsOf(s.jobs, key);
    }
  }

  lemma {:induction false} AdmissionKeepsRun(cfg: Config, key: Key, s: State, t: Track, frontier: nat, now: nat)
    requires cfg.Valid() && key.1 in cfg.kernels && ServiceOk(cfg, s, frontier) && SessionOk(cfg.kernels[key.1], s, key, t, frontier)
    requires (s.reset.Some? ==> now < s.reset.value.arrival) && AdmitRequests(cfg, s, now).Ok?
    ensures
      var s', a := AdmitRequests(cfg, s, now).value, AdmissionTrack(cfg, s, key, t, frontier, now);
      ServiceOk(cfg, s', a.frontier) && SessionOk(cfg.kernels[key.1], s', key, a.track, a.frontier)
    decreases |s.requests|
  {
    hide ServiceOk, SessionOk, HeadBlocked, AdmitHead, AdmitTrack, ReservedCount;
    if Admissible(cfg, s, now) {
      HeadIsLater(cfg, s, frontier, now);
      AdmitKeepsService(cfg, s, frontier, now);
      if s.requests[0].key == key {
        AdmitKeepsOwnSession(cfg, key, s, t, frontier, now);
      } else {
        AdmitKeepsOtherSession(cfg, key, s, t, frontier, now);
      }
      HeadShape(cfg, s, now);
      AdmissionKeepsRun(cfg, key, AdmitHead(cfg, s, now).value, AdmitTrack(cfg, s, key, t), s.requests[0].id, now);
    }
  }

  lemma HeadIsLater(cfg: Config, s: State, frontier: nat, now: nat)
    requires ServiceOk(cfg, s, frontier) && s.requests != []
    ensures frontier <= s.requests[0].id
  {
    hide JobsOwned, ReservedCount;
  }

  // ---- Results ----

  lemma {:induction false} UpdatedJob(jobs: seq<Job>, i: nat, j: Job, key: Key)
    requires i < |jobs| && j.key == jobs[i].key && j.result == jobs[i].result
    ensures SameResults(JobsOf(jobs, key), JobsOf(jobs[i := j], key))
    decreases |jobs|
  {
    if i == 0 {
      assert jobs[0 := j][1..] == jobs[1..];
    } else {
      assert jobs[i := j][1..] == jobs[1..][i - 1 := j];
      UpdatedJob(jobs[1..], i - 1, j, key);
    }
  }

  lemma ResultKeepsRun(cfg: Config, key: Key, s: State, t: Track, frontier: nat, now: nat)
    requires cfg.Valid() && key.1 in cfg.kernels && ServiceOk(cfg, s, frontier) && SessionOk(cfg.kernels[key.1], s, key, t, frontier)
    requires TransmitResult(cfg, s, now).Ok?
    ensures
      var s' := TransmitResult(cfg, s, now).value;
      ServiceOk(cfg, s', frontier) && SessionOk(cfg.kernels[key.1], s', key, t, frontier)
  {
    hide QueueOk, PacketsOk, WindowsOk, ResultOk, JobsOwned, ReservedCount, NextReady, QueueOf, JobsOf;
    var s', i := TransmitResult(cfg, s, now).value, NextReady(s.jobs);
    if i < |s.jobs| && s.rx <= now {
      UpdatedJob(s.jobs, i, s'.jobs[i], key);
      ResultsAside(t, SessionOf(s, key), JobsOf(s.jobs, key), JobsOf(s'.jobs, key));
      SentJobIsOwned(s.sessions, s.jobs, frontier, i, s'.jobs[i]);
    }
  }

  lemma SentJobIsOwned(sessions: map<Key, Session>, jobs: seq<Job>, frontier: nat, i: nat, j: Job)
    requires i < |jobs| && JobsOwned(sessions, jobs, frontier) && j.key == jobs[i].key && j.id == jobs[i].id
    ensures JobsOwned(sessions, jobs[i := j], frontier)
  {
  }

  // ---- Whole runs ----

  lemma ArrivedResetsArePerformed(s: State, now: nat)
    ensures
      var s' := AdvancedJobs(AdvanceTransmission(s, now), now);
      s'.reset.Some? ==> now < s'.reset.value.arrival
  {
    hide AdvanceJobs, Uncancelled, UncancelledJobs, TransmitAll;
  }

  lemma StepKeepsRun(cfg: Config, key: Key, r: Run, now: nat)
    requires cfg.Valid() && key.1 in cfg.kernels && RunOk(cfg, key, r) && Decoder.Step(cfg, r.state, now).Ok?
    ensures RunOk(cfg, key, Apply(cfg, key, r, Steps(now)).value)
  {
    hide ServiceOk, SessionOk, AdvanceTransmission, AdvancedJobs, AdmitRequests, TransmitResult, AdmissionTrack,
      JobsTrack, ResetTrack;
    TransmissionKeepsService(cfg, r.state, now, r.frontier);
    TransmissionKeepsSession(cfg, key, r.state, r.track, now, r.frontier);
    var s1, t1 := AdvanceTransmission(r.state, now), ResetTrack(r.state, key, r.track, now);
    AdvancedKeepsRun(cfg, key, s1, t1, now, r.frontier);
    var s2, t2 := AdvancedJobs(s1, now), JobsTrack(s1.jobs, key, t1, now);
    ArrivedResetsArePerformed(r.state, now);
    AdmissionKeepsRun(cfg, key, s2, t2, r.frontier, now);
    var s3, a := AdmitRequests(cfg, s2, now).value, AdmissionTrack(cfg, s2, key, t2, r.frontier, now);
    ResultKeepsRun(cfg, key, s3, a.track, a.frontier, now);
  }

  lemma {:induction false} RunsKeepInvariant(cfg: Config, key: Key, r: Run, ops: seq<Op>)
    requires cfg.Valid() && key.1 in cfg.kernels && RunOk(cfg, key, r) && RunAll(cfg, key, r, ops).Ok?
    ensures RunOk(cfg, key, RunAll(cfg, key, r, ops).value)
    decreases |ops|
  {
    if ops != [] {
      match ops[0] {
        case Accesses(core, command, now) => AccessKeepsRun(cfg, key, r, core, command, now);
        case Steps(now) => StepKeepsRun(cfg, key, r, now);
      }
      hide RunOk, Apply;
      RunsKeepInvariant(cfg, key, Apply(cfg, key, r, ops[0]).value, ops[1..]);
    }
  }

  // ---- The reference accumulator ----

  /** The XOR of the decoded consecutive windows of a bit stream. */
  function Accumulated(k: Kernel, bits: seq<bool>): Bits64
    requires 0 < k.measurements
  {
    XorAll(DecodedWindows(k, Windows(bits, k.measurements)))
  }

  function DecodedWindows(k: Kernel, windows: seq<seq<bool>>): (values: seq<Bits64>)
    ensures |values| == |windows|
  {
    seq(|windows|, i requires 0 <= i < |windows| => if k.decode(windows[i]).Ok? then k.decode(windows[i]).value else 0)
  }

  lemma {:induction false} ConcatFirst(windows: seq<seq<bool>>)
    requires windows != []
    ensures Concat(windows) == windows[0] + Concat(windows[1..])
    decreases |windows|
  {
    if |windows| == 1 {
      assert windows[..0] == [] && windows[1..] == [];
    } else {
      var front := windows[..|windows| - 1];
      ConcatFirst(front);
      assert windows[1..][..|windows| - 2] == front[1..];
      assert Concat(windows[1..]) == Concat(front[1..]) + windows[|windows| - 1];
      assert windows[0] + Concat(front[1..]) + windows[|windows| - 1] == windows[0] + Concat(windows[1..]);
    }
  }

  lemma {:induction false} WindowsOfConcat(windows: seq<seq<bool>>, rest: seq<bool>, size: nat)
    requires 0 < size && |rest| < size && forall i | 0 <= i < |windows| :: |windows[i]| == size
    ensures Windows(Concat(windows) + rest, size) == windows
    decreases |windows|
  {
    if windows == [] {
      assert Concat(windows) + rest == rest;
    } else {
      ConcatFirst(windows);
      var bits := Concat(windows) + rest;
      assert bits[..size] == windows[0] && bits[size..] == Concat(windows[1..]) + rest;
      assert forall i | 0 <= i < |windows| - 1 :: windows[1..][i] == windows[i + 1];
      WindowsOfConcat(windows[1..], rest, size);
      assert [windows[0]] + windows[1..] == windows;
    }
  }

  lemma TrackedWindows(k: Kernel, t: Track, session: Session)
    requires k.Valid() && t.consumed <= t.admitted <= |t.packets| && WindowsOk(k, t, session)
    ensures t.windows == Windows(Bits(t.packets[t.consumed..t.admitted]), k.measurements)
    ensures t.values == DecodedWindows(k, t.windows)
  {
    WindowsOfConcat(t.windows, session.measurements, k.measurements);
    hide Windows, Concat, Bits;
  }

  lemma {:induction false} QueueIsEmpty(requests: seq<Request>, key: Key)
    requires forall i | 0 <= i < |requests| :: requests[i].key != key
    ensures QueueOf(requests, key) == []
    decreases |requests|
  {
    if requests != [] {
      assert forall i | 0 <= i < |requests| - 1 :: requests[1..][i] == requests[i + 1];
      QueueIsEmpty(requests[1..], key);
    }
  }

  lemma QuietSession(cfg: Config, key: Key, r: Run)
    requires cfg.Valid() && key.1 in cfg.kernels && RunOk(cfg, key, r) && !Busy(r.state, key)
    ensures r.track.admitted == |r.track.packets| && r.track.consumed <= |r.track.packets|
    ensures r.track.packets == From(r.track.submitted, r.track.lastReset)
    ensures r.track.windows == Windows(Bits(r.track.packets[r.track.consumed..]), cfg.kernels[key.1].measurements)
    ensures r.track.values == DecodedWindows(cfg.kernels[key.1], r.track.windows) && r.track.returned == |r.track.values|
    ensures SessionOf(r.state, key).result == if r.track.returned == 0 then None else Some(XorAll(r.track.values))
  {
    assert cfg.kernels[key.1].Valid();
    hide ServiceOk, From, Bits, Windows, XorAll;
    QueueIsEmpty(r.state.requests, key);
    TrackedWindows(cfg.kernels[key.1], r.track, SessionOf(r.state, key));
    hide WindowsOk, QueueOf, JobsOf;
    assert r.track.values[..|r.track.values|] == r.track.values;
    assert r.track.packets[r.track.consumed..r.track.admitted] == r.track.packets[r.track.consumed..];
  }

  /**
   * For every session and any interleaving of packets, latencies and back-pressure: when the result is ready
   * and the session is not busy, the result is the plain accumulator (the XOR of the decoded consecutive
   * windows) over the bits of all submissions made after the last reset command, but those consumed before.
   * So a reset acts at its place in submission order although its packet may overtake blocked ones: nothing
   * submitted before it counts, and nothing submitted after it is lost.
   */
  lemma ShownResultIsAccumulated(cfg: Config, key: Key, ops: seq<Op>, now: nat)
    requires cfg.Valid() && key.1 in cfg.kernels && RunAll(cfg, key, BEGIN, ops).Ok?
    requires
      var s := RunAll(cfg, key, BEGIN, ops).value.state;
      Decoder.Access(cfg, s, key.0, Status(key.1), now) == Ok(Accessed(s, Flags(true, false)))
    ensures
      var r := RunAll(cfg, key, BEGIN, ops).value;
      var live := From(r.track.submitted, r.track.lastReset);
      && r.track.consumed <= |live| && 0 < cfg.kernels[key.1].measurements
      && SessionOf(r.state, key).result == Some(Accumulated(cfg.kernels[key.1], Bits(live[r.track.consumed..])))
  {
    BeginIsOk(cfg, key);
    RunsKeepInvariant(cfg, key, BEGIN, ops);
    var r := RunAll(cfg, key, BEGIN, ops).value;
    hide RunAll, RunOk, From, Bits, Windows, XorAll, DecodedWindows;
    assert cfg.kernels[key.1].Valid();
    assert !Busy(r.state, key);
    hide Busy;
    QuietSession(cfg, key, r);
  }

  /**
   * In every run a session that awaits a result has exactly one job and any other has none, and the sessions
   * that hold or await a result never exceed the result capacity.
   */
  lemma OneJobPerSubmission(cfg: Config, key: Key, ops: seq<Op>)
    requires cfg.Valid() && key.1 in cfg.kernels && RunAll(cfg, key, BEGIN, ops).Ok?
    ensures
      var r := RunAll(cfg, key, BEGIN, ops).value;
      && |JobsOf(r.state.jobs, key)| == (if SessionOf(r.state, key).submitted then 1 else 0)
      && ReservedCount(r.state.sessions) <= cfg.resultCapacity
      && (forall i, j | 0 <= i < j < |r.state.jobs| :: r.state.jobs[i].key != r.state.jobs[j].key)
  {
    BeginIsOk(cfg, key);
    RunsKeepInvariant(cfg, key, BEGIN, ops);
    hide RunAll, QueueOk, PacketsOk, WindowsOk, ReservedCount, JobsOf;
  }

  /**
   * In every run the session's submissions after the last performed reset are, in order, those consumed,
   * those admitted since, and those still queued: none is lost, repeated or reordered.
   */
  lemma SubmissionsAreConserved(cfg: Config, key: Key, ops: seq<Op>)
    requires cfg.Valid() && key.1 in cfg.kernels && RunAll(cfg, key, BEGIN, ops).Ok?
    ensures
      var r := RunAll(cfg, key, BEGIN, ops).value;
      && r.track.consumed <= r.track.admitted <= |r.track.packets|
      && From(r.track.submitted, r.track.cut) == r.track.packets[..r.track.admitted] + QueueOf(r.state.requests, key)
      && (!(r.state.reset.Some? && r.state.reset.value.key == key) ==> r.track.cut == r.track.lastReset)
  {
    BeginIsOk(cfg, key);
    RunsKeepInvariant(cfg, key, BEGIN, ops);
    var r := RunAll(cfg, key, BEGIN, ops).value;
    hide RunAll, ServiceOk, WindowsOk, ResultOk, From, QueueOf;
    assert r.track.packets == r.track.packets[..r.track.admitted] + r.track.packets[r.track.admitted..];
  }
}
