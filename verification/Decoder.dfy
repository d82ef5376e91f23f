/** The asynchronous decoder service: packets in, one job per complete window, XOR-accumulated results out. */
module Decoder {
  import opened Errors
  import opened Time

  type Bits64 = bv64
  type Key = (nat, nat)

  function Xor(a: Bits64, b: Bits64): Bits64 { a ^ b }

  /** The decode callback returns the output bits of a window, or fails. */
  datatype Kernel = Kernel(measurements: nat, outputs: nat, latency: nat, interval: nat, decode: seq<bool> -> Result<Bits64>) {
    predicate Valid() { 0 < measurements && 0 < outputs && 0 < latency && 0 < interval }
  }

  datatype Config = Config(requestCapacity: nat, resultCapacity: nat, linkLatency: nat, bytesPerTick: nat, overhead: nat,
                           kernels: map<nat, Kernel>)
  {
    predicate Valid() {
      && 0 < requestCapacity && 0 < resultCapacity && 0 < linkLatency && 0 < bytesPerTick
      && forall id | id in kernels :: kernels[id].Valid()
    }
  }

  datatype Session = Session(measurements: seq<bool>, result: Option<Bits64>, submitted: bool)

  const FRESH := Session([], None, false)

  datatype Request = Request(id: nat, key: Key, bits: seq<bool>, sent: nat, arrival: nat, transmitted: bool)

  datatype Job = Job(id: nat, key: Key, start: nat, completion: nat, result: Bits64, arrival: Option<nat>, started: bool, completed: bool)

  datatype State = State(
    sessions: map<Key, Session>, available: map<nat, nat>, requests: seq<Request>, reset: Option<Request>, jobs: seq<Job>,
    tx: nat, rx: nat, next: nat)

  const EMPTY := State(map[], map[], [], None, [], 0, 0, 1)

  function SessionOf(s: State, key: Key): Session {
    if key in s.sessions then s.sessions[key] else FRESH
  }

  // ---- Access by a core ----

  datatype Command = Submit(decoder: nat, bits: seq<bool>) | Reset(decoder: nat) | Consume(decoder: nat) | Status(decoder: nat) | Read(decoder: nat)

  datatype Answer = Blocked | Done | Flags(ready: bool, busy: bool) | Result(value: Bits64)

  function Duration(cfg: Config, payload: nat): Errors.Result<nat>
    requires cfg.Valid()
  {
    if MAX_TICK < cfg.overhead + payload then Err(TimeOverflow)
    else Ok(Max(1, (cfg.overhead + payload + cfg.bytesPerTick - 1) / cfg.bytesPerTick))
  }

  /** A packet's place on the shared link into the service. */
  function MakePacket(cfg: Config, s: State, key: Key, bits: seq<bool>, now: nat): Errors.Result<Request>
    requires cfg.Valid()
  {
    var duration := Duration(cfg, (|bits| + 7) / 8);
    if duration.Err? then Err(duration.error)
    else
      var sent := Max(now, s.tx);
      var end :- CheckedAdd(sent, duration.value);
      var arrival :- CheckedAdd(end, cfg.linkLatency);
      if MAX_TICK <= s.next then Err(Capacity)
      else Ok(Request(s.next, key, bits, sent, arrival, false))
  }

  predicate Reserved(s: Session) { s.result.Some? || s.submitted }

  function Busy(s: State, key: Key): bool {
    || (s.reset.Some? && s.reset.value.key == key)
    || (exists i :: 0 <= i < |s.requests| && s.requests[i].key == key)
    || SessionOf(s, key).submitted || SessionOf(s, key).measurements != []
  }

  datatype Accessed = Accessed(state: State, answer: Answer)

  function Access(cfg: Config, s: State, core: nat, command: Command, now: nat): Errors.Result<Accessed>
    requires cfg.Valid()
  {
    if command.decoder !in cfg.kernels then Err(InvalidOperand)
    else
      var key := (core, command.decoder);
      match command
      case Submit(_, bits) =>
        if bits == [] || 64 < |bits| then Err(InvalidOperand)
        else if cfg.requestCapacity <= |s.requests| then Ok(Accessed(s, Blocked))
        else
          var packet :- MakePacket(cfg, s, key, bits, now);
          Ok(Accessed(s.(requests := s.requests + [packet], next := s.next + 1, tx := packet.arrival - cfg.linkLatency), Done))
      case Reset(_) =>
        if s.reset.Some? then Ok(Accessed(s, Blocked))
        else
          var packet :- MakePacket(cfg, s, key, [], now);
          Ok(Accessed(s.(reset := Some(packet), next := s.next + 1, tx := packet.arrival - cfg.linkLatency), Done))
      case Consume(_) =>
        var session := SessionOf(s, key);
        if session.result.None? || session.submitted || session.measurements != [] then Err(Protocol)
        else Ok(Accessed(s.(sessions := s.sessions[key := FRESH]), Done))
      case Status(_) => Ok(Accessed(s, Flags(SessionOf(s, key).result.Some?, Busy(s, key))))
      case Read(_) =>
        if SessionOf(s, key).result.None? then Err(Protocol)
        else Ok(Accessed(s, Answer.Result(SessionOf(s, key).result.value)))
  }

  // ---- Transmission, and an arriving reset ----

  function Transmit(p: Request, now: nat): Request {
    if p.sent <= now then p.(transmitted := true) else p
  }

  function TransmitAll(requests: seq<Request>, now: nat): (r: seq<Request>)
    ensures |r| == |requests|
  {
    seq(|requests|, i requires 0 <= i < |requests| => Transmit(requests[i], now))
  }

  /** The packets that a reset does not cancel. */
  function Uncancelled(requests: seq<Request>, reset: Request): seq<Request> {
    if requests == [] then []
    else
      var p := requests[0];
      (if p.key == reset.key && p.id < reset.id then [] else [p]) + Uncancelled(requests[1..], reset)
  }

  function UncancelledJobs(jobs: seq<Job>, reset: Request): seq<Job> {
    if jobs == [] then []
    else
      var j := jobs[0];
      (if j.key == reset.key && j.id < reset.id then [] else [j]) + UncancelledJobs(jobs[1..], reset)
  }

  function AdvanceTransmission(s: State, now: nat): State {
    var s1 := s.(requests := TransmitAll(s.requests, now));
    if s.reset.None? then s1
    else
      var p := Transmit(s.reset.value, now);
      if p.arrival <= now then
        s1.(reset := None, requests := Uncancelled(s1.requests, p), jobs := UncancelledJobs(s.jobs, p), sessions := s.sessions[p.key := FRESH])
      else s1.(reset := Some(p))
  }

  // ---- Jobs ----

  function Progress(j: Job, now: nat): Job {
    j.(started := j.started || j.start <= now, completed := j.completed || j.completion <= now)
  }

  function Returned(s: Session, j: Job): Session {
    s.(result := Some(Xor(if s.result.Some? then s.result.value else 0, j.result)), submitted := false)
  }

  datatype Jobs = Jobs(sessions: map<Key, Session>, jobs: seq<Job>)

  /** Every job in order: a returned one updates its session and leaves. */
  function AdvanceJobs(sessions: map<Key, Session>, jobs: seq<Job>, now: nat): Jobs
    decreases |jobs|
  {
    if jobs == [] then Jobs(sessions, [])
    else
      var j := Progress(jobs[0], now);
      if j.arrival.Some? && j.arrival.value <= now then
        AdvanceJobs(sessions[j.key := Returned(if j.key in sessions then sessions[j.key] else FRESH, j)], jobs[1..], now)
      else
        var rest := AdvanceJobs(sessions, jobs[1..], now);
        Jobs(rest.sessions, [j] + rest.jobs)
  }

  // ---- Admission ----

  /** How many sessions hold or await a result. */
  function ReservedCount(sessions: map<Key, Session>): nat {
    |set key | key in sessions && Reserved(sessions[key])|
  }

  function Available(s: State, decoder: nat): nat {
    if decoder in s.available then s.available[decoder] else 0
  }

  predicate Completes(k: Kernel, session: Session, p: Request) {
    |session.measurements| + |p.bits| == k.measurements
  }

  /** The head must wait: its session awaits a result, or its window needs a result slot and none is free. */
  predicate HeadBlocked(cfg: Config, s: State, p: Request, k: Kernel) {
    var session := SessionOf(s, p.key);
    session.submitted || (Completes(k, session, p) && session.result.None? && cfg.resultCapacity <= ReservedCount(s.sessions))
  }

  /** Admits the head packet; a complete window becomes a job. */
  function AdmitHead(cfg: Config, s: State, now: nat): Errors.Result<State>
    requires s.requests != [] && s.requests[0].key.1 in cfg.kernels
  {
    var p := s.requests[0];
    var k, session := cfg.kernels[p.key.1], SessionOf(s, p.key);
    var measurements := session.measurements + p.bits;
    if !Completes(k, session, p) then
      Ok(s.(sessions := s.sessions[p.key := session.(measurements := measurements)], requests := s.requests[1..]))
    else
      var result :- k.decode(measurements);
      var soonest :- CheckedAdd(now, 1);
      var start := Max(soonest, Available(s, p.key.1));
      var free :- CheckedAdd(start, k.interval);
      var completion :- CheckedAdd(start, k.latency);
      Ok(s.(sessions := s.sessions[p.key := Session([], session.result, true)],
            available := s.available[p.key.1 := free],
            jobs := s.jobs + [Job(p.id, p.key, start, completion, result, None, false, false)],
            requests := s.requests[1..]))
  }

  function AdmitRequests(cfg: Config, s: State, now: nat): Errors.Result<State>
    decreases |s.requests|
  {
    if s.requests == [] || now < s.requests[0].arrival then Ok(s)
    else
      var p := s.requests[0];
      if p.key.1 !in cfg.kernels then Err(InvalidOperand)
      else
        var k, session := cfg.kernels[p.key.1], SessionOf(s, p.key);
        if session.submitted then Ok(s)
        else if k.measurements < |session.measurements| + |p.bits| then Err(Protocol)
        else if HeadBlocked(cfg, s, p, k) then Ok(s)
        else
          var admitted :- AdmitHead(cfg, s, now);
          AdmitRequests(cfg, admitted, now)
  }

  // ---- Results ----

  predicate Waiting(j: Job) { j.completed && j.arrival.None? }

  predicate Sooner(a: Job, b: Job) {
    a.completion < b.completion || (a.completion == b.completion && a.id < b.id)
  }

  /** The position of the completed job to send next, or |jobs|. */
  function NextReady(jobs: seq<Job>): (i: nat)
    ensures i <= |jobs|
  {
    if jobs == [] then 0
    else
      var rest := NextReady(jobs[1..]);
      if !Waiting(jobs[0]) then rest + 1
      else if rest == |jobs| - 1 || !Sooner(jobs[1..][rest], jobs[0]) then 0 else rest + 1
  }

  function TransmitResult(cfg: Config, s: State, now: nat): Errors.Result<State>
    requires cfg.Valid()
  {
    var i := NextReady(s.jobs);
    if now < s.rx || i == |s.jobs| then Ok(s)
    else if s.jobs[i].key.1 !in cfg.kernels then Err(InvalidOperand)
    else
      var duration :- Duration(cfg, (cfg.kernels[s.jobs[i].key.1].outputs + 7) / 8);
      var end :- CheckedAdd(now, duration);
      var arrival :- CheckedAdd(end, cfg.linkLatency);
      Ok(s.(jobs := s.jobs[i := s.jobs[i].(arrival := Some(arrival))], rx := end))
  }

  // ---- One step ----

  function AdvancedJobs(s: State, now: nat): State {
    var r := AdvanceJobs(s.sessions, s.jobs, now);
    s.(sessions := r.sessions, jobs := r.jobs)
  }

  function Step(cfg: Config, s: State, now: nat): Errors.Result<State>
    requires cfg.Valid()
  {
    var admitted := AdmitRequests(cfg, AdvancedJobs(AdvanceTransmission(s, now), now), now);
    if admitted.Err? then Err(admitted.error) else TransmitResult(cfg, admitted.value, now)
  }

  // ---- The next tick at which anything can change ----

  function Include(next: Option<nat>, tick: nat, now: nat): Option<nat> {
    if now < tick && (next.None? || tick < next.value) then Some(tick) else next
  }

  function RequestBoundary(next: Option<nat>, p: Request, now: nat): Option<nat> {
    var first := if p.transmitted then next else Include(next, p.sent, now);
    Include(first, p.arrival, now)
  }

  function JobBoundary(next: Option<nat>, j: Job, rx: nat, now: nat): Option<nat> {
    var second := Include(Include(next, j.start, now), j.completion, now);
    if j.arrival.Some? then Include(second, j.arrival.value, now)
    else if j.completed then Include(second, rx, now) else second
  }

  function RequestBoundaries(next: Option<nat>, requests: seq<Request>, now: nat): Option<nat>
    decreases |requests|
  {
    if requests == [] then next else RequestBoundaries(RequestBoundary(next, requests[0], now), requests[1..], now)
  }

  function JobBoundaries(next: Option<nat>, jobs: seq<Job>, rx: nat, now: nat): Option<nat>
    decreases |jobs|
  {
    if jobs == [] then next else JobBoundaries(JobBoundary(next, jobs[0], rx, now), jobs[1..], rx, now)
  }

  function NextBoundary(s: State, now: nat): Option<nat> {
    var first := RequestBoundaries(None, s.requests, now);
    var second := if s.reset.Some? then RequestBoundary(first, s.reset.value, now) else first;
    JobBoundaries(second, s.jobs, s.rx, now)
  }

  predicate Idle(s: State) {
    s.requests == [] && s.reset.None? && s.jobs == [] && forall key | key in s.sessions :: s.sessions[key].measurements == []
  }
}
