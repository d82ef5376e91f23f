/** The speculative in-order pipeline: one edge of its fetch, decode and execute stages. */
module Pipeline {
  import opened Errors
  import opened Time
  import opened Mailboxes
  import opened Isa
  import opened Memory
  import opened Sequential

  datatype Fetch = Fetch(id: nat, pc: Word, generation: nat)

  datatype Frame = Frame(
    id: nat, pc: Word, word: Word, fault: Option<ErrorCode>, decoded: Option<Decoded>, lhs: Word, rhs: Word,
    effect: Option<Effect>, memoryRequest: nat, bundle: bool, operations: seq<Command>, completedLanes: nat)

  datatype Cpu = Cpu(
    registers: seq<Word>, pc: Word, fetchPc: Word, fetchRequest: Option<Fetch>,
    fetched: Option<Frame>, decode: Option<Frame>, execute: Option<Frame>,
    nextFetch: nat, nextData: nat, generation: nat, halted: bool)
  {
    predicate Valid() { |registers| == 32 }
  }

  datatype CpuConfig = CpuConfig(clock: Clock, dual: bool) {
    function Channel(): Link { Link(1, clock, 1) }
  }

  /** The answers of the control at this edge, by lane: a fault, a stall, or a reply. */
  type ControlPort = nat -> Result<Option<Word>>

  function ResetCpu(entry: Word): (c: Cpu)
    ensures c.Valid()
  {
    Cpu(seq(32, _ => 0), entry, entry, None, None, None, None, 1, 1, 0, false)
  }

  function FreshFrame(id: nat, pc: Word, word: Word, fault: Option<ErrorCode>): Frame {
    Frame(id, pc, word, fault, None, 0, 0, None, 0, false, [], 0)
  }

  // ---- The fetch response ----

  function ReceiveFetch(c: Cpu, response: Option<Response>): (r: Result<Cpu>)
    ensures r.Ok? ==> r.value.registers == c.registers && r.value.execute == c.execute
  {
    if response.None? then Ok(c)
    else if c.fetchRequest.None? || response.value.id != c.fetchRequest.value.id then Err(Protocol)
    else
      var f := c.fetchRequest.value;
      if f.generation == c.generation && !c.halted then
        (if c.fetched.Some? then Err(Protocol)
         else
           Ok(c.(fetched := Some(FreshFrame(f.id, f.pc, response.value.value, response.value.fault)), fetchRequest := None)))
      else Ok(c.(fetchRequest := None))
  }

  // ---- The execute stage ----

  /** What the execute stage does at an edge: the frame as it stalls, or its completion. */
  datatype Executed =
    | Stalled(frame: Frame)
    | Requesting(frame: Frame, request: Request)
    | Completed(value: Word, nextPc: Word, flush: bool, halted: bool)

  /** The replies obtained by a bundle at this edge, and whether it has completed. */
  datatype Lanes = Lanes(replies: seq<Word>, completed: nat)

  function IssueLanes(operations: seq<Command>, completed: nat, control: ControlPort): Result<Lanes>
    decreases |operations| - completed
  {
    if |operations| <= completed then Ok(Lanes([], completed))
    else
      var answer :- control(completed);
      if answer.None? then Ok(Lanes([], completed))
      else
        var rest :- IssueLanes(operations, completed + 1, control);
        Ok(Lanes([answer.value] + rest.replies, rest.completed))
  }

  /** The outcome, the control operations that were replied to and their replies, and whether a data response was taken. */
  datatype ExecuteStep = ExecuteStep(outcome: Executed, commands: seq<Command>, replies: seq<Word>, takesResponse: bool)

  /** The execute stage with its frame, the registers, and the data port's state. */
  function ExecuteFrame(f: Frame, registers: seq<Word>, nextData: nat, dataFull: bool, response: Option<Response>,
                        control: ControlPort): Result<ExecuteStep>
    requires |registers| == 32
  {
    if f.fault.Some? then Err(f.fault.value)
    else if f.decoded.None? then Err(Protocol)
    else
      var d := f.decoded.value;
      if f.bundle then
        var lanes :- IssueLanes(f.operations, f.completedLanes, control);
        var f' := f.(completedLanes := lanes.completed);
        Ok(ExecuteStep(if lanes.completed == |f.operations| then Completed(0, NextPc(f.pc), false, false) else Stalled(f'),
                       if f.completedLanes <= lanes.completed <= |f.operations| then f.operations[f.completedLanes..lanes.completed] else [],
                       lanes.replies, false))
      else if d.op == Quantum then
        var command :- AdaptQuantum(d, f.lhs, f.rhs);
        var answer :- control(0);
        Ok(if answer.None? then ExecuteStep(Stalled(f), [], [], false)
           else ExecuteStep(Completed(answer.value, NextPc(f.pc), false, false), [command], [answer.value], false))
      else if Exits(d, registers) then
        var answer :- control(0);
        Ok(if answer.None? then ExecuteStep(Stalled(f), [], [], false)
           else ExecuteStep(Completed(0, NextPc(f.pc), true, true), [Halt], [answer.value], false))
      else
        var effect :- if f.effect.Some? then Ok(f.effect.value) else Evaluate(d, f.pc, f.lhs, f.rhs);
        ExecuteEffect(f.(effect := Some(effect)), effect, nextData, dataFull, response)
  }

  function ExecuteEffect(f: Frame, effect: Effect, nextData: nat, dataFull: bool, response: Option<Response>): Result<ExecuteStep> {
    if effect.memory == NoAccess then
      Ok(ExecuteStep(Completed(effect.value, effect.nextPc, effect.branchTaken, false), [], [], false))
    else if f.memoryRequest == 0 then
      if dataFull then Ok(ExecuteStep(Stalled(f), [], [], false))
      else if MAX_TICK < nextData + 1 then Err(TimeOverflow)
      else
        Ok(ExecuteStep(
             Requesting(f.(memoryRequest := nextData),
                        Request(nextData, effect.address, effect.storeValue, effect.width, effect.memory == Store, false)),
             [], [], false))
    else if response.None? then Ok(ExecuteStep(Stalled(f), [], [], false))
    else if response.value.id != f.memoryRequest then Err(Protocol)
    else if response.value.fault.Some? then Err(response.value.fault.value)
    else Ok(ExecuteStep(Completed(Extended(effect, response.value.value), effect.nextPc, false, false), [], [], true))
  }

  /** Retirement: the register write, the next program counter, and an empty execute stage. */
  function Retire(c: Cpu, d: Decoded, e: Executed): (r: Cpu)
    requires c.Valid() && e.Completed?
    ensures r.Valid()
  {
    c.(registers := Written(c.registers, d.writesRd, d.rd, e.value), pc := e.nextPc, execute := None, halted := e.halted)
  }

  function Flush(c: Cpu): Result<Cpu> {
    if MAX_TICK < c.generation + 1 then Err(TimeOverflow)
    else Ok(c.(decode := None, fetched := None, generation := c.generation + 1, fetchPc := c.pc))
  }

  // ---- Issue, and the stages behind it ----

  /** Decoding reads the registers when the instruction enters the execute stage. */
  function IssueFrame(dual: bool, f: Frame, registers: seq<Word>): Frame
    requires |registers| == 32
  {
    if f.fault.Some? then f
    else if dual && Opcode(f.word) == BUNDLE_OPCODE then
      var operations := DecodeBundle(f.word, registers);
      if operations.Err? then f.(fault := Some(operations.error))
      else f.(operations := operations.value, bundle := true, decoded := Some(Decoded(Quantum, f.word, 0, 0, 0, 0, false)))
    else
      var d := Decode(f.word);
      if d.Err? then f.(fault := Some(d.error))
      else f.(decoded := Some(d.value), lhs := registers[d.value.rs1], rhs := registers[d.value.rs2])
  }

  /** Frames move down as stages free up. */
  function MoveFrames(dual: bool, c: Cpu): Cpu
    requires c.Valid()
  {
    var c1 := if c.execute.None? && c.decode.Some? then c.(execute := Some(IssueFrame(dual, c.decode.value, c.registers)), decode := None) else c;
    if c1.decode.None? && c1.fetched.Some? then c1.(decode := c1.fetched, fetched := None) else c1
  }

  predicate Fetches(c: Cpu, fetchFull: bool) {
    c.fetchRequest.None? && c.fetched.None? && !fetchFull
  }

  function StartFetch(c: Cpu): Result<Cpu> {
    if MAX_TICK < c.nextFetch + 1 then Err(TimeOverflow)
    else
      Ok(c.(nextFetch := c.nextFetch + 1, fetchRequest := Some(Fetch(c.nextFetch, c.fetchPc, c.generation)), fetchPc := NextPc(c.fetchPc)))
  }

  function FetchRequestOf(c: Cpu): Request {
    Request(c.nextFetch, c.fetchPc, 0, 4, false, true)
  }

  // ---- One edge ----

  datatype Ports = Ports(fetch: Port, data: Port)

  function Head(entries: seq<Envelope<Response>>, now: nat): Option<Response> {
    if Readable(entries, now) then Some(entries[0].value) else None
  }

  function Drop(entries: seq<Envelope<Response>>, taken: bool): seq<Envelope<Response>> {
    if taken && entries != [] then entries[1..] else entries
  }

  /** The stages behind execute: the next frames move down, and the next fetch starts. */
  datatype Advanced = Advanced(cpu: Cpu, ports: Ports)

  function Advance(cfg: CpuConfig, c: Cpu, ports: Ports, now: nat): (r: Result<Advanced>)
    requires cfg.clock.Valid() && c.Valid()
    ensures r.Ok? ==> r.value.cpu.Valid()
  {
    var c1 := MoveFrames(cfg.dual, c);
    if !Fetches(c1, ports.fetch.requests != []) then Ok(Advanced(c1, ports))
    else
      var requests :- cfg.Channel().Publish(ports.fetch.requests, now, FetchRequestOf(c1));
      var c2 :- StartFetch(c1);
      Ok(Advanced(c2, ports.(fetch := ports.fetch.(requests := requests))))
  }

  /** What an edge did: the new state, the control operations replied to, and the instruction it retired. */
  datatype EdgeResult = EdgeResult(cpu: Cpu, ports: Ports, commands: seq<Command>, replies: seq<Word>, retired: Option<Retired>)

  /** The execute stage's part of an edge. */
  function ExecutePhase(cfg: CpuConfig, c: Cpu, ports: Ports, now: nat, control: ControlPort): (r: Result<EdgeResult>)
    requires cfg.clock.Valid() && c.Valid()
    ensures r.Ok? ==> r.value.cpu.Valid()
  {
    if c.execute.None? then Ok(EdgeResult(c, ports, [], [], None))
    else
      var f := c.execute.value;
      var response := Head(ports.data.responses, now);
      var step :- ExecuteFrame(f, c.registers, c.nextData, ports.data.requests != [], response, control);
      var ports1 := ports.(data := ports.data.(responses := Drop(ports.data.responses, step.takesResponse)));
      match step.outcome
      case Stalled(f') => Ok(EdgeResult(c.(execute := Some(f')), ports1, step.commands, step.replies, None))
      case Requesting(f', request) =>
        var requests :- cfg.Channel().Publish(ports.data.requests, now, request);
        Ok(EdgeResult(c.(execute := Some(f'), nextData := c.nextData + 1), ports1.(data := ports1.data.(requests := requests)),
                      step.commands, step.replies, None))
      case Completed(value, nextPc, flush, halted) =>
        if f.decoded.None? then Err(Protocol)
        else
          var c1 := Retire(c, f.decoded.value, step.outcome);
          var c2 :- if flush then Flush(c1) else Ok(c1);
          Ok(EdgeResult(c2, ports1, step.commands, step.replies, Some(Retired(f.pc, f.word, value, nextPc))))
  }

  function Step(cfg: CpuConfig, c: Cpu, ports: Ports, now: nat, control: ControlPort): Result<EdgeResult>
    requires cfg.clock.Valid() && c.Valid()
  {
    if !cfg.clock.Edge(now) then Err(Protocol)
    else
      var c1 :- ReceiveFetch(c, Head(ports.fetch.responses, now));
      var ports1 := ports.(fetch := ports.fetch.(responses := Drop(ports.fetch.responses, Readable(ports.fetch.responses, now))));
      if c1.halted then Ok(EdgeResult(c1, ports1, [], [], None))
      else
        var executed :- ExecutePhase(cfg, c1, ports1, now, control);
        if executed.cpu.halted then Ok(executed)
        else
          var advanced :- Advance(cfg, executed.cpu, executed.ports, now);
          Ok(executed.(cpu := advanced.cpu, ports := advanced.ports))
  }
}
