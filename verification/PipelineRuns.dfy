/** The pipeline with its memory retires exactly what the sequential specification does. */
module PipelineRuns {
  import opened Errors
  import opened Time
  import opened Mailboxes
  import opened Isa
  import opened Memory
  import opened Sequential
  import opened Pipeline

  datatype MachineConfig = MachineConfig(cpu: CpuConfig, latency: nat, code: Word -> Result<Word>, device: Word -> bool) {
    predicate Valid() { cpu.clock.Valid() && 0 < latency }
    function Backing(): Backing { Memory.Backing(cpu.clock, latency, code, device) }
    function Platform(): Platform { Sequential.Platform(code, device, cpu.dual) }
  }

  /**
   * The history: the replies of each retired instruction, the retired instructions, every external effect
   * in order, the replies that the instruction in the execute stage has had, and the error with which a
   * device refused it.
   */
  datatype History = History(script: seq<seq<Word>>, retired: seq<Retired>, externals: seq<External>, current: seq<Word>, refusal: Option<ErrorCode>)

  datatype Machine = Machine(cpu: Cpu, ports: Ports, fetchServer: Server, dataServer: Server, image: Image, history: History)

  function Begin(entry: Word, image: Image): (m: Machine)
    ensures m.cpu.Valid()
  {
    Machine(ResetCpu(entry), Ports(Port([], []), Port([], [])), Server(None, 0), Server(None, 0), image, History([], [], [], [], None))
  }

  // ---- One edge ----

  function Noted(h: History, r: EdgeResult): History {
    var current := h.current + r.replies;
    var externals := h.externals + ControlsOf(r.commands);
    if r.retired.Some? then History(h.script + [current], h.retired + [r.retired.value], externals, [], None)
    else h.(externals := externals, current := current)
  }

  function CpuEdge(cfg: MachineConfig, m: Machine, now: nat, control: ControlPort): (r: Result<Machine>)
    requires cfg.Valid() && m.cpu.Valid()
    ensures r.Ok? ==> r.value.cpu.Valid()
  {
    var r :- Pipeline.Step(cfg.cpu, m.cpu, m.ports, now, control);
    Ok(m.(cpu := r.cpu, ports := r.ports, history := Noted(m.history, r)))
  }

  /** What serving a data request replies and does outside the processor. */
  function Effects(device: Word -> bool, request: Request, answer: Answer): (seq<Word>, seq<External>) {
    if answer.Retry? || answer.fault.Some? then ([], [])
    else if device(request.address) then ([answer.value], [Device(request.address, request.value, request.width, request.write)])
    else if request.write then ([], [Stored(request.address, request.value, request.width)])
    else ([], [])
  }

  /** The error with which a device answers a data request. */
  function RefusalOf(device: Word -> bool, request: Request, answer: Result<Option<Word>>): Option<ErrorCode> {
    if device(request.address) && answer.Err? then Some(answer.error) else None
  }

  function MemoryEdge(cfg: MachineConfig, m: Machine, now: nat, device: Result<Option<Word>>): (r: Result<Machine>)
    requires cfg.Valid() && m.cpu.Valid()
    ensures r.Ok? ==> r.value.cpu.Valid()
  {
    if !cfg.cpu.clock.Edge(now) then Err(Protocol)
    else
      var fetch :- StepPort(cfg.Backing(), m.fetchServer, m.ports.fetch, m.image, now, true, Ok(None));
      var data :- StepPort(cfg.Backing(), m.dataServer, m.ports.data, fetch.image, now, false, device);
      var served := m.dataServer.pending.Some? && data.server.pending.None?;
      var effects :=
        if served then Effects(cfg.device, m.dataServer.pending.value.request,
                               Serve(cfg.Backing(), m.dataServer.pending.value.request, fetch.image, device))
        else ([], []);
      var refusal := if served then RefusalOf(cfg.device, m.dataServer.pending.value.request, device) else m.history.refusal;
      Ok(m.(ports := Ports(fetch.port, data.port), fetchServer := fetch.server, dataServer := data.server, image := data.image,
            history := m.history.(current := m.history.current + effects.0, externals := m.history.externals + effects.1, refusal := refusal)))
  }

  datatype Op = Cpu(now: nat, control: ControlPort) | Memory(now: nat, device: Result<Option<Word>>)

  function Step(cfg: MachineConfig, m: Machine, op: Op): (r: Result<Machine>)
    requires cfg.Valid() && m.cpu.Valid()
    ensures r.Ok? ==> r.value.cpu.Valid()
  {
    match op
    case Cpu(now, control) => CpuEdge(cfg, m, now, control)
    case Memory(now, device) => MemoryEdge(cfg, m, now, device)
  }

  function RunAll(cfg: MachineConfig, m: Machine, ops: seq<Op>): (r: Result<Machine>)
    requires cfg.Valid() && m.cpu.Valid()
    ensures r.Ok? ==> r.value.cpu.Valid()
    decreases |ops|
  {
    if ops == [] then Ok(m)
    else
      var next :- Step(cfg, m, ops[0]);
      RunAll(cfg, next, ops[1..])
  }

  // ---- The fetch port: one request, always for the next program counter ----

  function WordOf(code: Word -> Result<Word>, pc: Word): Word {
    if code(pc).Ok? then code(pc).value else 0
  }

  function FaultOf(code: Word -> Result<Word>, pc: Word): Option<ErrorCode> {
    if code(pc).Ok? then None else Some(code(pc).error)
  }

  ghost predicate Idle(port: Port, s: Server) {
    port.requests == [] && port.responses == [] && s.pending.None?
  }

  /** A request on its way to the memory, with the memory, or answered. */
  ghost predicate Sent(port: Port, s: Server, request: Request) {
    |port.requests| == 1 && port.requests[0].value == request && port.responses == [] && s.pending.None? && s.lastId < request.id
  }

  ghost predicate Held(port: Port, s: Server, request: Request) {
    port.requests == [] && port.responses == [] && s.pending.Some? && s.pending.value.request == request
  }

  ghost predicate Answered(port: Port, s: Server) {
    port.requests == [] && |port.responses| == 1 && s.pending.None?
  }

  function FetchFor(f: Fetch): Request {
    Request(f.id, f.pc, 0, 4, false, true)
  }

  ghost predicate FetchOk(code: Word -> Result<Word>, request: Option<Fetch>, next: nat, generation: nat, port: Port, s: Server) {
    && 0 < next && s.lastId < next
    && match request
       case None => Idle(port, s)
       case Some(f) =>
         && 0 < f.id < next && f.generation <= generation
         && (|| Sent(port, s, FetchFor(f)) || Held(port, s, FetchFor(f))
             || (Answered(port, s) && port.responses[0].value == Response(f.id, WordOf(code, f.pc), FaultOf(code, f.pc))))
  }

  // ---- The stages: consecutive program counters from the architectural one ----

  function After(pc: Word, occupied: bool): Word {
    if occupied then NextPc(pc) else pc
  }

  /** An undecoded frame holds what the code has at its program counter. */
  ghost predicate FetchedFrom(code: Word -> Result<Word>, f: Frame, pc: Word) {
    f == FreshFrame(f.id, pc, WordOf(code, pc), FaultOf(code, pc))
  }

  predicate LiveFetch(c: Pipeline.Cpu) {
    c.fetchRequest.Some? && c.fetchRequest.value.generation == c.generation
  }

  ghost predicate StagesOk(code: Word -> Result<Word>, c: Pipeline.Cpu) {
    var q1 := After(c.pc, c.execute.Some?);
    var q2 := After(q1, c.decode.Some?);
    var q3 := After(q2, c.fetched.Some?);
    && (c.decode.Some? ==> FetchedFrom(code, c.decode.value, q1))
    && (c.fetched.Some? ==> FetchedFrom(code, c.fetched.value, q2))
    && (LiveFetch(c) ==> c.fetchRequest.value.pc == q3 && c.fetched.None?)
    && c.fetchPc == After(q3, LiveFetch(c))
  }

  // ---- The execute stage: the next instruction, and what it has done so far ----

  /** What the instruction has done: nothing, or exactly these externals, with these replies or a device's refusal. */
  datatype Progress = Progress(image: Image, externals: seq<External>, current: seq<Word>, refusal: Option<ErrorCode>)

  /** The instruction at the architectural program counter faults before it does anything. */
  ghost predicate Faults(p: Platform, a: Arch, fault: ErrorCode)
    requires a.Valid()
  {
    forall replies :: Sequential.Execute(p, a, replies) == Err(fault)
  }

  ghost predicate PlannedFrame(p: Platform, a: Arch, f: Frame)
    requires a.Valid()
  {
    && f.pc == a.pc && p.code(a.pc) == Ok(f.word) && f.fault.None? && f.decoded.Some? && !a.halted
    && PlanOf(p.dual, f.word, a.registers)
       == Ok(if f.bundle then Bundle(f.operations) else Plain(f.decoded.value, f.lhs, f.rhs))
    && (f.bundle ==> !f.decoded.value.writesRd && f.decoded.value.op == Quantum)
    && (f.effect.Some? ==> !f.bundle && Evaluate(f.decoded.value, f.pc, f.lhs, f.rhs) == Ok(f.effect.value))
  }

  function DataRequest(id: nat, effect: Effect): Request {
    Request(id, effect.address, effect.storeValue, effect.width, effect.memory == Store, false)
  }

  /** The response to a data request is what the access does. */
  ghost predicate ResponseOk(p: Platform, a: Arch, effect: Effect, response: Response, before: seq<External>, now: Progress) {
    if response.fault.Some? then
      && now == Progress(a.image, before, [], if p.device(effect.address) then response.fault else None)
      && (p.device(effect.address) || Access(p, effect, a.image, []) == Err(response.fault.value))
    else
      && now.refusal.None? &&
      exists externals :: Access(p, effect, a.image, now.current) == Ok(Accessed(response.value, now.image, externals))
                          && now.externals == before + externals
  }

  ghost predicate DataOk(p: Platform, a: Arch, f: Frame, port: Port, s: Server, before: seq<External>, now: Progress)
    requires f.effect.Some?
  {
    var request := DataRequest(f.memoryRequest, f.effect.value);
    || (Sent(port, s, request) && now == Progress(a.image, before, [], None))
    || (Held(port, s, request) && now == Progress(a.image, before, [], None))
    || (Answered(port, s) && port.responses[0].value.id == f.memoryRequest
        && ResponseOk(p, a, f.effect.value, port.responses[0].value, before, now))
  }

  ghost predicate FrameOk(p: Platform, a: Arch, f: Frame, next: nat, port: Port, s: Server, before: seq<External>, now: Progress)
    requires a.Valid()
  {
    if f.fault.Some? then Faults(p, a, f.fault.value) && Idle(port, s) && now == Progress(a.image, before, [], None)
    else
      && PlannedFrame(p, a, f)
      && (if f.bundle then
            && f.completedLanes < |f.operations| && |now.current| == f.completedLanes && f.memoryRequest == 0
            && Idle(port, s) && now.image == a.image && now.refusal.None? && now.externals == before + ControlsOf(f.operations[..f.completedLanes])
          else if f.memoryRequest == 0 then Idle(port, s) && now == Progress(a.image, before, [], None)
          else
            && f.memoryRequest < next && f.effect.Some? && f.effect.value.memory != NoAccess
            && f.decoded.value.op != Quantum && !Exits(f.decoded.value, a.registers)
            && DataOk(p, a, f, port, s, before, now))
  }

  ghost predicate ExecuteOk(p: Platform, a: Arch, execute: Option<Frame>, next: nat, port: Port, s: Server, before: seq<External>, now: Progress)
    requires a.Valid()
  {
    && 0 < next && s.lastId < next
    && match execute
       case None => Idle(port, s) && now == Progress(a.image, before, [], None)
       case Some(f) => FrameOk(p, a, f, next, port, s, before, now)
  }

  // ---- The whole invariant ----

  ghost predicate ArchMatches(c: Pipeline.Cpu, retired: seq<Retired>, ran: Ran) {
    && c.registers == ran.arch.registers && c.pc == ran.arch.pc && c.halted == ran.arch.halted && retired == ran.retired
  }

  function ProgressOf(m: Machine): Progress {
    Progress(m.image, m.history.externals, m.history.current, m.history.refusal)
  }

  /** The invariant, part by part, against a run of the specification. */
  ghost predicate PartsOk(cfg: MachineConfig, ran: Ran, c: Pipeline.Cpu, ports: Ports, s: Server, t: Server,
                          retired: seq<Retired>, progress: Progress)
    requires ran.arch.Valid()
  {
    && c.Valid() && ArchMatches(c, retired, ran)
    && FetchOk(cfg.code, c.fetchRequest, c.nextFetch, c.generation, ports.fetch, s)
    && (if c.halted then c.execute.None? else StagesOk(cfg.code, c))
    && ExecuteOk(cfg.Platform(), ran.arch, c.execute, c.nextData, ports.data, t, ran.externals, progress)
  }

  ghost predicate MachineOk(cfg: MachineConfig, start: Arch, m: Machine)
    requires start.Valid()
  {
    var ran := RunSequence(cfg.Platform(), start, m.history.script);
    ran.Ok? && PartsOk(cfg, ran.value, m.cpu, m.ports, m.fetchServer, m.dataServer, m.history.retired, ProgressOf(m))
  }

  function StartArch(entry: Word, image: Image): (a: Arch)
    ensures a.Valid()
  {
    Arch(seq(32, _ => 0), entry, image, false)
  }

  lemma BeginIsOk(cfg: MachineConfig, entry: Word, image: Image)
    ensures MachineOk(cfg, StartArch(entry, image), Begin(entry, image))
  {
    hide NextPc;
  }

  // ---- The fetch response ----

  lemma ReceiveKeepsFetch(code: Word -> Result<Word>, c: Pipeline.Cpu, port: Port, s: Server, now: nat)
    requires FetchOk(code, c.fetchRequest, c.nextFetch, c.generation, port, s) && (c.halted || StagesOk(code, c))
    ensures
      var response := Head(port.responses, now);
      var r := ReceiveFetch(c, response);
      && r.Ok? && r.value == c.(fetched := r.value.fetched, fetchRequest := r.value.fetchRequest)
      && FetchOk(code, r.value.fetchRequest, c.nextFetch, c.generation, port.(responses := Drop(port.responses, Readable(port.responses, now))), s)
      && (c.halted || StagesOk(code, r.value))
  {
    hide NextPc, WordOf, FaultOf;
  }

  // ---- The stages behind execute ----

  lemma IssueIsPlanned(p: Platform, a: Arch, f: Frame)
    requires a.Valid() && FetchedFrom(p.code, f, a.pc) && !a.halted
    ensures
      var g := IssueFrame(p.dual, f, a.registers);
      && g.memoryRequest == 0 && g.completedLanes == 0
      && (if g.fault.Some? then Faults(p, a, g.fault.value)
          else PlannedFrame(p, a, g) && (g.bundle ==> 0 < |g.operations|))
  {
    hide Decode, DecodeBundle, Run1, Evaluate;
    BundleLanes(f.word, a.registers);
  }

  lemma BundleLanes(word: Word, registers: seq<Word>)
    requires |registers| == 32
    ensures DecodeBundle(word, registers).Ok? ==> |DecodeBundle(word, registers).value| == 2
  {
    hide LaneCommand;
  }

  lemma MoveKeepsStages(code: Word -> Result<Word>, dual: bool, c: Pipeline.Cpu)
    requires c.Valid() && StagesOk(code, c)
    ensures
      var r := MoveFrames(dual, c);
      && StagesOk(code, r) && r == c.(fetched := r.fetched, decode := r.decode, execute := r.execute)
      && (c.execute.Some? ==> r.execute == c.execute)
      && (c.execute.None? ==>
            if c.decode.Some? then r.execute == Some(IssueFrame(dual, c.decode.value, c.registers)) && FetchedFrom(code, c.decode.value, c.pc)
            else r.execute.None?)
  {
    hide NextPc, FetchedFrom, IssueFrame;
  }

  lemma MoveKeepsExecute(p: Platform, a: Arch, c: Pipeline.Cpu, port: Port, s: Server, before: seq<External>, now: Progress)
    requires c.Valid() && a.Valid() && c.registers == a.registers && c.pc == a.pc && !a.halted && StagesOk(p.code, c)
    requires ExecuteOk(p, a, c.execute, c.nextData, port, s, before, now)
    ensures ExecuteOk(p, a, MoveFrames(p.dual, c).execute, c.nextData, port, s, before, now)
  {
    MoveKeepsStages(p.code, p.dual, c);
    hide StagesOk, FetchedFrom, IssueFrame, MoveFrames, PlannedFrame, Faults;
    if c.execute.None? && c.decode.Some? {
      IssueIsPlanned(p, a, c.decode.value);
      assert before + ControlsOf([]) == before;
      var f := IssueFrame(p.dual, c.decode.value, c.registers);
      assert f.operations[..0] == [];
    }
  }

  /** A fetch starts only into an empty link, at the next program counter. */
  lemma FetchStarts(code: Word -> Result<Word>, channel: Link, c: Pipeline.Cpu, port: Port, s: Server, now: nat)
    requires channel.Valid() && channel.capacity == 1 && c.Valid() && StagesOk(code, c)
    requires FetchOk(code, c.fetchRequest, c.nextFetch, c.generation, port, s) && Fetches(c, port.requests != [])
    ensures
      var published := channel.Publish(port.requests, now, FetchRequestOf(c));
      var started := StartFetch(c);
      && (published.Err? ==> published.error == TimeOverflow) && (started.Err? ==> started.error == TimeOverflow)
      && (published.Ok? && started.Ok? ==>
            && StagesOk(code, started.value)
            && started.value == c.(nextFetch := c.nextFetch + 1, fetchRequest := started.value.fetchRequest, fetchPc := started.value.fetchPc)
            && FetchOk(code, started.value.fetchRequest, started.value.nextFetch, c.generation, port.(requests := published.value), s))
  {
    hide NextPc, WordOf, FaultOf, FetchedFrom;
    AfterErrors(channel, now);
  }

  lemma AdvanceKeeps(cfg: MachineConfig, a: Arch, c: Pipeline.Cpu, ports: Ports, s: Server, t: Server, before: seq<External>, progress: Progress, now: nat)
    requires cfg.Valid() && c.Valid() && a.Valid() && c.registers == a.registers && c.pc == a.pc && !a.halted && !c.halted
    requires StagesOk(cfg.code, c) && FetchOk(cfg.code, c.fetchRequest, c.nextFetch, c.generation, ports.fetch, s)
    requires ExecuteOk(cfg.Platform(), a, c.execute, c.nextData, ports.data, t, before, progress)
    ensures
      var r := Advance(cfg.cpu, c, ports, now);
      && (r.Err? ==> r.error == TimeOverflow)
      && (r.Ok? ==>
            var d := r.value.cpu;
            && d.registers == c.registers && d.pc == c.pc && d.halted == c.halted && r.value.ports.data == ports.data
            && StagesOk(cfg.code, d) && FetchOk(cfg.code, d.fetchRequest, d.nextFetch, d.generation, r.value.ports.fetch, s)
            && ExecuteOk(cfg.Platform(), a, d.execute, d.nextData, ports.data, t, before, progress))
  {
    MoveKeepsStages(cfg.code, cfg.cpu.dual, c);
    MoveKeepsExecute(cfg.Platform(), a, c, ports.data, t, before, progress);
    hide StagesOk, FetchOk, ExecuteOk, MoveFrames, StartFetch;
    var c1 := MoveFrames(cfg.cpu.dual, c);
    if Fetches(c1, ports.fetch.requests != []) {
      FetchStarts(cfg.code, cfg.cpu.Channel(), c1, ports.fetch, s, now);
    }
  }

  // ---- The execute stage ----

  /** These lanes all reply. */
  predicate RepliesBetween(control: ControlPort, first: nat, lane: nat) {
    forall j: nat | first <= j < lane :: control(j).Ok? && control(j).value.Some?
  }

  lemma {:induction false} LanesIssue(operations: seq<Command>, completed: nat, control: ControlPort)
    requires completed <= |operations|
    ensures
      var r := IssueLanes(operations, completed, control);
      && (r.Ok? ==> completed <= r.value.completed <= |operations| && |r.value.replies| == r.value.completed - completed)
      && (r.Err? ==> exists lane: nat :: completed <= lane < |operations| && RepliesBetween(control, completed, lane) && control(lane) == Err(r.error))
    decreases |operations| - completed
  {
    if completed < |operations| {
      if control(completed).Ok? && control(completed).value.Some? {
        LanesIssue(operations, completed + 1, control);
        var r := IssueLanes(operations, completed + 1, control);
        if r.Err? {
          var lane: nat :| completed + 1 <= lane < |operations| && RepliesBetween(control, completed + 1, lane) && control(lane) == Err(r.error);
          assert RepliesBetween(control, completed, lane);
        }
      } else if control(completed).Err? {
        assert RepliesBetween(control, completed, completed);
      }
    }
  }

  /** What the rest of an instruction does, given what it has done. */
  ghost predicate StepOk(p: Platform, a: Arch, f: Frame, step: ExecuteStep, next: nat, port: Port, s: Server,
                         before: seq<External>, now: Progress)
    requires a.Valid()
  {
    var then_ := Progress(now.image, now.externals + ControlsOf(step.commands), now.current + step.replies, now.refusal);
    match step.outcome
    case Stalled(f') => FrameOk(p, a, f', next, port, s, before, then_) && !step.takesResponse
    case Requesting(f', request) =>
      && Idle(port, s) && !step.takesResponse && then_ == Progress(a.image, before, [], None) && f'.memoryRequest == next
      && f'.effect.Some? && request == DataRequest(next, f'.effect.value) && f'.effect.value.memory != NoAccess
      && f'.fault.None? && !f'.bundle && PlannedFrame(p, a, f') && f'.decoded.value.op != Quantum && !Exits(f'.decoded.value, a.registers)
    case Completed(value, nextPc, flush, halted) =>
      && f.decoded.Some? && (halted ==> flush) && (!flush ==> nextPc == NextPc(f.pc))
      && Idle(port.(responses := if step.takesResponse && port.responses != [] then port.responses[1..] else port.responses), s)
      && (var done := Sequential.Execute(p, a, then_.current);
          && done.Ok? && done.value.retired == Retired(f.pc, f.word, value, nextPc)
          && done.value.arch == Arch(Written(a.registers, f.decoded.value.writesRd, f.decoded.value.rd, value), nextPc, then_.image, halted)
          && then_.externals == before + done.value.externals)
  }

  /** The load or store that the next instruction is. */
  function MemoryEffect(p: Platform, a: Arch): Option<Effect>
    requires a.Valid()
  {
    if a.halted || p.code(a.pc).Err? then None
    else
      var plan := PlanOf(p.dual, p.code(a.pc).value, a.registers);
      if plan.Err? || plan.value.Bundle? || plan.value.decoded.op == Quantum || Exits(plan.value.decoded, a.registers) then None
      else
        var effect := Evaluate(plan.value.decoded, a.pc, plan.value.lhs, plan.value.rhs);
        if effect.Err? || effect.value.memory == NoAccess then None else Some(effect.value)
  }

  /** The next instruction's access of the RAM faults. */
  predicate AccessFaults(p: Platform, a: Arch, error: ErrorCode)
    requires a.Valid()
  {
    && MemoryEffect(p, a).Some? && !p.device(MemoryEffect(p, a).value.address)
    && Access(p, MemoryEffect(p, a).value, a.image, []) == Err(error)
  }

  /** A device has answered the next instruction's access with this error. */
  predicate DeviceRefused(p: Platform, a: Arch, error: ErrorCode, refusal: Option<ErrorCode>)
    requires a.Valid()
  {
    MemoryEffect(p, a).Some? && p.device(MemoryEffect(p, a).value.address) && refusal == Some(error)
  }

  /** The control operations that the next instruction issues, by lane. */
  function CommandsOf(p: Platform, a: Arch): seq<Command>
    requires a.Valid()
  {
    if a.halted || p.code(a.pc).Err? then []
    else
      var plan := PlanOf(p.dual, p.code(a.pc).value, a.registers);
      if plan.Err? then []
      else
        match plan.value
        case Bundle(commands) => commands
        case Plain(d, lhs, rhs) =>
          if d.op == Quantum then (if AdaptQuantum(d, lhs, rhs).Ok? then [AdaptQuantum(d, lhs, rhs).value] else [])
          else if Exits(d, a.registers) then [Halt]
          else []
  }

  /** The control refuses an operation of the next instruction: the first without a reply, or one after lanes that reply at this edge. */
  ghost predicate ControlRefuses(p: Platform, a: Arch, error: ErrorCode, control: ControlPort, done: nat)
    requires a.Valid()
  {
    exists lane: nat :: done <= lane < |CommandsOf(p, a)| && RepliesBetween(control, done, lane) && control(lane) == Err(error)
  }

  /**
   * Why the execute stage may fault: the next instruction faults whatever it is replied, its access of the RAM does, the
   * device it accesses has refused it, or the control refuses an operation that it issues at this edge.
   */
  ghost predicate FaultOk(p: Platform, a: Arch, error: ErrorCode, control: ControlPort, current: seq<Word>, refusal: Option<ErrorCode>)
    requires a.Valid()
  {
    || error == TimeOverflow
    || Faults(p, a, error)
    || AccessFaults(p, a, error)
    || DeviceRefused(p, a, error, refusal)
    || ControlRefuses(p, a, error, control, |current|)
  }

  lemma PlannedRuns(p: Platform, a: Arch, f: Frame, replies: seq<Word>)
    requires a.Valid() && PlannedFrame(p, a, f)
    ensures
      var plan := if f.bundle then Bundle(f.operations) else Plain(f.decoded.value, f.lhs, f.rhs);
      Sequential.Execute(p, a, replies) == Run1(p, a, f.word, plan, replies)
  {
    hide PlanOf, Run1;
  }

  lemma ControlsAppend(operations: seq<Command>, i: nat, j: nat)
    requires i <= j <= |operations|
    ensures ControlsOf(operations[..i]) + ControlsOf(operations[i..j]) == ControlsOf(operations[..j])
  {
  }

  lemma BundleRuns(p: Platform, a: Arch, f: Frame, replies: seq<Word>)
    requires a.Valid() && PlannedFrame(p, a, f) && f.bundle && |replies| == |f.operations|
    ensures
      var done := Sequential.Execute(p, a, replies);
      && done.Ok? && done.value.retired == Retired(f.pc, f.word, 0, NextPc(f.pc)) && done.value.externals == ControlsOf(f.operations)
      && done.value.arch == Arch(Written(a.registers, f.decoded.value.writesRd, f.decoded.value.rd, 0), NextPc(f.pc), a.image, false)
  {
    PlannedRuns(p, a, f, replies);
    hide PlanOf, ControlsOf, NextPc;
  }

  lemma PlannedCommands(p: Platform, a: Arch, f: Frame)
    requires a.Valid() && PlannedFrame(p, a, f)
    ensures f.bundle ==> CommandsOf(p, a) == f.operations
    ensures !f.bundle && f.decoded.value.op == Quantum && AdaptQuantum(f.decoded.value, f.lhs, f.rhs).Ok? ==> |CommandsOf(p, a)| == 1
    ensures !f.bundle && f.decoded.value.op != Quantum && Exits(f.decoded.value, a.registers) ==> |CommandsOf(p, a)| == 1
  {
    hide PlanOf, AdaptQuantum, Evaluate;
  }

  lemma LaneFaults(p: Platform, a: Arch, f: Frame, control: ControlPort, error: ErrorCode)
    requires a.Valid() && PlannedFrame(p, a, f) && f.bundle
    requires exists lane: nat :: f.completedLanes <= lane < |f.operations| && RepliesBetween(control, f.completedLanes, lane) && control(lane) == Err(error)
    ensures ControlRefuses(p, a, error, control, f.completedLanes)
  {
    PlannedCommands(p, a, f);
    hide PlannedFrame, CommandsOf, RepliesBetween;
  }

  lemma BundleStep(p: Platform, a: Arch, f: Frame, next: nat, full: bool, response: Option<Response>, control: ControlPort,
                   port: Port, s: Server, before: seq<External>, now: Progress)
    requires a.Valid() && FrameOk(p, a, f, next, port, s, before, now) && f.fault.None? && f.bundle
    ensures
      var r := ExecuteFrame(f, a.registers, next, full, response, control);
      if r.Ok? then StepOk(p, a, f, r.value, next, port, s, before, now) else FaultOk(p, a, r.error, control, now.current, now.refusal)
  {
    hide IssueLanes, Evaluate, PlanOf, Idle, ControlsOf, Run1, Sequential.Execute, Written, NextPc, AccessFaults, DeviceRefused,
      Faults, ControlRefuses, RepliesBetween;
    LanesIssue(f.operations, f.completedLanes, control);
    var lanes := IssueLanes(f.operations, f.completedLanes, control);
    if lanes.Err? {
      LaneFaults(p, a, f, control, lanes.error);
    } else {
      var n := lanes.value.completed;
      ControlsAppend(f.operations, f.completedLanes, n);
      assert before + ControlsOf(f.operations[..f.completedLanes]) + ControlsOf(f.operations[f.completedLanes..n])
          == before + ControlsOf(f.operations[..n]);
      if n == |f.operations| {
        assert f.operations[..n] == f.operations;
        BundleRuns(p, a, f, now.current + lanes.value.replies);
      }
    }
  }

  /** A single operation faults by itself, or the control refuses its lane. */
  lemma QuantumFaults(p: Platform, a: Arch, f: Frame, control: ControlPort)
    requires a.Valid() && PlannedFrame(p, a, f) && !f.bundle && (f.decoded.value.op == Quantum || Exits(f.decoded.value, a.registers))
    ensures
      f.decoded.value.op == Quantum && AdaptQuantum(f.decoded.value, f.lhs, f.rhs).Err? ==>
        Faults(p, a, AdaptQuantum(f.decoded.value, f.lhs, f.rhs).error)
    ensures
      !(f.decoded.value.op == Quantum && AdaptQuantum(f.decoded.value, f.lhs, f.rhs).Err?) && control(0).Err? ==>
        ControlRefuses(p, a, control(0).error, control, 0)
  {
    PlannedCommands(p, a, f);
    assert RepliesBetween(control, 0, 0);
    hide PlanOf, CommandsOf, RepliesBetween, AdaptQuantum, Evaluate;
    if f.decoded.value.op == Quantum && AdaptQuantum(f.decoded.value, f.lhs, f.rhs).Err? {
      forall replies
        ensures Sequential.Execute(p, a, replies) == Err(AdaptQuantum(f.decoded.value, f.lhs, f.rhs).error)
      {
        PlannedRuns(p, a, f, replies);
      }
    }
  }

  lemma QuantumStep(p: Platform, a: Arch, f: Frame, next: nat, full: bool, response: Option<Response>, control: ControlPort,
                    port: Port, s: Server, before: seq<External>, now: Progress)
    requires a.Valid() && FrameOk(p, a, f, next, port, s, before, now) && f.fault.None? && !f.bundle
    requires f.decoded.value.op == Quantum || Exits(f.decoded.value, a.registers)
    ensures
      var r := ExecuteFrame(f, a.registers, next, full, response, control);
      if r.Ok? then StepOk(p, a, f, r.value, next, port, s, before, now) else FaultOk(p, a, r.error, control, now.current, now.refusal)
  {
    hide AdaptQuantum, Evaluate, PlanOf, Idle, DataOk, Faults, MemoryEffect;
    PlannedCommands(p, a, f);
    hide CommandsOf;
    var r := ExecuteFrame(f, a.registers, next, full, response, control);
    if r.Err? {
      QuantumFaults(p, a, f, control);
    } else {
      PlannedRuns(p, a, f, now.current + r.value.replies);
      assert now.externals + ControlsOf([]) == now.externals && now.current + [] == now.current;
    }
  }

  /** An ordinary instruction evaluates, once. */
  lemma EffectFrame(p: Platform, a: Arch, f: Frame, next: nat, full: bool, response: Option<Response>, control: ControlPort)
    requires a.Valid() && PlannedFrame(p, a, f) && !f.bundle && f.decoded.value.op != Quantum && !Exits(f.decoded.value, a.registers)
    ensures
      var effect := Evaluate(f.decoded.value, f.pc, f.lhs, f.rhs);
      var r := ExecuteFrame(f, a.registers, next, full, response, control);
      if effect.Err? then r == Err(effect.error)
      else r == ExecuteEffect(f.(effect := Some(effect.value)), effect.value, next, full, response)
           && PlannedFrame(p, a, f.(effect := Some(effect.value)))
  {
    hide Evaluate, PlanOf, ExecuteEffect, AdaptQuantum;
  }

  lemma OrdinaryRuns(p: Platform, a: Arch, f: Frame, replies: seq<Word>)
    requires a.Valid() && PlannedFrame(p, a, f) && !f.bundle && f.decoded.value.op != Quantum && !Exits(f.decoded.value, a.registers)
    ensures
      var effect := Evaluate(f.decoded.value, f.pc, f.lhs, f.rhs);
      var d := f.decoded.value;
      var r := Sequential.Execute(p, a, replies);
      if effect.Err? then r == Err(effect.error)
      else if effect.value.memory == NoAccess then
        replies == [] ==> r == Ok(Finish(a, f.word, d.writesRd, d.rd, effect.value.value, effect.value.nextPc, a.image, false, []))
      else
        var accessed := Access(p, effect.value, a.image, replies);
        r == if accessed.Err? then Err(accessed.error)
             else Ok(Finish(a, f.word, d.writesRd, d.rd, Extended(effect.value, accessed.value.value), effect.value.nextPc,
                            accessed.value.image, false, accessed.value.externals))
  {
    PlannedRuns(p, a, f, replies);
    hide Evaluate, PlanOf, Access, AdaptQuantum, Extended, Finish;
  }

  lemma NothingAdded(now: Progress)
    ensures now.externals + ControlsOf([]) == now.externals && now.current + [] == now.current
  {
  }

  lemma PureEffect(p: Platform, a: Arch, f: Frame, effect: Effect, next: nat, full: bool, response: Option<Response>,
                   port: Port, s: Server, before: seq<External>, now: Progress)
    requires a.Valid() && PlannedFrame(p, a, f) && !f.bundle && f.decoded.value.op != Quantum && !Exits(f.decoded.value, a.registers)
    requires f.effect == Some(effect) && Evaluate(f.decoded.value, f.pc, f.lhs, f.rhs) == Ok(effect)
    requires f.memoryRequest == 0 && Idle(port, s) && now == Progress(a.image, before, [], None)
    ensures
      var r := ExecuteEffect(f, effect, next, full, response);
      if r.Ok? then StepOk(p, a, f, r.value, next, port, s, before, now) else r.error == TimeOverflow
  {
    hide Evaluate, PlanOf, Access, Sequential.Execute, NextPc, Written, ControlsOf, Run1, Finish, Idle, PlannedFrame,
      Faults;
    NothingAdded(now);
    assert port.(responses := port.responses) == port;
    if effect.memory == NoAccess {
      PureCompletes(p, a, f, effect);
    } else {
      PlannedParts(p, a, f);
      NextRequest(p, a, f, next);
    }
  }

  lemma NextRequest(p: Platform, a: Arch, f: Frame, next: nat)
    requires a.Valid() && PlannedFrame(p, a, f)
    ensures PlannedFrame(p, a, f.(memoryRequest := next))
  {
    hide PlanOf, Evaluate;
  }

  lemma PlannedParts(p: Platform, a: Arch, f: Frame)
    requires a.Valid() && PlannedFrame(p, a, f)
    ensures f.fault.None? && f.decoded.Some? && f.pc == a.pc
  {
  }

  lemma PureCompletes(p: Platform, a: Arch, f: Frame, effect: Effect)
    requires a.Valid() && PlannedFrame(p, a, f) && !f.bundle && f.decoded.value.op != Quantum && !Exits(f.decoded.value, a.registers)
    requires Evaluate(f.decoded.value, f.pc, f.lhs, f.rhs) == Ok(effect) && effect.memory == NoAccess
    ensures f.decoded.Some? && (!effect.branchTaken ==> effect.nextPc == NextPc(f.pc))
    ensures
      var done := Sequential.Execute(p, a, []);
      && done.Ok? && done.value.retired == Retired(f.pc, f.word, effect.value, effect.nextPc) && done.value.externals == []
      && done.value.arch == Arch(Written(a.registers, f.decoded.value.writesRd, f.decoded.value.rd, effect.value), effect.nextPc, a.image, false)
  {
    OrdinaryRuns(p, a, f, []);
    PlannedParts(p, a, f);
    hide Evaluate, PlannedFrame, Sequential.Execute, NextPc, Written;
    if !effect.branchTaken {
      FallsThrough(f.decoded.value, f.pc, f.lhs, f.rhs);
      NextIsFour(f.pc);
    }
  }

  lemma PureStep(p: Platform, a: Arch, f: Frame, next: nat, full: bool, response: Option<Response>, control: ControlPort,
                 port: Port, s: Server, before: seq<External>, now: Progress)
    requires a.Valid() && FrameOk(p, a, f, next, port, s, before, now) && f.fault.None? && !f.bundle
    requires f.decoded.value.op != Quantum && !Exits(f.decoded.value, a.registers) && f.memoryRequest == 0
    ensures
      var r := ExecuteFrame(f, a.registers, next, full, response, control);
      if r.Ok? then StepOk(p, a, f, r.value, next, port, s, before, now) else FaultOk(p, a, r.error, control, now.current, now.refusal)
  {
    assert f.decoded.Some? && PlannedFrame(p, a, f);
    hide Evaluate, PlannedFrame, Idle, DataOk, ExecuteFrame, ExecuteEffect, StepOk, Sequential.Execute, Exits;
    EffectFrame(p, a, f, next, full, response, control);
    var effect := Evaluate(f.decoded.value, f.pc, f.lhs, f.rhs);
    if effect.Err? {
      forall replies
        ensures Sequential.Execute(p, a, replies) == Err(effect.error)
      {
        OrdinaryRuns(p, a, f, replies);
      }
    } else {
      PureEffect(p, a, f.(effect := Some(effect.value)), effect.value, next, full, response, port, s, before, now);
      StepAside(p, a, f, f.(effect := Some(effect.value)), ExecuteFrame(f, a.registers, next, full, response, control), next, port, s, before, now);
    }
  }

  lemma StepAside(p: Platform, a: Arch, f: Frame, g: Frame, r: Result<ExecuteStep>, next: nat, port: Port, s: Server,
                  before: seq<External>, now: Progress)
    requires a.Valid() && g.pc == f.pc && g.word == f.word && g.decoded == f.decoded
    requires r.Ok? ==> StepOk(p, a, g, r.value, next, port, s, before, now)
    ensures r.Ok? ==> StepOk(p, a, f, r.value, next, port, s, before, now)
  {
    hide FrameOk, PlannedFrame, Idle, Sequential.Execute, Written, ControlsOf, NextPc;
  }

  lemma ResponseStep(p: Platform, a: Arch, f: Frame, next: nat, full: bool, response: Option<Response>, control: ControlPort,
                     port: Port, s: Server, before: seq<External>, now: Progress, t: nat)
    requires a.Valid() && FrameOk(p, a, f, next, port, s, before, now) && f.fault.None? && !f.bundle
    requires f.decoded.value.op != Quantum && !Exits(f.decoded.value, a.registers) && f.memoryRequest != 0
    requires response == Head(port.responses, t)
    ensures
      var r := ExecuteFrame(f, a.registers, next, full, response, control);
      if r.Ok? then StepOk(p, a, f, r.value, next, port, s, before, now) else FaultOk(p, a, r.error, control, now.current, now.refusal)
  {
    hide Evaluate, PlanOf, Access, Extended, NextPc, Sequential.Execute, MemoryEffect, Written, Finish, ControlsOf, Faults, CommandsOf;
    OrdinaryRuns(p, a, f, now.current);
    AccessFallsThrough(f.decoded.value, f.pc, f.lhs, f.rhs);
    NextIsFour(f.pc);
    NothingAdded(now);
    DeviceFrame(p, a, f);
    FinishParts(p, a, f, f.effect.value, now.current);
  }

  lemma FinishParts(p: Platform, a: Arch, f: Frame, effect: Effect, replies: seq<Word>)
    requires a.Valid() && f.decoded.Some?
    ensures
      var accessed := Access(p, effect, a.image, replies);
      accessed.Ok? ==>
        var value := Extended(effect, accessed.value.value);
        Finish(a, f.word, f.decoded.value.writesRd, f.decoded.value.rd, value, effect.nextPc, accessed.value.image, false, accessed.value.externals)
        == Done(Arch(Written(a.registers, f.decoded.value.writesRd, f.decoded.value.rd, value), effect.nextPc, accessed.value.image, false),
                Retired(a.pc, f.word, value, effect.nextPc), accessed.value.externals)
  {
    hide Access, Extended, Written;
  }

  lemma DeviceFrame(p: Platform, a: Arch, f: Frame)
    requires a.Valid() && PlannedFrame(p, a, f) && !f.bundle && f.effect.Some? && f.effect.value.memory != NoAccess
    requires f.decoded.value.op != Quantum && !Exits(f.decoded.value, a.registers)
    ensures MemoryEffect(p, a) == f.effect
  {
    hide PlanOf, Evaluate;
  }

  lemma NextIsFour(pc: Word)
    ensures NextPc(pc) == pc + 4
  {
  }

  lemma ExecuteFrameIsOk(p: Platform, a: Arch, f: Frame, next: nat, full: bool, response: Option<Response>, control: ControlPort,
                         port: Port, s: Server, before: seq<External>, now: Progress, t: nat)
    requires a.Valid() && FrameOk(p, a, f, next, port, s, before, now)
    requires response == Head(port.responses, t)
    ensures
      var r := ExecuteFrame(f, a.registers, next, full, response, control);
      if r.Ok? then StepOk(p, a, f, r.value, next, port, s, before, now) else FaultOk(p, a, r.error, control, now.current, now.refusal)
  {
    if f.fault.Some? {
      hide Sequential.Execute, ExecuteEffect, Faults;
    } else if f.bundle {
      hide *;
      BundleStep(p, a, f, next, full, response, control, port, s, before, now);
    } else {
      assert f.decoded.Some?;
      hide *;
      if f.decoded.value.op == Quantum || Exits(f.decoded.value, a.registers) {
        QuantumStep(p, a, f, next, full, response, control, port, s, before, now);
      } else if f.memoryRequest == 0 {
        PureStep(p, a, f, next, full, response, control, port, s, before, now);
      } else {
        ResponseStep(p, a, f, next, full, response, control, port, s, before, now, t);
      }
    }
  }

  // ---- The processor's edge ----

  lemma FlushKeepsStages(code: Word -> Result<Word>, c: Pipeline.Cpu)
    requires Flush(c).Ok? && c.execute.None? && (c.fetchRequest.Some? ==> c.fetchRequest.value.generation <= c.generation)
    ensures StagesOk(code, Flush(c).value)
  {
    hide NextPc;
  }

  lemma RetireKeepsStages(code: Word -> Result<Word>, c: Pipeline.Cpu, d: Decoded, e: Executed)
    requires c.Valid() && e.Completed? && c.execute.Some? && StagesOk(code, c) && e.nextPc == NextPc(c.pc)
    ensures StagesOk(code, Retire(c, d, e))
  {
    hide NextPc, FetchedFrom, Written;
  }

  lemma GenerationsBelow(code: Word -> Result<Word>, request: Option<Fetch>, next: nat, generation: nat, port: Port, s: Server)
    requires FetchOk(code, request, next, generation, port, s)
    ensures request.Some? ==> request.value.generation <= generation
    ensures FetchOk(code, request, next, generation + 1, port, s)
  {
  }

  /** The specification's run after this instruction, if it completes. */
  ghost predicate Continues(p: Platform, ran: Ran, r: EdgeResult, progress: Progress, ran': Ran)
    requires ran.arch.Valid()
  {
    if r.retired.None? then ran' == ran
    else
      var done := Sequential.Execute(p, ran.arch, progress.current + r.replies);
      && done.Ok? && done.value.retired == r.retired.value
      && ran' == Ran(done.value.arch, ran.retired + [done.value.retired], ran.externals + done.value.externals)
  }

  function NextRan(p: Platform, ran: Ran, r: EdgeResult, progress: Progress): (ran': Ran)
    requires ran.arch.Valid()
    ensures ran'.arch.Valid()
  {
    var done := Sequential.Execute(p, ran.arch, progress.current + r.replies);
    if r.retired.None? || done.Err? then ran
    else Ran(done.value.arch, ran.retired + [done.value.retired], ran.externals + done.value.externals)
  }

  function NextProgress(image: Image, r: EdgeResult, progress: Progress): Progress {
    Progress(image, progress.externals + ControlsOf(r.commands), if r.retired.Some? then [] else progress.current + r.replies,
             if r.retired.Some? then None else progress.refusal)
  }

  function RetiredBy(retired: seq<Retired>, r: EdgeResult): seq<Retired> {
    if r.retired.Some? then retired + [r.retired.value] else retired
  }

  lemma ExecuteShape(cfg: CpuConfig, c: Pipeline.Cpu, ports: Ports, now: nat, control: ControlPort)
    requires cfg.clock.Valid() && c.Valid() && c.execute.Some?
    ensures
      var f := c.execute.value;
      var step := ExecuteFrame(f, c.registers, c.nextData, ports.data.requests != [], Head(ports.data.responses, now), control);
      var r := ExecutePhase(cfg, c, ports, now, control);
      if step.Err? then r == Err(step.error)
      else
        var ports1 := ports.(data := ports.data.(responses := Drop(ports.data.responses, step.value.takesResponse)));
        match step.value.outcome
        case Stalled(f') => r == Ok(EdgeResult(c.(execute := Some(f')), ports1, step.value.commands, step.value.replies, None))
        case Requesting(f', request) =>
          var requests := cfg.Channel().Publish(ports.data.requests, now, request);
          r == if requests.Err? then Err(requests.error)
               else Ok(EdgeResult(c.(execute := Some(f'), nextData := c.nextData + 1),
                                  ports1.(data := ports1.data.(requests := requests.value)), step.value.commands, step.value.replies, None))
        case Completed(value, nextPc, flush, halted) =>
          f.decoded.Some? ==>
            var c1 := Retire(c, f.decoded.value, step.value.outcome);
            var c2 := if flush then Flush(c1) else Ok(c1);
            r == if c2.Err? then Err(c2.error)
                 else Ok(EdgeResult(c2.value, ports1, step.value.commands, step.value.replies, Some(Retired(f.pc, f.word, value, nextPc))))
  {
    hide ExecuteFrame, Retire, Flush;
  }

  /** The execute stage's phase keeps every part, against the specification's run continued by what it retires. */
  lemma ExecutePhaseKeeps(cfg: MachineConfig, ran: Ran, c: Pipeline.Cpu, ports: Ports, s: Server, t: Server,
                          retired: seq<Retired>, progress: Progress, now: nat, control: ControlPort)
    requires cfg.Valid() && ran.arch.Valid() && PartsOk(cfg, ran, c, ports, s, t, retired, progress) && !c.halted
    ensures
      var r := ExecutePhase(cfg.cpu, c, ports, now, control);
      && (r.Err? ==> FaultOk(cfg.Platform(), ran.arch, r.error, control, progress.current, progress.refusal))
      && (r.Ok? ==>
            && Continues(cfg.Platform(), ran, r.value, progress, NextRan(cfg.Platform(), ran, r.value, progress))
            && PartsOk(cfg, NextRan(cfg.Platform(), ran, r.value, progress), r.value.cpu, r.value.ports, s, t,
                       RetiredBy(retired, r.value), NextProgress(progress.image, r.value, progress)))
  {
    if c.execute.None? {
      NothingAdded(progress);
    } else {
      hide *;
      OccupiedPhaseKeeps(cfg, ran, c, ports, s, t, retired, progress, now, control);
    }
  }

  lemma ExecuteParts(p: Platform, a: Arch, f: Frame, next: nat, port: Port, s: Server, before: seq<External>, now: Progress)
    requires a.Valid() && ExecuteOk(p, a, Some(f), next, port, s, before, now)
    ensures FrameOk(p, a, f, next, port, s, before, now) && 0 < next && s.lastId < next
    ensures f.fault.None? ==> f.pc == a.pc
  {
    hide PlanOf, Evaluate, DataOk, Idle;
  }

  /** A stalled frame. */
  lemma StallKeeps(cfg: MachineConfig, ran: Ran, c: Pipeline.Cpu, ports: Ports, s: Server, t: Server,
                   retired: seq<Retired>, progress: Progress, f': Frame, then_: Progress)
    requires cfg.Valid() && ran.arch.Valid() && PartsOk(cfg, ran, c, ports, s, t, retired, progress) && !c.halted && c.execute.Some?
    requires FrameOk(cfg.Platform(), ran.arch, f', c.nextData, ports.data, t, ran.externals, then_)
    ensures PartsOk(cfg, ran, c.(execute := Some(f')), ports, s, t, retired, then_)
  {
    hide FrameOk, FetchOk, NextPc, FetchedFrom;
  }

  /** A data request is published into an empty link. */
  lemma RequestKeeps(cfg: MachineConfig, ran: Ran, c: Pipeline.Cpu, ports: Ports, s: Server, t: Server,
                     retired: seq<Retired>, progress: Progress, f: Frame, step: ExecuteStep, now: nat)
    requires cfg.Valid() && ran.arch.Valid() && PartsOk(cfg, ran, c, ports, s, t, retired, progress) && !c.halted && c.execute.Some?
    requires step.outcome.Requesting? && StepOk(cfg.Platform(), ran.arch, f, step, c.nextData, ports.data, t, ran.externals, progress)
    ensures
      var requests := cfg.cpu.Channel().Publish(ports.data.requests, now, step.outcome.request);
      && (requests.Err? ==> requests.error == TimeOverflow)
      && (requests.Ok? ==>
            PartsOk(cfg, ran, c.(execute := Some(step.outcome.frame), nextData := c.nextData + 1),
                    ports.(data := ports.data.(requests := requests.value)), s, t, retired,
                    Progress(progress.image, progress.externals + ControlsOf(step.commands), progress.current + step.replies, progress.refusal)))
  {
    hide FetchOk, NextPc, FetchedFrom, PlannedFrame, Exits, ControlsOf, Faults, StagesOk;
    AfterErrors(cfg.cpu.Channel(), now);
    OccupiedStages(cfg.code, c, step.outcome.frame);
  }

  lemma OccupiedStages(code: Word -> Result<Word>, c: Pipeline.Cpu, f: Frame)
    requires StagesOk(code, c) && c.execute.Some?
    ensures StagesOk(code, c.(execute := Some(f), nextData := c.nextData + 1))
  {
    hide NextPc, FetchedFrom;
  }

  /** A completed frame retires what the specification does. */
  lemma CompletionKeeps(cfg: MachineConfig, ran: Ran, c: Pipeline.Cpu, ports: Ports, s: Server, t: Server,
                        retired: seq<Retired>, progress: Progress, f: Frame, step: ExecuteStep)
    requires cfg.Valid() && ran.arch.Valid() && PartsOk(cfg, ran, c, ports, s, t, retired, progress) && !c.halted && c.execute == Some(f)
    requires step.outcome.Completed? && f.pc == c.pc
    requires StepOk(cfg.Platform(), ran.arch, f, step, c.nextData, ports.data, t, ran.externals, progress)
    ensures f.decoded.Some?
    ensures
      var e := step.outcome;
      var c1 := Retire(c, f.decoded.value, e);
      var c2 := if e.flush then Flush(c1) else Ok(c1);
      var ports1 := ports.(data := ports.data.(responses := Drop(ports.data.responses, step.takesResponse)));
      && (c2.Err? ==> c2.error == TimeOverflow)
      && (c2.Ok? ==>
            var r := EdgeResult(c2.value, ports1, step.commands, step.replies, Some(Retired(f.pc, f.word, e.value, e.nextPc)));
            var ran' := NextRan(cfg.Platform(), ran, r, progress);
            && Continues(cfg.Platform(), ran, r, progress, ran')
            && PartsOk(cfg, ran', c2.value, ports1, s, t, RetiredBy(retired, r), NextProgress(progress.image, r, progress)))
  {
    hide Sequential.Execute, NextPc, FetchedFrom, Written, ControlsOf, PlannedFrame, Faults, FetchOk, StagesOk, FrameOk;
    var e := step.outcome;
    var c1 := Retire(c, f.decoded.value, e);
    GenerationsBelow(cfg.code, c.fetchRequest, c.nextFetch, c.generation, ports.fetch, s);
    if e.flush {
      if Flush(c1).Ok? {
        FlushKeepsStages(cfg.code, c1);
      }
    } else {
      RetireKeepsStages(cfg.code, c, f.decoded.value, e);
    }
  }

  lemma OccupiedPhaseKeeps(cfg: MachineConfig, ran: Ran, c: Pipeline.Cpu, ports: Ports, s: Server, t: Server,
                           retired: seq<Retired>, progress: Progress, now: nat, control: ControlPort)
    requires cfg.Valid() && ran.arch.Valid() && PartsOk(cfg, ran, c, ports, s, t, retired, progress) && !c.halted && c.execute.Some?
    ensures
      var r := ExecutePhase(cfg.cpu, c, ports, now, control);
      && (r.Err? ==> FaultOk(cfg.Platform(), ran.arch, r.error, control, progress.current, progress.refusal))
      && (r.Ok? ==>
            && Continues(cfg.Platform(), ran, r.value, progress, NextRan(cfg.Platform(), ran, r.value, progress))
            && PartsOk(cfg, NextRan(cfg.Platform(), ran, r.value, progress), r.value.cpu, r.value.ports, s, t,
                       RetiredBy(retired, r.value), NextProgress(progress.image, r.value, progress)))
  {
    hide ExecutePhase, ExecuteFrame, ExecuteOk, FrameOk, StagesOk, FetchOk, StepOk, Sequential.Execute, Retire,
      Flush, ControlsOf, Head;
    var p, f := cfg.Platform(), c.execute.value;
    ExecuteShape(cfg.cpu, c, ports, now, control);
    ExecuteParts(p, ran.arch, f, c.nextData, ports.data, t, ran.externals, progress);
    var response, full := Head(ports.data.responses, now), ports.data.requests != [];
    ExecuteFrameIsOk(p, ran.arch, f, c.nextData, full, response, control, ports.data, t, ran.externals, progress, now);
    var step := ExecuteFrame(f, c.registers, c.nextData, full, response, control);
    if step.Ok? {
      NothingTaken(ports);
      match step.value.outcome {
        case Stalled(f') =>
          StallIsFrame(p, ran.arch, f, step.value, c.nextData, ports.data, t, ran.externals, progress);
          StallKeeps(cfg, ran, c, ports, s, t, retired, progress, f',
                     Progress(progress.image, progress.externals + ControlsOf(step.value.commands), progress.current + step.value.replies, progress.refusal));
        case Requesting(f', request) =>
          RequestTakesNothing(p, ran.arch, f, step.value, c.nextData, ports.data, t, ran.externals, progress);
          RequestKeeps(cfg, ran, c, ports, s, t, retired, progress, f, step.value, now);
        case Completed(_, _, _, _) =>
          FaultyFramesFault(f, c.registers, c.nextData, full, response, control);
          CompletionKeeps(cfg, ran, c, ports, s, t, retired, progress, f, step.value);
      }
    }
  }

  lemma FaultyFramesFault(f: Frame, registers: seq<Word>, next: nat, full: bool, response: Option<Response>, control: ControlPort)
    requires |registers| == 32 && ExecuteFrame(f, registers, next, full, response, control).Ok?
    ensures f.fault.None?
  {
    hide ExecuteEffect, IssueLanes, AdaptQuantum, Evaluate;
  }

  lemma NothingTaken(ports: Ports)
    ensures ports.(data := ports.data.(responses := Drop(ports.data.responses, false))) == ports
  {
  }

  lemma StallIsFrame(p: Platform, a: Arch, f: Frame, step: ExecuteStep, next: nat, port: Port, s: Server, before: seq<External>, now: Progress)
    requires a.Valid() && StepOk(p, a, f, step, next, port, s, before, now) && step.outcome.Stalled?
    ensures FrameOk(p, a, step.outcome.frame, next, port, s, before, Progress(now.image, now.externals + ControlsOf(step.commands), now.current + step.replies, now.refusal))
    ensures !step.takesResponse
  {
    hide FrameOk, ControlsOf;
  }

  lemma RequestTakesNothing(p: Platform, a: Arch, f: Frame, step: ExecuteStep, next: nat, port: Port, s: Server, before: seq<External>, now: Progress)
    requires a.Valid() && StepOk(p, a, f, step, next, port, s, before, now) && step.outcome.Requesting?
    ensures !step.takesResponse
  {
    hide FrameOk, PlannedFrame, ControlsOf;
  }

  // ---- A whole processor edge ----

  function Received(ports: Ports, now: nat): Ports {
    ports.(fetch := ports.fetch.(responses := Drop(ports.fetch.responses, Readable(ports.fetch.responses, now))))
  }

  lemma ReceiveKeepsParts(cfg: MachineConfig, ran: Ran, c: Pipeline.Cpu, ports: Ports, s: Server, t: Server,
                          retired: seq<Retired>, progress: Progress, now: nat)
    requires cfg.Valid() && ran.arch.Valid() && PartsOk(cfg, ran, c, ports, s, t, retired, progress)
    ensures
      var r := ReceiveFetch(c, Head(ports.fetch.responses, now));
      && r.Ok? && r.value.halted == c.halted && r.value.generation == c.generation
      && PartsOk(cfg, ran, r.value, Received(ports, now), s, t, retired, progress)
  {
    hide FetchOk, StagesOk, ExecuteOk, ReceiveFetch, Head, Drop;
    ReceiveKeepsFetch(cfg.code, c, ports.fetch, s, now);
  }

  lemma AdvanceKeepsParts(cfg: MachineConfig, ran: Ran, c: Pipeline.Cpu, ports: Ports, s: Server, t: Server,
                          retired: seq<Retired>, progress: Progress, now: nat)
    requires cfg.Valid() && ran.arch.Valid() && PartsOk(cfg, ran, c, ports, s, t, retired, progress) && !c.halted
    ensures
      var r := Advance(cfg.cpu, c, ports, now);
      && (r.Err? ==> r.error == TimeOverflow)
      && (r.Ok? ==> PartsOk(cfg, ran, r.value.cpu, r.value.ports, s, t, retired, progress))
  {
    hide FetchOk, StagesOk, ExecuteOk, Advance;
    AdvanceKeeps(cfg, ran.arch, c, ports, s, t, ran.externals, progress, now);
  }

  lemma StepShape(cfg: CpuConfig, c: Pipeline.Cpu, ports: Ports, now: nat, control: ControlPort)
    requires cfg.clock.Valid() && c.Valid() && cfg.clock.Edge(now)
    ensures
      var r := Pipeline.Step(cfg, c, ports, now, control);
      var c1 := ReceiveFetch(c, Head(ports.fetch.responses, now));
      if c1.Err? then r == Err(c1.error)
      else if c1.value.halted then r == Ok(EdgeResult(c1.value, Received(ports, now), [], [], None))
      else
        var executed := ExecutePhase(cfg, c1.value, Received(ports, now), now, control);
        if executed.Err? then r == Err(executed.error)
        else if executed.value.cpu.halted then r == executed
        else
          var advanced := Advance(cfg, executed.value.cpu, executed.value.ports, now);
          r == if advanced.Err? then Err(advanced.error)
               else Ok(executed.value.(cpu := advanced.value.cpu, ports := advanced.value.ports))
  {
    hide ReceiveFetch, ExecutePhase, Advance, Head, Drop;
  }

  lemma TicksFault(p: Platform, a: Arch, control: ControlPort, current: seq<Word>, refusal: Option<ErrorCode>)
    requires a.Valid()
    ensures FaultOk(p, a, TimeOverflow, control, current, refusal)
  {
  }

  lemma NothingHappens(p: Platform, ran: Ran, r: EdgeResult, retired: seq<Retired>, progress: Progress)
    requires ran.arch.Valid() && r.retired.None? && r.commands == [] && r.replies == []
    ensures NextRan(p, ran, r, progress) == ran && Continues(p, ran, r, progress, ran)
    ensures RetiredBy(retired, r) == retired && NextProgress(progress.image, r, progress) == progress
  {
    NothingAdded(progress);
    hide Sequential.Execute;
  }

  /** Advancing the stages behind execute retires nothing. */
  lemma AdvanceAside(p: Platform, ran: Ran, r: EdgeResult, advanced: Result<Advanced>, retired: seq<Retired>, progress: Progress)
    requires ran.arch.Valid() && Continues(p, ran, r, progress, NextRan(p, ran, r, progress))
    ensures
      advanced.Ok? ==>
        var r' := r.(cpu := advanced.value.cpu, ports := advanced.value.ports);
        && NextRan(p, ran, r', progress) == NextRan(p, ran, r, progress)
        && Continues(p, ran, r', progress, NextRan(p, ran, r', progress))
        && RetiredBy(retired, r') == RetiredBy(retired, r) && NextProgress(progress.image, r', progress) == NextProgress(progress.image, r, progress)
  {
    hide Sequential.Execute, ControlsOf;
  }

  lemma StepKeepsParts(cfg: MachineConfig, ran: Ran, c: Pipeline.Cpu, ports: Ports, s: Server, t: Server,
                       retired: seq<Retired>, progress: Progress, now: nat, control: ControlPort)
    requires cfg.Valid() && ran.arch.Valid() && PartsOk(cfg, ran, c, ports, s, t, retired, progress) && cfg.cpu.clock.Edge(now)
    ensures
      var r := Pipeline.Step(cfg.cpu, c, ports, now, control);
      && (r.Err? ==> FaultOk(cfg.Platform(), ran.arch, r.error, control, progress.current, progress.refusal))
      && (r.Ok? ==>
            && Continues(cfg.Platform(), ran, r.value, progress, NextRan(cfg.Platform(), ran, r.value, progress))
            && PartsOk(cfg, NextRan(cfg.Platform(), ran, r.value, progress), r.value.cpu, r.value.ports, s, t,
                       RetiredBy(retired, r.value), NextProgress(progress.image, r.value, progress)))
  {
    assert c.Valid();
    hide PartsOk, ReceiveFetch, ExecutePhase, Advance, Head, Drop, Pipeline.Step, Received, Sequential.Execute,
      ControlsOf, FaultOk, Continues, NextRan, NextProgress, RetiredBy;
    StepShape(cfg.cpu, c, ports, now, control);
    ReceiveKeepsParts(cfg, ran, c, ports, s, t, retired, progress, now);
    var c1, ports1 := ReceiveFetch(c, Head(ports.fetch.responses, now)).value, Received(ports, now);
    if c1.halted {
      NothingHappens(cfg.Platform(), ran, EdgeResult(c1, ports1, [], [], None), retired, progress);
    } else {
      ExecutePhaseKeeps(cfg, ran, c1, ports1, s, t, retired, progress, now, control);
      var executed := ExecutePhase(cfg.cpu, c1, ports1, now, control);
      if executed.Ok? && !executed.value.cpu.halted {
        AdvanceKeepsParts(cfg, NextRan(cfg.Platform(), ran, executed.value, progress), executed.value.cpu, executed.value.ports,
                          s, t, RetiredBy(retired, executed.value), NextProgress(progress.image, executed.value, progress), now);
        AdvanceAside(cfg.Platform(), ran, executed.value, Advance(cfg.cpu, executed.value.cpu, executed.value.ports, now), retired, progress);
      }
      TicksFault(cfg.Platform(), ran.arch, control, progress.current, progress.refusal);
    }
  }

  lemma CpuEdgeKeepsMachine(cfg: MachineConfig, start: Arch, m: Machine, now: nat, control: ControlPort)
    requires cfg.Valid() && start.Valid() && m.cpu.Valid() && MachineOk(cfg, start, m) && cfg.cpu.clock.Edge(now)
    ensures
      var ran := RunSequence(cfg.Platform(), start, m.history.script);
      var r := CpuEdge(cfg, m, now, control);
      && ran.Ok?
      && (r.Err? ==> FaultOk(cfg.Platform(), ran.value.arch, r.error, control, m.history.current, m.history.refusal))
      && (r.Ok? ==> MachineOk(cfg, start, r.value))
  {
    hide PartsOk, Pipeline.Step, Sequential.Execute, ControlsOf, RunSequence;
    var ran := RunSequence(cfg.Platform(), start, m.history.script).value;
    StepKeepsParts(cfg, ran, m.cpu, m.ports, m.fetchServer, m.dataServer, m.history.retired, ProgressOf(m), now, control);
    RunOneMore(cfg.Platform(), start, m.history.script, []);
    var r := Pipeline.Step(cfg.cpu, m.cpu, m.ports, now, control);
    if r.Ok? && r.value.retired.Some? {
      RunOneMore(cfg.Platform(), start, m.history.script, m.history.current + r.value.replies);
    }
  }

  // ---- A memory edge ----

  /** The fetch server answers each request with the code at its address. */
  lemma FetchServed(b: Backing, request: Option<Fetch>, next: nat, generation: nat, port: Port, s: Server, image: Image, now: nat)
    requires b.Valid() && FetchOk(b.code, request, next, generation, port, s)
    ensures
      var r := StepPort(b, s, port, image, now, true, Ok(None));
      && (r.Err? ==> r.error == TimeOverflow)
      && (r.Ok? ==> r.value.image == image && FetchOk(b.code, request, next, generation, r.value.port, r.value.server))
  {
    AfterErrors(b.Channel(), now);
    hide Image.Write, Image.Read;
  }

  /** What the data server's answer does for an instruction that is waiting for it. */
  lemma AnswerIsAccess(b: Backing, p: Platform, a: Arch, effect: Effect, id: nat, before: seq<External>, device: Result<Option<Word>>)
    requires b.Valid() && p.device == b.device && effect.memory != NoAccess
    ensures
      var request := DataRequest(id, effect);
      var answer := Serve(b, request, a.image, device);
      var effects := Effects(b.device, request, answer);
      if answer.Retry? then effects == ([], [])
      else ResponseOk(p, a, effect, Response(id, answer.value, answer.fault), before,
                      Progress(answer.image, before + effects.1, [] + effects.0, RefusalOf(b.device, request, device)))
  {
    hide Image.Write, Image.Read, Location;
    var request := DataRequest(id, effect);
    var answer := Serve(b, request, a.image, device);
    var effects := Effects(b.device, request, answer);
    assert [] + effects.0 == effects.0;
    GoodAnswer(b, p, a.image, effect, id, device);
    hide Serve;
    if answer.Answer? && answer.fault.Some? {
      assert before + [] == before;
      BadAnswer(b, p, a.image, effect, id, device);
    }
    hide Access, Effects;
  }

  lemma GoodAnswer(b: Backing, p: Platform, image: Image, effect: Effect, id: nat, device: Result<Option<Word>>)
    requires p.device == b.device && effect.memory != NoAccess
    ensures
      var request := DataRequest(id, effect);
      var answer := Serve(b, request, image, device);
      var effects := Effects(b.device, request, answer);
      && (answer.Retry? ==> effects == ([], []))
      && (answer.Answer? && answer.fault.None? ==>
            Access(p, effect, image, effects.0) == Ok(Accessed(answer.value, answer.image, effects.1)) && RefusalOf(b.device, request, device).None?)
  {
    hide Image.Write, Image.Read, Location;
  }

  lemma BadAnswer(b: Backing, p: Platform, image: Image, effect: Effect, id: nat, device: Result<Option<Word>>)
    requires p.device == b.device && effect.memory != NoAccess
    ensures
      var request := DataRequest(id, effect);
      var answer := Serve(b, request, image, device);
      answer.Answer? && answer.fault.Some? ==>
        && answer.image == image && Effects(b.device, request, answer) == ([], [])
        && RefusalOf(b.device, request, device) == (if p.device(effect.address) then answer.fault else None)
        && (p.device(effect.address) || Access(p, effect, image, []) == Err(answer.fault.value))
  {
    hide Image.Write, Image.Read, Location;
  }

  function Served1(b: Backing, s: Server, r: Served, image: Image, device: Result<Option<Word>>): (seq<Word>, seq<External>) {
    if s.pending.Some? && r.server.pending.None?
    then Effects(b.device, s.pending.value.request, Serve(b, s.pending.value.request, image, device))
    else ([], [])
  }

  function RefusalAfter(b: Backing, s: Server, r: Served, before: Option<ErrorCode>, device: Result<Option<Word>>): Option<ErrorCode> {
    if s.pending.Some? && r.server.pending.None? then RefusalOf(b.device, s.pending.value.request, device) else before
  }

  lemma IdleUnserved(b: Backing, port: Port, s: Server, image: Image, now: nat, device: Result<Option<Word>>)
    requires b.Valid() && Idle(port, s)
    ensures StepPort(b, s, port, image, now, false, device) == Ok(Served(s, port, image))
  {
    hide Serve;
  }

  lemma DataServed(b: Backing, p: Platform, a: Arch, f: Frame, next: nat, port: Port, s: Server, before: seq<External>,
                   progress: Progress, now: nat, device: Result<Option<Word>>)
    requires b.Valid() && p.device == b.device && f.effect.Some? && f.effect.value.memory != NoAccess
    requires 0 < f.memoryRequest < next && s.lastId < next && DataOk(p, a, f, port, s, before, progress)
    ensures
      var r := StepPort(b, s, port, progress.image, now, false, device);
      && (r.Err? ==> r.error == TimeOverflow)
      && (r.Ok? ==>
            var effects := Served1(b, s, r.value, progress.image, device);
            && r.value.server.lastId < next
            && DataOk(p, a, f, r.value.port, r.value.server, before,
                      Progress(r.value.image, progress.externals + effects.1, progress.current + effects.0, RefusalAfter(b, s, r.value, progress.refusal, device))))
  {
    hide Serve, Effects, ResponseOk;
    AfterErrors(b.Channel(), now);
    AnswerIsAccess(b, p, a, f.effect.value, f.memoryRequest, before, device);
    assert progress.externals + [] == progress.externals && progress.current + [] == progress.current;
  }

  /** The data server's edge keeps the execute stage's part, whatever the devices answer. */
  lemma ExecuteServed(b: Backing, p: Platform, a: Arch, execute: Option<Frame>, next: nat, port: Port, s: Server, before: seq<External>,
                      progress: Progress, now: nat, device: Result<Option<Word>>)
    requires b.Valid() && p.device == b.device && a.Valid() && ExecuteOk(p, a, execute, next, port, s, before, progress)
    ensures
      var r := StepPort(b, s, port, progress.image, now, false, device);
      && (r.Err? ==> r.error == TimeOverflow)
      && (r.Ok? ==>
            var effects := Served1(b, s, r.value, progress.image, device);
            ExecuteOk(p, a, execute, next, r.value.port, r.value.server, before,
                      Progress(r.value.image, progress.externals + effects.1, progress.current + effects.0, RefusalAfter(b, s, r.value, progress.refusal, device))))
  {
    assert progress.externals + [] == progress.externals && progress.current + [] == progress.current;
    hide StepPort, DataOk, PlannedFrame, Serve, Effects, ControlsOf, Faults, Idle, Exits;
    if Idle(port, s) {
      IdleUnserved(b, port, s, progress.image, now, device);
      IdleServer(port, s);
    } else {
      DataServed(b, p, a, execute.value, next, port, s, before, progress, now, device);
    }
  }

  lemma IdleServer(port: Port, s: Server)
    requires Idle(port, s)
    ensures s.pending.None?
  {
  }

  lemma MemoryEdgeKeepsMachine(cfg: MachineConfig, start: Arch, m: Machine, now: nat, device: Result<Option<Word>>)
    requires cfg.Valid() && start.Valid() && m.cpu.Valid() && MachineOk(cfg, start, m) && cfg.cpu.clock.Edge(now)
    ensures
      var r := MemoryEdge(cfg, m, now, device);
      && (r.Err? ==> r.error == TimeOverflow)
      && (r.Ok? ==> MachineOk(cfg, start, r.value))
  {
    hide StepPort, ExecuteOk, FetchOk, StagesOk, RunSequence, Effects, Serve;
    var ran := RunSequence(cfg.Platform(), start, m.history.script).value;
    FetchServed(cfg.Backing(), m.cpu.fetchRequest, m.cpu.nextFetch, m.cpu.generation, m.ports.fetch, m.fetchServer, m.image, now);
    ExecuteServed(cfg.Backing(), cfg.Platform(), ran.arch, m.cpu.execute, m.cpu.nextData, m.ports.data, m.dataServer, ran.externals,
                  ProgressOf(m), now, device);
  }

  // ---- Whole runs ----

  predicate OnEdge(cfg: MachineConfig, op: Op)
    requires cfg.Valid()
  {
    cfg.cpu.clock.Edge(op.now)
  }

  ghost predicate AllOnEdges(cfg: MachineConfig, ops: seq<Op>)
    requires cfg.Valid()
  {
    forall i | 0 <= i < |ops| :: OnEdge(cfg, ops[i])
  }

  lemma {:induction false} RunsKeepMachine(cfg: MachineConfig, start: Arch, m: Machine, ops: seq<Op>)
    requires cfg.Valid() && start.Valid() && m.cpu.Valid() && MachineOk(cfg, start, m) && AllOnEdges(cfg, ops)
    requires RunAll(cfg, m, ops).Ok?
    ensures MachineOk(cfg, start, RunAll(cfg, m, ops).value)
    decreases |ops|
  {
    hide MachineOk, CpuEdge, MemoryEdge;
    if ops != [] {
      assert OnEdge(cfg, ops[0]);
      match ops[0] {
        case Cpu(now, control) => CpuEdgeKeepsMachine(cfg, start, m, now, control);
        case Memory(now, device) => MemoryEdgeKeepsMachine(cfg, start, m, now, device);
      }
      RunsKeepMachine(cfg, start, Step(cfg, m, ops[0]).value, ops[1..]);
    }
  }

  lemma EffectsSoFar(p: Platform, a: Arch, execute: Option<Frame>, next: nat, port: Port, s: Server, before: seq<External>, now: Progress)
    requires a.Valid() && ExecuteOk(p, a, execute, next, port, s, before, now)
    ensures before <= now.externals
    ensures execute.None? ==> now == Progress(a.image, before, [], None)
  {
    hide PlannedFrame, Faults, Exits, Access, ControlsOf;
  }

  /**
   * In every run, whatever the order of processor and memory edges, memory latencies, control stalls and
   * device retries, the retired instructions (program counter, word, value, next program counter) are
   * exactly the sequential specification's, given the same replies, and so are the registers and the program
   * counter. The external effects so far begin with the specification's, in order and each once; whenever no
   * instruction is in the execute stage they are all there is, and the memory is the specification's.
   */
  lemma PipelineRetiresSequentially(cfg: MachineConfig, entry: Word, image: Image, ops: seq<Op>)
    requires cfg.Valid() && AllOnEdges(cfg, ops) && RunAll(cfg, Begin(entry, image), ops).Ok?
    ensures
      var m := RunAll(cfg, Begin(entry, image), ops).value;
      var ran := RunSequence(cfg.Platform(), StartArch(entry, image), m.history.script);
      && ran.Ok? && m.history.retired == ran.value.retired
      && m.cpu.registers == ran.value.arch.registers && m.cpu.pc == ran.value.arch.pc && m.cpu.halted == ran.value.arch.halted
      && ran.value.externals <= m.history.externals
      && (m.cpu.execute.None? ==> m.history.externals == ran.value.externals && m.image == ran.value.arch.image)
  {
    hide RunAll, Begin, StartArch, FetchOk, StagesOk, ExecuteOk, RunSequence;
    BeginIsOk(cfg, entry, image);
    RunsKeepMachine(cfg, StartArch(entry, image), Begin(entry, image), ops);
    var m := RunAll(cfg, Begin(entry, image), ops).value;
    var ran := RunSequence(cfg.Platform(), StartArch(entry, image), m.history.script).value;
    EffectsSoFar(cfg.Platform(), ran.arch, m.cpu.execute, m.cpu.nextData, m.ports.data, m.dataServer, ran.externals, ProgressOf(m));
  }

  /**
   * A processor edge faults only if the specification's next instruction faults whatever it is replied, its access of the
   * RAM does, the device that it accesses has answered it with that error, the control refuses an operation that it issues
   * at this edge, or a tick is out of range. No flushed, stale or speculative fetch ever faults. A memory edge fails only
   * out of the tick range.
   */
  lemma OnlyTheNextInstructionFaults(cfg: MachineConfig, entry: Word, image: Image, ops: seq<Op>, op: Op)
    requires cfg.Valid() && AllOnEdges(cfg, ops) && OnEdge(cfg, op) && RunAll(cfg, Begin(entry, image), ops).Ok?
    ensures
      var m := RunAll(cfg, Begin(entry, image), ops).value;
      var ran := RunSequence(cfg.Platform(), StartArch(entry, image), m.history.script);
      var next := Step(cfg, m, op);
      && ran.Ok?
      && (next.Err? ==>
            if op.Memory? then next.error == TimeOverflow
            else FaultOk(cfg.Platform(), ran.value.arch, next.error, op.control, m.history.current, m.history.refusal))
  {
    hide RunAll, Begin, StartArch, MachineOk, RunSequence, CpuEdge, MemoryEdge, FaultOk;
    BeginIsOk(cfg, entry, image);
    RunsKeepMachine(cfg, StartArch(entry, image), Begin(entry, image), ops);
    var m := RunAll(cfg, Begin(entry, image), ops).value;
    match op {
      case Cpu(now, control) => CpuEdgeKeepsMachine(cfg, StartArch(entry, image), m, now, control);
      case Memory(now, device) =>
        MemoryEdgeKeepsMachine(cfg, StartArch(entry, image), m, now, device);
        MachineHasRun(cfg, StartArch(entry, image), m);
    }
  }

  /**
   * The guards of the protocol between processor and memory cannot fire in any run: a fetch response is the one expected,
   * and the latch that it fills is empty; a data response is the one that the execute stage waits for; and the execute
   * stage holds a decoded instruction unless it holds a fault.
   */
  lemma ResponsesAreExpected(cfg: MachineConfig, entry: Word, image: Image, ops: seq<Op>, now: nat)
    requires cfg.Valid() && AllOnEdges(cfg, ops) && RunAll(cfg, Begin(entry, image), ops).Ok?
    ensures
      var m := RunAll(cfg, Begin(entry, image), ops).value;
      && ReceiveFetch(m.cpu, Head(m.ports.fetch.responses, now)).Ok?
      && (m.cpu.execute.Some? && m.cpu.execute.value.fault.None? ==> m.cpu.execute.value.decoded.Some?)
      && (Head(m.ports.data.responses, now).Some? ==>
            m.cpu.execute.Some? && 0 < m.cpu.execute.value.memoryRequest == Head(m.ports.data.responses, now).value.id)
  {
    hide RunAll, Begin, StartArch, MachineOk, RunSequence, ReceiveFetch, Head;
    BeginIsOk(cfg, entry, image);
    RunsKeepMachine(cfg, StartArch(entry, image), Begin(entry, image), ops);
    var m := RunAll(cfg, Begin(entry, image), ops).value;
    MachineParts(cfg, StartArch(entry, image), m);
    var ran := RunSequence(cfg.Platform(), StartArch(entry, image), m.history.script).value;
    ReceiveKeepsParts(cfg, ran, m.cpu, m.ports, m.fetchServer, m.dataServer, m.history.retired, ProgressOf(m), now);
    hide PartsOk;
    DataIsExpected(cfg.Platform(), ran.arch, m.cpu.execute, m.cpu.nextData, m.ports.data, m.dataServer, ran.externals, ProgressOf(m), now);
  }

  lemma MachineParts(cfg: MachineConfig, start: Arch, m: Machine)
    requires start.Valid() && MachineOk(cfg, start, m)
    ensures
      var ran := RunSequence(cfg.Platform(), start, m.history.script);
      && ran.Ok? && PartsOk(cfg, ran.value, m.cpu, m.ports, m.fetchServer, m.dataServer, m.history.retired, ProgressOf(m))
      && ExecuteOk(cfg.Platform(), ran.value.arch, m.cpu.execute, m.cpu.nextData, m.ports.data, m.dataServer, ran.value.externals, ProgressOf(m))
  {
    hide RunSequence, ExecuteOk, FetchOk, StagesOk;
  }

  lemma DataIsExpected(p: Platform, a: Arch, execute: Option<Frame>, next: nat, port: Port, s: Server, before: seq<External>, now: Progress, t: nat)
    requires a.Valid() && ExecuteOk(p, a, execute, next, port, s, before, now)
    ensures execute.Some? && execute.value.fault.None? ==> execute.value.decoded.Some?
    ensures Head(port.responses, t).Some? ==> execute.Some? && 0 < execute.value.memoryRequest == Head(port.responses, t).value.id
  {
    hide PlanOf, Evaluate, Faults, Exits, Access, ControlsOf;
  }

  lemma MachineHasRun(cfg: MachineConfig, start: Arch, m: Machine)
    requires start.Valid() && MachineOk(cfg, start, m)
    ensures RunSequence(cfg.Platform(), start, m.history.script).Ok?
  {
    hide PartsOk, RunSequence;
  }
}
