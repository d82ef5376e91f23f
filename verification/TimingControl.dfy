/** The timing control: turns control operations into enqueue requests, one at a time. */
module TimingControl {
  import opened Errors
  import opened Time
  import opened Protocol
  import opened Feedback

  datatype Command = Codeword(port: nat, codeword: nat) | Wait(cycles: nat) | FetchMeasurement(qubit: nat) | Halt | Synchronize(target: nat)
  datatype Operation = Operation(instruction: nat, command: Command)

  /** The configuration, and the checks that the device and the synchronization unit make. */
  datatype Context = Context(cfg: TimingConfig, feedback: FeedbackConfig, validateAction: Action -> Result<()>,
                             validateSync: Option<nat -> Result<()>>)

  datatype State = State(
    pending: seq<Event>, sync: seq<nat>, request: Option<TimingEvents>, held: Option<Operation>,
    timePoint: nat, lastTime: nat, lastLabel: nat, nextEvent: nat,
    pendingPoint: bool, enqueued: bool, closed: bool, waitForNext: bool, allowSameTime: bool)

  const INITIAL := State([], [], None, None, 0, 0, 0, 1, false, false, false, false, false)

  /** What an operation publishes. */
  datatype Effect = Nothing | Submit(request: TimingEvents) | End(lastLabel: nat)

  datatype Executed = Executed(state: State, regs: Registers, reply: Option<nat>, effect: Effect)

  // ---- Codewords ----

  /** The targets of the acquisitions, in order. */
  function Acquired(actions: seq<Action>): seq<nat> {
    if actions == [] then []
    else (if actions[0].kind == Acquire && actions[0].targets != [] then [actions[0].targets[0]] else []) + Acquired(actions[1..])
  }

  function CheckAction(ctx: Context, a: Action): Result<()> {
    if ctx.validateAction(a).Err? then ctx.validateAction(a)
    else if !(a.flag == Always || ctx.cfg.fastFeedback) then Err(UnsupportedCapability)
    else Require(a.kind != Acquire || a.targets != [], InvalidOperand)
  }

  function CheckActions(ctx: Context, actions: seq<Action>, i: nat): Result<()>
    decreases |actions| - i
  {
    if |actions| <= i then Ok(())
    else
      var _ :- CheckAction(ctx, actions[i]);
      CheckActions(ctx, actions, i + 1)
  }

  function CountOnPort(actions: seq<Action>, port: nat): nat {
    if actions == [] then 0 else (if actions[0].port == port then 1 else 0) + CountOnPort(actions[1..], port)
  }

  /** Each action must leave room on its port, after the staged events and the actions before it. */
  function CheckPorts(cfg: TimingConfig, pending: seq<Event>, actions: seq<Action>, i: nat): Result<()>
    requires i <= |actions|
    decreases |actions| - i
  {
    if i == |actions| then Ok(())
    else if cfg.ports <= actions[i].port then Err(InvalidPort)
    else
      var count := |OnPort(pending, actions[i].port)| + CountOnPort(actions[..i + 1], actions[i].port);
      if !(count <= cfg.firingWidth && count <= cfg.eventCapacity) then Err(Capacity)
      else CheckPorts(cfg, pending, actions, i + 1)
  }

  function CheckReferences(references: seq<Reference>, i: nat): Result<()>
    requires i <= |references|
    decreases |references| - i
  {
    if i == |references| then Ok(())
    else
      var r := references[i];
      if r.measurement == 0 || (exists j :: 0 <= j < i && (references[j].target == r.target || references[j].measurement == r.measurement))
      then Err(InvalidMeasurement)
      else CheckReferences(references, i + 1)
  }

  predicate Readout(a: Action) { a.kind == Acquire || a.kind == DiscriminatorArm }

  /** The reference of a readout action: the last one reserved for its only target. */
  function ReferenceOf(a: Action, references: seq<Reference>): Option<Reference>
    decreases |references|
  {
    if references == [] then None
    else
      var last := references[|references| - 1];
      if a.targets == [last.target] then Some(last) else ReferenceOf(a, references[..|references| - 1])
  }

  function DecodeAction(cfg: TimingConfig, port: nat, codeword: nat, instruction: nat, id: nat, a: Action,
                        references: seq<Reference>): Result<Event> {
    if Readout(a) && ReferenceOf(a, references).None? then Err(InvalidMeasurement)
    else if !(a.flag == Always || cfg.fastFeedback) then Err(UnsupportedCapability)
    else if MAX_TICK < id then Err(TimeOverflow)
    else Ok(Event(id, instruction, 0, port, codeword, a, if Readout(a) then ReferenceOf(a, references) else None))
  }

  function DecodeActions(cfg: TimingConfig, port: nat, codeword: nat, instruction: nat, first: nat, actions: seq<Action>,
                         references: seq<Reference>): Result<seq<Event>>
    decreases |actions|
  {
    if actions == [] then Ok([])
    else
      var e :- DecodeAction(cfg, port, codeword, instruction, first, actions[0], references);
      var rest :- DecodeActions(cfg, port, codeword, instruction, first + 1, actions[1..], references);
      Ok([e] + rest)
  }

  function Acquisitions(actions: seq<Action>): nat {
    if actions == [] then 0 else (if actions[0].kind == Acquire then 1 else 0) + Acquisitions(actions[1..])
  }

  /** A codeword's events: one for each action of its mapping, with consecutive identifiers. */
  function DecodeCodeword(cfg: TimingConfig, port: nat, codeword: nat, instruction: nat, first: nat,
                          references: seq<Reference>): Result<seq<Event>> {
    var mapping := cfg.Mapping(port, codeword);
    if mapping.Err? then Err(mapping.error)
    else if |references| != Acquisitions(mapping.value) then Err(InvalidMeasurement)
    else
      var _ :- CheckReferences(references, 0);
      DecodeActions(cfg, port, codeword, instruction, first, mapping.value, references)
  }

  /** Decoding keeps the actions, in order, under consecutive identifiers. */
  lemma {:induction false} DecodedActions(cfg: TimingConfig, port: nat, codeword: nat, instruction: nat, first: nat,
                                          actions: seq<Action>, references: seq<Reference>)
    requires DecodeActions(cfg, port, codeword, instruction, first, actions, references).Ok?
    ensures
      var events := DecodeActions(cfg, port, codeword, instruction, first, actions, references).value;
      && |events| == |actions|
      && (forall k | 0 <= k < |events| ::
            events[k].action == actions[k] && events[k].id == first + k && events[k].sourcePort == port && events[k].codeword == codeword)
      && (forall p :: |OnPort(events, p)| == CountOnPort(actions, p))
    decreases |actions|
  {
    if actions != [] {
      DecodedActions(cfg, port, codeword, instruction, first + 1, actions[1..], references);
    }
  }

  lemma {:induction false} CountAppends(xs: seq<Action>, x: Action, port: nat)
    ensures CountOnPort(xs + [x], port) == CountOnPort(xs, port) + if x.port == port then 1 else 0
    decreases |xs|
  {
    if xs == [] {
      assert (xs + [x])[1..] == [];
    } else {
      assert (xs + [x])[0] == xs[0] && (xs + [x])[1..] == xs[1..] + [x];
      CountAppends(xs[1..], x, port);
    }
  }

  datatype Staged = Staged(state: State, regs: Registers)

  function StageCodeword(ctx: Context, s: State, regs: Registers, instruction: nat, port: nat, codeword: nat): Result<Staged> {
    if s.enqueued || s.request.Some? then Err(ErrorCode.Protocol)
    else
      var actions :- ctx.cfg.Mapping(port, codeword);
      var _ :- CheckActions(ctx, actions, 0);
      var targets := Acquired(actions);
      var count :- CheckedAdd(|s.pending|, |actions|);
      var _ :- Require(count <= ctx.cfg.stagingCapacity, Capacity);
      var _ :- CheckPorts(ctx.cfg, s.pending, actions, 0);
      var nextEvent :- CheckedAdd(s.nextEvent, |actions|);
      var references :- PrepareReservation(ctx.feedback, regs, targets);
      var events :- DecodeCodeword(ctx.cfg, port, codeword, instruction, s.nextEvent, references);
      var regs' :- CommitReservation(ctx.feedback, regs, references);
      Ok(Staged(s.(pending := s.pending + events, pendingPoint := true, nextEvent := nextEvent), regs'))
  }

  // ---- Enqueueing ----

  function Labelled(events: seq<Event>, labelId: nat): (labelled: seq<Event>)
    ensures |labelled| == |events|
  {
    seq(|events|, i requires 0 <= i < |events| => events[i].(labelId := labelId))
  }

  function Interval(s: State): nat {
    if s.lastTime <= s.timePoint then s.timePoint - s.lastTime else (s.timePoint - s.lastTime) % (MAX_TICK + 1)
  }

  function SubmittedPolicy(s: State): Policy {
    if s.waitForNext then PauseWhenEmpty else if 0 < Interval(s) then Strict else Inherit
  }

  /** The enqueue request for the staged time point. */
  function MakeRequest(s: State, labelId: nat): TimingEvents {
    TimingEvents(Point(labelId, Interval(s), Ids(s.pending), s.sync, SubmittedPolicy(s)), Labelled(s.pending, labelId))
  }

  datatype Enqueued = Enqueued(state: State, ready: bool, submitted: Option<TimingEvents>)

  /** True when nothing is left to submit; otherwise submits the staged point, or waits for its acknowledgment. */
  function Enqueue(ctx: Context, s: State, full: bool): Result<Enqueued> {
    if s.request.Some? then Ok(Enqueued(s, false, None))
    else if !s.pendingPoint then Ok(Enqueued(s.(enqueued := !s.allowSameTime), true, None))
    else
      var labelId :- CheckedAdd(s.lastLabel, 1);
      var request := MakeRequest(s, labelId);
      var _ :- Validate(request, ctx.cfg);
      var _ :- Require(!full, ErrorCode.Protocol);
      Ok(Enqueued(s.(request := Some(request)), false, Some(request)))
  }

  function EffectOf(e: Enqueued): Effect {
    if e.submitted.Some? then Submit(e.submitted.value) else Nothing
  }

  function ZeroWait(ctx: Context, s: State, regs: Registers, full: bool): Result<Executed> {
    var begun := if s.waitForNext then s else s.(waitForNext := true, pendingPoint := true);
    var e := Enqueue(ctx, begun, full);
    if e.Err? then Err(e.error)
    else if !e.value.ready then Ok(Executed(e.value.state, regs, None, EffectOf(e.value)))
    else Ok(Executed(e.value.state.(waitForNext := false, allowSameTime := true, enqueued := false), regs, Some(0), Nothing))
  }

  function AdvanceTime(ctx: Context, s: State, regs: Registers, cycles: nat, full: bool): Result<Executed> {
    if CheckedAdd(s.timePoint, cycles).Err? then Err(TimeOverflow)
    else
      var e :- Enqueue(ctx, s, full);
      if !e.ready then Ok(Executed(e.state, regs, None, EffectOf(e)))
      else
        Ok(Executed(e.state.(timePoint := s.timePoint + cycles, allowSameTime := false, pendingPoint := true, enqueued := false),
                    regs, Some(0), Nothing))
  }

  function Fetch(ctx: Context, s: State, regs: Registers, qubit: nat, full: bool): Result<Executed> {
    if ctx.cfg.qubits <= qubit then Err(InvalidOperand)
    else
      var e :- Enqueue(ctx, s, full);
      if !e.ready then Ok(Executed(e.state, regs, None, EffectOf(e)))
      else
        var value :- Read(regs, qubit);
        Ok(Executed(e.state, regs, if value.None? then None else Some(if value.value then 1 else 0), Nothing))
  }

  function Finish(ctx: Context, s: State, regs: Registers, full: bool): Result<Executed> {
    var e := Enqueue(ctx, s, full);
    if e.Err? then Err(e.error)
    else if !e.value.ready then Ok(Executed(e.value.state, regs, None, EffectOf(e.value)))
    else Ok(Executed(e.value.state.(closed := true), regs, Some(0), End(e.value.state.lastLabel)))
  }

  function StageSync(ctx: Context, s: State, regs: Registers, target: nat): Result<Executed> {
    if ctx.validateSync.None? then Err(UnsupportedSynchronization)
    else if s.enqueued || s.request.Some? then Err(ErrorCode.Protocol)
    else
      var _ :- ctx.validateSync.value(target);
      if s.sync != [] then Err(InvalidOperand)
      else Ok(Executed(s.(sync := [target], pendingPoint := true), regs, Some(0), Nothing))
  }

  function Perform(ctx: Context, s: State, regs: Registers, op: Operation, full: bool): Result<Executed> {
    match op.command
    case Codeword(port, codeword) =>
      var staged :- StageCodeword(ctx, s, regs, op.instruction, port, codeword);
      Ok(Executed(staged.state, staged.regs, Some(0), Nothing))
    case Wait(cycles) => if cycles == 0 then ZeroWait(ctx, s, regs, full) else AdvanceTime(ctx, s, regs, cycles, full)
    case FetchMeasurement(qubit) => Fetch(ctx, s, regs, qubit, full)
    case Halt => Finish(ctx, s, regs, full)
    case Synchronize(target) => StageSync(ctx, s, regs, target)
  }

  /** One attempt at an operation; a blocked one is held and must be repeated unchanged. */
  function Execute(ctx: Context, s: State, regs: Registers, op: Operation, full: bool): Result<Executed> {
    if s.closed || (s.held.Some? && s.held.value != op) then Err(ErrorCode.Protocol)
    else
      var done :- Perform(ctx, s.(held := Some(op)), regs, op, full);
      Ok(if done.reply.Some? then done.(state := done.state.(held := None)) else done)
  }

  /** The acknowledgment of the request in flight. */
  function ReceiveReply(s: State, labelId: nat): Result<State> {
    if s.request.None? || s.request.value.point.labelId != labelId then Err(ErrorCode.Protocol)
    else
      Ok(s.(lastLabel := labelId, lastTime := s.timePoint, request := None, pending := [], sync := [],
            pendingPoint := false, enqueued := true))
  }
}
