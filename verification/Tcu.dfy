/** The timing control unit: one clock edge of its timing queue, port queues, deadlines and pauses. */
module Tcu {
  import opened Errors
  import opened Time
  import opened Protocol

  datatype TcuConfig = TcuConfig(timing: TimingConfig, clock: Clock, start: nat, timingCapacity: nat, syncCapacity: nat) {
    predicate Valid() {
      && clock.Valid() && clock.Edge(start)
      && 0 < timingCapacity && 0 < syncCapacity && 0 < timing.eventCapacity
    }
  }

  datatype QueuedPoint = QueuedPoint(point: Point, due: nat)

  datatype State = State(
    timing: seq<QueuedPoint>, events: seq<seq<Event>>, flags: seq<FlagRegister>, lastDue: nat, lastLabel: nat,
    closed: bool, admittedPolicy: Policy, triggeredPolicy: Policy, pausedTicks: nat, syncSize: nat)

  datatype PauseState = PauseState(supply: bool, synchronization: bool) {
    predicate Paused() { supply || synchronization }
  }

  datatype TimingState = TimingState(running: bool, cycle: nat, pause: PauseState)

  datatype Triggered = Triggered(labelId: nat, fireTick: nat, events: seq<Event>)
  datatype Selection = Selection(launched: seq<Event>, cancelled: seq<Event>)
  datatype Trigger = Trigger(batch: Triggered, cancelled: seq<Event>, synchronizations: seq<nat>)
  datatype Output = Output(admitted: bool, launch: Option<Triggered>, cancelled: seq<Event>,
                           fastDelivered: seq<Reference>, synchronizations: seq<nat>)

  /** Everything one edge receives: the request at the head of its mailbox, results, and the device's checks. */
  datatype Input = Input(candidate: Option<TimingEvents>, results: seq<Completion>, synchronizationPaused: bool,
                         preflight: Triggered -> Result<()>, syncPreflight: Option<seq<nat> -> Result<()>>)

  const TWO_64: nat := MAX_TICK + 1

  function PolicyAfter(point: Point, previous: Policy): Policy {
    if point.policy == Inherit then previous else point.policy
  }

  function CurrentTimingState(cfg: TcuConfig, s: State, now: nat, synchronizationPaused: bool): TimingState
    requires cfg.Valid()
  {
    var running := cfg.start <= now;
    TimingState(
      running,
      if running then ((now - cfg.start - s.pausedTicks) % TWO_64) / cfg.clock.period else 0,
      PauseState(running && s.triggeredPolicy == PauseWhenEmpty && s.timing == [] && !s.closed,
                 running && synchronizationPaused))
  }

  function MeetsDeadline(s: State, now: nat, dueTick: nat, pause: PauseState): bool {
    now < dueTick || (s.admittedPolicy == PauseWhenEmpty && pause.supply && now == dueTick)
  }

  // ---- Triggering ----

  /** One port's events of a label, added to those already gathered. */
  function GatherPort(queue: seq<Event>, labelId: nat, acc: map<nat, Event>): Result<map<nat, Event>>
    decreases |queue|
  {
    if queue == [] || queue[0].labelId != labelId then Ok(acc)
    else if queue[0].id in acc then Err(ManifestMismatch)
    else GatherPort(queue[1..], labelId, acc[queue[0].id := queue[0]])
  }

  function Gather(queues: seq<seq<Event>>, labelId: nat, acc: map<nat, Event>): Result<map<nat, Event>>
    decreases |queues|
  {
    if queues == [] then Ok(acc)
    else if queues[0] != [] && queues[0][0].labelId < labelId then Err(ManifestMismatch)
    else
      var more :- GatherPort(queues[0], labelId, acc);
      Gather(queues[1..], labelId, more)
  }

  function Permitted(e: Event, flags: seq<FlagRegister>): Result<bool> {
    if e.action.flag == Always then Ok(true)
    else if e.action.targets == [] then Err(InvalidOperand)
    else Evaluate(flags, e.action.targets[0], e.action.flag)
  }

  /** The manifest's events, in order, split into those their flags permit and those they cancel. */
  function Select(manifest: seq<nat>, gathered: map<nat, Event>, flags: seq<FlagRegister>, acc: Selection): Result<Selection>
    decreases |manifest|
  {
    if manifest == [] then Ok(acc)
    else if manifest[0] !in gathered then Err(ManifestMismatch)
    else
      var e := gathered[manifest[0]];
      var permitted :- Permitted(e, flags);
      Select(manifest[1..], gathered, flags,
             if permitted then acc.(launched := acc.launched + [e]) else acc.(cancelled := acc.cancelled + [e]))
  }

  function PrepareTrigger(cfg: TcuConfig, s: State, now: nat, state: TimingState, input: Input): Result<Option<Trigger>> {
    if !state.running || state.pause.Paused() || s.timing == [] || state.cycle < s.timing[0].due then Ok(None)
    else
      var head := s.timing[0];
      var _ :- Require(head.due == state.cycle, LateAdmission);
      var gathered :- Gather(s.events, head.point.labelId, map[]);
      var _ :- Require(|gathered| == |head.point.manifest|, ManifestMismatch);
      var chosen :- Select(head.point.manifest, gathered, s.flags, Selection([], []));
      var batch := Triggered(head.point.labelId, now, chosen.launched);
      var _ :- input.preflight(batch);
      var _ :- CheckSynchronizations(head.point.synchronizations, input);
      Ok(Some(Trigger(batch, chosen.cancelled, head.point.synchronizations)))
  }

  function CheckSynchronizations(targets: seq<nat>, input: Input): Result<()> {
    if targets == [] then Ok(())
    else if input.syncPreflight.None? then Err(UnsupportedSynchronization)
    else input.syncPreflight.value(targets)
  }

  function DropLabel(queue: seq<Event>, labelId: nat): seq<Event> {
    if queue != [] && queue[0].labelId == labelId then DropLabel(queue[1..], labelId) else queue
  }

  function CommitTrigger(s: State): State
    requires s.timing != []
  {
    var point := s.timing[0].point;
    s.(triggeredPolicy := PolicyAfter(point, s.triggeredPolicy),
       syncSize := if |point.synchronizations| <= s.syncSize then s.syncSize - |point.synchronizations| else 0,
       events := seq(|s.events|, p requires 0 <= p < |s.events| => DropLabel(s.events[p], point.labelId)),
       timing := s.timing[1..])
  }

  // ---- Admission ----

  function EffectiveInterval(s: State, point: Point): nat {
    if s.lastLabel == 0 then point.interval else Max(1, point.interval)
  }

  function DueTick(cfg: TcuConfig, s: State, due: nat): Result<nat> {
    var base :- CheckedAdd(cfg.start, s.pausedTicks);
    var offset :- CheckedMul(due, cfg.clock.period);
    CheckedAdd(base, offset)
  }

  predicate HasSpace(cfg: TcuConfig, s: State, request: TimingEvents) {
    && |s.timing| < cfg.timingCapacity
    && |request.point.synchronizations| + s.syncSize <= cfg.syncCapacity
    && forall p: nat | p < |s.events| :: |s.events[p]| + |OnPort(request.events, p)| <= cfg.timing.eventCapacity
  }

  /** The due cycle of an admissible request, if there is space for it now. */
  function PrepareAdmission(cfg: TcuConfig, s: State, now: nat, request: TimingEvents, pause: PauseState): Result<Option<nat>> {
    if s.closed then Err(ErrorCode.Protocol)
    else
      var _ :- Validate(request, cfg.timing);
      var expected :- CheckedAdd(s.lastLabel, 1);
      var _ :- Require(request.point.labelId == expected, ErrorCode.Protocol);
      var _ :- Require(s.lastLabel == 0 || 0 < request.point.interval || s.admittedPolicy == PauseWhenEmpty
                       || request.point.policy == PauseWhenEmpty, ErrorCode.Protocol);
      var due :- CheckedAdd(s.lastDue, EffectiveInterval(s, request.point));
      var dueTick :- DueTick(cfg, s, due);
      var _ :- Require(MeetsDeadline(s, now, dueTick, pause), LateAdmission);
      var _ :- Require(|request.point.synchronizations| <= cfg.syncCapacity, Capacity);
      Ok(if HasSpace(cfg, s, request) then Some(due) else None)
  }

  function CommitAdmission(s: State, request: TimingEvents, due: nat): State {
    s.(admittedPolicy := PolicyAfter(request.point, s.admittedPolicy),
       syncSize := s.syncSize + |request.point.synchronizations|,
       timing := s.timing + [QueuedPoint(request.point, due)],
       events := seq(|s.events|, p requires 0 <= p < |s.events| => s.events[p] + OnPort(request.events, p)),
       lastLabel := request.point.labelId,
       lastDue := due)
  }

  // ---- One edge ----

  datatype Stepped = Stepped(state: State, output: Output)

  function References(results: seq<Completion>): seq<Reference> {
    seq(|results|, i requires 0 <= i < |results| => results[i].reference)
  }

  /** All checks read the state at the start of the edge; nothing changes unless all of them pass. */
  function Step(cfg: TcuConfig, s: State, now: nat, input: Input): Result<Stepped>
    requires cfg.Valid()
  {
    if !cfg.clock.Edge(now) then Err(ErrorCode.Protocol)
    else
      var state := CurrentTimingState(cfg, s, now, input.synchronizationPaused);
      var trigger :- PrepareTrigger(cfg, s, now, state, input);
      var due :- if input.candidate.Some? then PrepareAdmission(cfg, s, now, input.candidate.value, state.pause) else Ok(None);
      var flags :- CommitAll(s.flags, input.results);
      var paused :- if state.pause.Paused() then CheckedAdd(s.pausedTicks, cfg.clock.period) else Ok(s.pausedTicks);
      var s1 := if trigger.Some? && s.timing != [] then CommitTrigger(s) else s;
      var s2 := if due.Some? && input.candidate.Some? then CommitAdmission(s1, input.candidate.value, due.value) else s1;
      Ok(Stepped(
           s2.(flags := flags, pausedTicks := paused),
           Output(due.Some?,
                  if trigger.Some? then Some(trigger.value.batch) else None,
                  if trigger.Some? then trigger.value.cancelled else [],
                  References(input.results),
                  if trigger.Some? then trigger.value.synchronizations else [])))
  }

  function Close(s: State, lastLabel: nat): Result<State> {
    if s.closed || lastLabel != s.lastLabel then Err(ErrorCode.Protocol) else Ok(s.(closed := true))
  }

  predicate Drained(s: State) {
    s.closed && s.timing == [] && forall queue | queue in s.events :: queue == []
  }

  function Empty(cfg: TcuConfig): State {
    State([], seq(cfg.timing.ports, _ => []), seq(cfg.timing.qubits, _ => CLEAR_FLAGS), 0, 0, false, Strict, Strict, 0, 0)
  }
}
