/** The control electronics: accepted launches become boundaries, and each boundary's physical work. */
module Electronics {
  import opened Errors
  import opened Time
  import opened Protocol
  import opened Resources
  import opened Backend

  datatype GateInput = GateInput(core: nat, port: nat, codeword: nat)
  datatype Gate = Gate(targets: seq<nat>, resources: seq<ResourceUse>, duration: nat, inputs: seq<GateInput>)

  /** Two-qubit gates are numbered in the order of their names. */
  datatype Profile = Profile(gates: seq<Gate>, backend: Backend, limit: nat)

  datatype Launch = Launch(labelId: nat, fireTick: nat, events: seq<(Event, nat)>)

  datatype Readout = Readout(reference: Reference, end: nat, arm: nat, ready: nat, sample: Option<bool>, core: nat)

  datatype Boundary = Boundary(starts: seq<Scheduled>, ends: seq<nat>, ready: seq<nat>)

  const NO_BOUNDARY := Boundary([], [], [])

  datatype State = State(
    table: seq<Scheduled>, boundaries: map<nat, Boundary>, active: seq<Scheduled>, readouts: map<nat, Readout>,
    lastTick: nat, processed: Option<nat>, execution: Execution)

  // ---- Resolving a launch ----

  function GateAction(p: Profile, gate: nat): Result<Action> {
    if |p.gates| <= gate then Err(InvalidProfile)
    else
      var g := p.gates[gate];
      Ok(Action(IdealGate, 0, 0, g.duration, g.targets, g.resources, Always, 0, false, 0))
  }

  function Validate(p: Profile, a: Action): Result<()> {
    if a.kind != GateOutput then p.backend.validate(a)
    else
      var gate :- GateAction(p, a.gate);
      p.backend.validate(gate)
  }

  /** The action an event performs: a gate output performs its two-qubit gate on its own port and interval. */
  function Resolved(p: Profile, a: Action): Action {
    if a.kind == GateOutput && a.gate < |p.gates| then
      a.(kind := IdealGate, targets := p.gates[a.gate].targets, resources := p.gates[a.gate].resources, flag := Always)
    else a
  }

  function ResolveEvent(p: Profile, l: Launch, e: Event, core: nat): Result<Scheduled> {
    if e.labelId != l.labelId then Err(ErrorCode.Protocol)
    else
      var _ :- Validate(p, e.action);
      var start :- CheckedAdd(l.fireTick, e.action.delay);
      if e.action.kind == GateOutput && e.action.gate < |p.gates|
         && !(GateInput(core, e.sourcePort, e.codeword) in p.gates[e.action.gate].inputs
              && e.action.duration == p.gates[e.action.gate].duration)
      then Err(GateInputMismatch)
      else
        var end :- CheckedAdd(start, e.action.duration);
        Ok(Scheduled(e, core, start, end, Resolved(p, e.action)))
  }

  function Resolve(p: Profile, l: Launch, i: nat): Result<seq<Scheduled>>
    requires i <= |l.events|
    decreases |l.events| - i
  {
    if i == |l.events| then Ok([])
    else
      var first :- ResolveEvent(p, l, l.events[i].0, l.events[i].1);
      var rest :- Resolve(p, l, i + 1);
      Ok([first] + rest)
  }

  // ---- Readouts ----

  predicate ReadoutAction(a: Action) { a.kind == Acquire || IsArm(a) }

  predicate Reads(s: Scheduled, kind: ActionKind, id: nat) {
    s.event.action.kind == kind && s.event.reference.Some? && s.event.reference.value.measurement == id
  }

  function CountOf(actions: seq<Scheduled>, kind: ActionKind, id: nat): nat {
    if actions == [] then 0 else (if Reads(actions[0], kind, id) then 1 else 0) + CountOf(actions[1..], kind, id)
  }

  /** Every readout action names its reference, on its only target; one measurement has one reference. */
  function CheckReadouts(actions: seq<Scheduled>, i: nat): Result<()>
    requires i <= |actions|
    decreases |actions| - i
  {
    if i == |actions| then Ok(())
    else
      var e := actions[i].event;
      if ReadoutAction(e.action) && (e.reference.None? || e.action.targets != [e.reference.value.target]) then Err(InvalidMeasurement)
      else if ReadoutAction(e.action)
              && exists j :: 0 <= j < i && ReadoutAction(actions[j].event.action) && actions[j].event.reference.Some?
                             && actions[j].event.reference.value.measurement == e.reference.value.measurement
                             && actions[j].event.reference != e.reference
      then Err(InvalidMeasurement)
      else CheckReadouts(actions, i + 1)
  }

  /** The start of the last arm with this reference, or the acquisition's own start. */
  function ArmOf(actions: seq<Scheduled>, reference: Reference, default_: nat): nat
    decreases |actions|
  {
    if actions == [] then default_
    else
      var last := actions[|actions| - 1];
      if IsArm(last.event.action) && last.event.reference == Some(reference) then last.start
      else ArmOf(actions[..|actions| - 1], reference, default_)
  }

  function MakeReadout(actions: seq<Scheduled>, a: Scheduled, pending: map<nat, Readout>): Result<Readout>
    requires a.event.reference.Some?
  {
    var ref := a.event.reference.value;
    if !(CountOf(actions, Acquire, ref.measurement) == 1 && ref.measurement !in pending
         && CountOf(actions, DiscriminatorArm, ref.measurement) == if a.event.action.separateArm then 1 else 0)
    then Err(ErrorCode.Protocol)
    else
      var arm := if a.event.action.separateArm then ArmOf(actions, ref, a.start) else a.start;
      var ready :- CheckedAdd(Max(a.end, arm), a.event.action.discriminatorDelay);
      Ok(Readout(ref, a.end, arm, ready, None, a.core))
  }

  function MakeReadouts(actions: seq<Scheduled>, i: nat, pending: map<nat, Readout>): Result<seq<Readout>>
    requires i <= |actions|
    decreases |actions| - i
  {
    if i == |actions| then Ok([])
    else if actions[i].event.action.kind != Acquire then MakeReadouts(actions, i + 1, pending)
    else if actions[i].event.reference.None? then Err(InvalidMeasurement)
    else
      var first :- MakeReadout(actions, actions[i], pending);
      var rest :- MakeReadouts(actions, i + 1, pending);
      Ok([first] + rest)
  }

  predicate Orphaned(actions: seq<Scheduled>) {
    exists i :: 0 <= i < |actions| && IsArm(actions[i].event.action) && actions[i].event.reference.Some?
                && CountOf(actions, Acquire, actions[i].event.reference.value.measurement) != 1
  }

  function PrepareReadouts(actions: seq<Scheduled>, pending: map<nat, Readout>): Result<seq<Readout>> {
    var checked := CheckReadouts(actions, 0);
    if checked.Err? then Err(checked.error)
    else
      var made :- MakeReadouts(actions, 0, pending);
      if Orphaned(actions) then Err(ErrorCode.Protocol) else Ok(made)
  }

  // ---- Accepting a launch ----

  datatype Prepared = Prepared(actions: seq<Scheduled>, readouts: seq<Readout>)

  function Prepare(p: Profile, s: State, l: Launch): Result<Prepared> {
    var resolved := Resolve(p, l, 0);
    if resolved.Err? then Err(resolved.error)
    else
      var _ :- Check(s.table, resolved.value);
      var readouts :- PrepareReadouts(resolved.value, s.readouts);
      if s.processed.Some? && l.fireTick <= s.processed.value then Err(ErrorCode.Protocol)
      else Ok(Prepared(resolved.value, readouts))
  }

  function BoundaryAt(boundaries: map<nat, Boundary>, t: nat): Boundary {
    if t in boundaries then boundaries[t] else NO_BOUNDARY
  }

  function AddReady(boundaries: map<nat, Boundary>, readouts: seq<Readout>): map<nat, Boundary>
    decreases |readouts|
  {
    if readouts == [] then boundaries
    else
      var r := readouts[0];
      var b := BoundaryAt(boundaries, r.ready);
      AddReady(boundaries[r.ready := b.(ready := b.ready + [r.reference.measurement])], readouts[1..])
  }

  function AddAction(boundaries: map<nat, Boundary>, a: Scheduled): map<nat, Boundary> {
    var b := BoundaryAt(boundaries, a.start);
    var started := boundaries[a.start := b.(starts := b.starts + [a])];
    var e := BoundaryAt(started, a.end);
    started[a.end := e.(ends := e.ends + [a.event.id])]
  }

  function AddActions(boundaries: map<nat, Boundary>, actions: seq<Scheduled>): map<nat, Boundary>
    decreases |actions|
  {
    if actions == [] then boundaries else AddActions(AddAction(boundaries, actions[0]), actions[1..])
  }

  function AddReadouts(pending: map<nat, Readout>, readouts: seq<Readout>): Result<map<nat, Readout>>
    decreases |readouts|
  {
    if readouts == [] then Ok(pending)
    else if readouts[0].reference.measurement in pending then Err(ErrorCode.Protocol)
    else AddReadouts(pending[readouts[0].reference.measurement := readouts[0]], readouts[1..])
  }

  function Accept(p: Profile, s: State, l: Launch): Result<State> {
    var prepared := Prepare(p, s, l);
    if prepared.Err? then Err(prepared.error)
    else
      var readouts :- AddReadouts(s.readouts, prepared.value.readouts);
      Ok(s.(table := s.table + prepared.value.actions, readouts := readouts,
            boundaries := AddActions(AddReady(s.boundaries, prepared.value.readouts), prepared.value.actions)))
  }

  // ---- Active actions, in the order of their identifiers ----

  function Find(active: seq<Scheduled>, id: nat): Option<Scheduled> {
    if active == [] then None else if active[0].event.id == id then Some(active[0]) else Find(active[1..], id)
  }

  function Remove(active: seq<Scheduled>, id: nat): seq<Scheduled> {
    if active == [] then [] else (if active[0].event.id == id then [] else [active[0]]) + Remove(active[1..], id)
  }

  function Insert(active: seq<Scheduled>, a: Scheduled): seq<Scheduled> {
    if active == [] || a.event.id < active[0].event.id then [a] + active else [active[0]] + Insert(active[1..], a)
  }

  function ActivitiesOf(active: seq<Scheduled>, kind: ActionKind): seq<Activity> {
    if active == [] then []
    else
      var a := active[0];
      (if a.event.action.kind == kind
       then [Activity(a.event.id, a.start, a.end, a.event.action, if kind == Acquire then a.event.reference else None)] else [])
      + ActivitiesOf(active[1..], kind)
  }

  /** The references of the acquisitions that end, in order. */
  function Samples(active: seq<Scheduled>, ends: seq<nat>): Result<seq<Reference>>
    decreases |ends|
  {
    if ends == [] then Ok([])
    else
      var a := Find(active, ends[0]);
      if a.None? then Err(ErrorCode.Protocol)
      else if a.value.event.action.kind != Acquire then Samples(active, ends[1..])
      else if a.value.event.reference.None? then Err(InvalidMeasurement)
      else
        var rest :- Samples(active, ends[1..]);
        Ok([a.value.event.reference.value] + rest)
  }

  // ---- Starts and gates ----

  predicate Sampled(samples: seq<Reference>, target: nat) {
    exists i :: 0 <= i < |samples| && samples[i].target == target
  }

  function CheckStart(p: Profile, samples: seq<Reference>, a: Scheduled): Result<()> {
    var valid := Validate(p, a.event.action);
    if valid.Err? then valid
    else Require(!(IsGate(a.event.action) && exists q :: q in a.resolved.targets && Sampled(samples, q)), ResourceConflict)
  }

  function CheckStarts(p: Profile, samples: seq<Reference>, starts: seq<Scheduled>): Result<()>
    decreases |starts|
  {
    if starts == [] then Ok(())
    else
      var _ :- CheckStart(p, samples, starts[0]);
      CheckStarts(p, samples, starts[1..])
  }

  function IdealGates(starts: seq<Scheduled>): seq<Action> {
    if starts == [] then []
    else (if starts[0].event.action.kind == IdealGate then [starts[0].event.action] else []) + IdealGates(starts[1..])
  }

  function OutputsOf(starts: seq<Scheduled>, gate: nat): seq<Scheduled> {
    if starts == [] then []
    else
      (if starts[0].event.action.kind == GateOutput && starts[0].event.action.gate == gate then [starts[0]] else [])
      + OutputsOf(starts[1..], gate)
  }

  function InputOf(o: Scheduled): GateInput {
    GateInput(o.core, o.event.sourcePort, o.event.codeword)
  }

  /** The outputs on one input that last as long as the gate. */
  function CountInput(outputs: seq<Scheduled>, input: GateInput, now: nat, duration: nat): Result<nat> {
    if outputs == [] then Ok(0)
    else if InputOf(outputs[0]) != input then CountInput(outputs[1..], input, now, duration)
    else
      var end :- CheckedAdd(now, duration);
      var rest :- CountInput(outputs[1..], input, now, duration);
      Ok((if outputs[0].end == end then 1 else 0) + rest)
  }

  function CheckInputs(outputs: seq<Scheduled>, inputs: seq<GateInput>, now: nat, duration: nat): Result<()>
    decreases |inputs|
  {
    if inputs == [] then Ok(())
    else
      var count :- CountInput(outputs, inputs[0], now, duration);
      if count != 1 then Err(GateInputMismatch) else CheckInputs(outputs, inputs[1..], now, duration)
  }

  /** The two-qubit gates whose outputs start now, each with all its inputs. */
  function PairedGates(p: Profile, now: nat, starts: seq<Scheduled>, gate: nat): Result<seq<Action>>
    decreases |p.gates| - gate
  {
    if |p.gates| <= gate then Ok([])
    else
      var outputs, g := OutputsOf(starts, gate), p.gates[gate];
      if outputs == [] then PairedGates(p, now, starts, gate + 1)
      else if |outputs| != |g.inputs| then Err(GateInputMismatch)
      else
        var _ :- CheckInputs(outputs, g.inputs, now, g.duration);
        var action :- GateAction(p, gate);
        var rest :- PairedGates(p, now, starts, gate + 1);
        Ok([action] + rest)
  }

  // ---- Processing a boundary ----

  function SampleAll(readouts: map<nat, Readout>, samples: seq<Reference>, outcomes: seq<bool>): Result<map<nat, Readout>>
    requires |samples| == |outcomes|
    decreases |samples|
  {
    if samples == [] then Ok(readouts)
    else
      var id := samples[0].measurement;
      if id !in readouts then Err(InvalidMeasurement)
      else SampleAll(readouts[id := readouts[id].(sample := Some(outcomes[0]))], samples[1..], outcomes[1..])
  }

  function RemoveAll(active: seq<Scheduled>, ids: seq<nat>): seq<Scheduled>
    decreases |ids|
  {
    if ids == [] then active else RemoveAll(Remove(active, ids[0]), ids[1..])
  }

  function StartAll(active: seq<Scheduled>, starts: seq<Scheduled>): Result<seq<Scheduled>>
    decreases |starts|
  {
    if starts == [] then Ok(active)
    else if Find(active, starts[0].event.id).Some? then Err(ErrorCode.Protocol)
    else StartAll(Insert(active, starts[0]), starts[1..])
  }

  datatype Delivery = Delivery(readouts: map<nat, Readout>, delivered: seq<Completion>)

  function DeliverAll(readouts: map<nat, Readout>, ready: seq<nat>): Result<Delivery>
    decreases |ready|
  {
    if ready == [] then Ok(Delivery(readouts, []))
    else if ready[0] !in readouts || readouts[ready[0]].sample.None? then Err(ErrorCode.Protocol)
    else
      var r := readouts[ready[0]];
      var rest :- DeliverAll(readouts - {ready[0]}, ready[1..]);
      Ok(Delivery(rest.readouts, [Completion(r.reference, r.sample.value)] + rest.delivered))
  }

  /** Everything a boundary checks before the backend is touched. */
  datatype Work = Work(samples: seq<Reference>, gates: seq<Action>)

  function CheckBoundary(p: Profile, s: State, now: nat): Result<Work> {
    var b := BoundaryAt(s.boundaries, now);
    var samples := Samples(s.active, b.ends);
    if samples.Err? then Err(samples.error)
    else if !DistinctTargets(samples.value) then Err(ResourceConflict)
    else
      var _ :- CheckStarts(p, samples.value, b.starts);
      var paired :- PairedGates(p, now, b.starts, 0);
      Ok(Work(samples.value, IdealGates(b.starts) + paired))
  }

  /** The backend calls of a boundary. */
  function CallsOf(s: State, now: nat, w: Work): seq<Call> {
    (if s.lastTick < now then [Evolves(s.lastTick, now, ActivitiesOf(s.active, Pulse), ActivitiesOf(s.active, Acquire))] else [])
    + [Measures(now, w.samples), Applies(now, w.gates)]
  }

  datatype Executed = Executed(execution: Execution, outcomes: seq<bool>)

  /** The evolution since the last boundary, and the measurement of the samples. */
  function MeasureWork(p: Profile, s: State, now: nat, w: Work): Result<Executed> {
    var evolved := if s.lastTick < now
                   then Evolve(p.backend, p.limit, s.execution, s.lastTick, now, ActivitiesOf(s.active, Pulse), ActivitiesOf(s.active, Acquire))
                   else Ok(Called(s.execution, [], None));
    if evolved.Err? then Err(evolved.error)
    else
      var measured :- Measure(p.backend, evolved.value.state, now, w.samples);
      Ok(Executed(measured.state, measured.outcomes))
  }

  /** What a boundary did: the new state, its work, the outcomes measured and the results delivered. */
  datatype Processed = Processed(state: State, work: Work, outcomes: seq<bool>, delivered: seq<Completion>)

  function Process(p: Profile, s: State, now: nat): Result<Option<Processed>> {
    if now < s.lastTick || (s.processed.Some? && now <= s.processed.value) then Err(ErrorCode.Protocol)
    else if now !in s.boundaries then Ok(None)
    else
      var b := s.boundaries[now];
      var work :- CheckBoundary(p, s, now);
      var measured :- MeasureWork(p, s, now, work);
      if |work.samples| != |measured.outcomes| then Err(BackendFailure)
      else
        var sampled :- SampleAll(s.readouts, work.samples, measured.outcomes);
        var applied :- ApplyGates(p.backend, p.limit, measured.execution, now, work.gates);
        var active :- StartAll(RemoveAll(s.active, b.ends), b.starts);
        var delivery :- DeliverAll(sampled, b.ready);
        Ok(Some(Processed(
                  State(Kept(s.table, now), s.boundaries - {now}, active, delivery.readouts, now, Some(now), applied.state),
                  work, measured.outcomes, delivery.delivered)))
  }

  predicate Drained(s: State) {
    s.boundaries == map[] && s.active == [] && s.readouts == map[]
  }

  /** Ending a run: the state evolves to now and everything pending is executed. */
  function Finalize(p: Profile, s: State, now: nat): Result<State> {
    if !Drained(s) || now < s.lastTick then Err(ErrorCode.Protocol)
    else
      var evolved :- if s.lastTick < now then Evolve(p.backend, p.limit, s.execution, s.lastTick, now, [], []) else Ok(Called(s.execution, [], None));
      var flushed :- Flush(p.backend, evolved.state, 0);
      Ok(s.(lastTick := now, execution := flushed.state))
  }

  /** The first boundary's tick, if there is one. */
  ghost predicate FirstAt(boundaries: map<nat, Boundary>, first: Option<nat>) {
    match first
    case None => boundaries == map[]
    case Some(t) => t in boundaries && forall k | k in boundaries :: t <= k
  }
}
