/** The timing control as the object the source runs: staged events, the request in flight, and loops over actions. */
module TimingControlModel {
  import opened Errors
  import opened Time
  import opened Protocol
  import opened Feedback
  import T = TimingControl

  method AcquiredTargets(ctx: T.Context, actions: seq<Action>) returns (targets: Result<seq<nat>>)
    ensures
      var checked := T.CheckActions(ctx, actions, 0);
      targets == if checked.Err? then Err(checked.error) else Ok(T.Acquired(actions))
  {
    var found: seq<nat> := [];
    assert actions[..|actions|] == actions;
    for i := 0 to |actions|
      invariant T.CheckActions(ctx, actions, i) == T.CheckActions(ctx, actions, 0)
      invariant found == T.Acquired(actions[..i])
    {
      var a := actions[i];
      OneMoreTarget(actions, i);
      var _ :- ctx.validateAction(a);
      if !(a.flag == Always || ctx.cfg.fastFeedback) {
        return Err(UnsupportedCapability);
      }
      if a.kind == Acquire {
        if a.targets == [] {
          return Err(InvalidOperand);
        }
        found := found + [a.targets[0]];
      }
    }
    return Ok(found);
  }

  lemma {:induction false} OneMoreTarget(actions: seq<Action>, i: nat)
    requires i < |actions|
    ensures T.Acquired(actions[..i + 1])
         == T.Acquired(actions[..i]) + if actions[i].kind == Acquire && actions[i].targets != [] then [actions[i].targets[0]] else []
    decreases i
  {
    if 0 < i {
      assert actions[..i + 1][1..] == actions[1..][..i] && actions[..i][1..] == actions[1..][..i - 1];
      OneMoreTarget(actions[1..], i - 1);
    } else {
      assert actions[..1][1..] == actions[..0];
    }
  }

  /** Counts each port's staged events, then those of the actions, checking the limits as it goes. */
  method CheckRoom(cfg: TimingConfig, pending: seq<Event>, actions: seq<Action>) returns (outcome: Result<()>)
    requires forall e | e in pending :: e.action.port < cfg.ports
    ensures outcome == T.CheckPorts(cfg, pending, actions, 0)
  {
    var counts: seq<nat> := seq(cfg.ports, _ => 0);
    for i := 0 to |pending|
      invariant |counts| == cfg.ports && forall p: nat | p < cfg.ports :: counts[p] == |OnPort(pending[..i], p)|
    {
      OneMore(pending, i);
      counts := counts[pending[i].action.port := counts[pending[i].action.port] + 1];
    }
    assert pending[..|pending|] == pending;
    hide OnPort;
    for i := 0 to |actions|
      invariant |counts| == cfg.ports
      invariant forall p: nat | p < cfg.ports :: counts[p] == |OnPort(pending, p)| + T.CountOnPort(actions[..i], p)
      invariant T.CheckPorts(cfg, pending, actions, i) == T.CheckPorts(cfg, pending, actions, 0)
    {
      var port := actions[i].port;
      if cfg.ports <= port {
        return Err(InvalidPort);
      }
      OneMoreAction(actions, i);
      counts := counts[port := counts[port] + 1];
      if !(counts[port] <= cfg.firingWidth && counts[port] <= cfg.eventCapacity) {
        return Err(ErrorCode.Capacity);
      }
    }
    return Ok(());
  }

  lemma OneMoreAction(actions: seq<Action>, i: nat)
    requires i < |actions|
    ensures forall p :: T.CountOnPort(actions[..i + 1], p) == T.CountOnPort(actions[..i], p) + if actions[i].port == p then 1 else 0
  {
    assert actions[..i + 1] == actions[..i] + [actions[i]];
    forall p
      ensures T.CountOnPort(actions[..i + 1], p) == T.CountOnPort(actions[..i], p) + if actions[i].port == p then 1 else 0
    {
      T.CountAppends(actions[..i], actions[i], p);
    }
  }

  method CheckReservation(references: seq<Reference>) returns (outcome: Result<()>)
    ensures outcome == T.CheckReferences(references, 0)
  {
    var targets: set<nat>, ids: set<nat> := {}, {};
    for i := 0 to |references|
      invariant targets == set j | 0 <= j < i :: references[j].target
      invariant ids == set j | 0 <= j < i :: references[j].measurement
      invariant T.CheckReferences(references, i) == T.CheckReferences(references, 0)
    {
      var r := references[i];
      if r.measurement == 0 || r.target in targets || r.measurement in ids {
        return Err(InvalidMeasurement);
      }
      targets, ids := targets + {r.target}, ids + {r.measurement};
    }
    return Ok(());
  }

  method FindReference(a: Action, references: seq<Reference>) returns (found: Option<Reference>)
    ensures found == T.ReferenceOf(a, references)
  {
    found := None;
    for i := 0 to |references|
      invariant found == T.ReferenceOf(a, references[..i])
    {
      assert references[..i + 1][..i] == references[..i];
      if |a.targets| == 1 && references[i].target == a.targets[0] {
        found := Some(references[i]);
        assert a.targets == [references[i].target];
      }
    }
    assert references[..|references|] == references;
  }

  method Decode(cfg: TimingConfig, port: nat, codeword: nat, instruction: nat, first: nat, references: seq<Reference>)
    returns (events: Result<seq<Event>>)
    ensures events == T.DecodeCodeword(cfg, port, codeword, instruction, first, references)
  {
    var actions :- cfg.Mapping(port, codeword);
    var acquisitions := 0;
    assert actions[..|actions|] == actions;
    for i := 0 to |actions|
      invariant acquisitions == T.Acquisitions(actions[..i])
    {
      OneMoreAcquisition(actions, i);
      acquisitions := acquisitions + if actions[i].kind == Acquire then 1 else 0;
    }
    if |references| != acquisitions {
      return Err(InvalidMeasurement);
    }
    var _ :- CheckReservation(references);
    hide T.Acquisitions, T.CheckReferences;
    var made: seq<Event> := [];
    assert actions[0..] == actions;
    FollowingNothing(T.DecodeActions(cfg, port, codeword, instruction, first, actions, references));
    for i := 0 to |actions|
      invariant |made| == i
      invariant Following(made, T.DecodeActions(cfg, port, codeword, instruction, first + i, actions[i..], references))
             == T.DecodeActions(cfg, port, codeword, instruction, first, actions, references)
    {
      assert actions[i..][0] == actions[i] && actions[i..][1..] == actions[i + 1..];
      var reference := None;
      if T.Readout(actions[i]) {
        reference := FindReference(actions[i], references);
        if reference.None? {
          return Err(InvalidMeasurement);
        }
      }
      if !(actions[i].flag == Always || cfg.fastFeedback) {
        return Err(UnsupportedCapability);
      }
      var id :- CheckedAdd(first, |made|);
      var e := Event(id, instruction, 0, port, codeword, actions[i], reference);
      FollowingAppends(made, e, T.DecodeActions(cfg, port, codeword, instruction, first + i + 1, actions[i + 1..], references));
      made := made + [e];
    }
    assert made + [] == made;
    return Ok(made);
  }

  function Following(made: seq<Event>, rest: Result<seq<Event>>): Result<seq<Event>> {
    if rest.Err? then rest else Ok(made + rest.value)
  }

  lemma FollowingNothing(rest: Result<seq<Event>>)
    ensures Following([], rest) == rest
  {
    if rest.Ok? {
      var none: seq<Event> := [];
      assert none + rest.value == rest.value;
    }
  }

  lemma FollowingAppends(made: seq<Event>, e: Event, rest: Result<seq<Event>>)
    ensures rest.Ok? ==> Following(made, Ok([e] + rest.value)) == Following(made + [e], rest)
  {
    if rest.Ok? {
      assert made + ([e] + rest.value) == made + [e] + rest.value;
    }
  }

  lemma {:induction false} OneMoreAcquisition(actions: seq<Action>, i: nat)
    requires i < |actions|
    ensures T.Acquisitions(actions[..i + 1]) == T.Acquisitions(actions[..i]) + if actions[i].kind == Acquire then 1 else 0
    decreases i
  {
    if 0 < i {
      assert actions[..i + 1][1..] == actions[1..][..i] && actions[..i][1..] == actions[1..][..i - 1];
      OneMoreAcquisition(actions[1..], i - 1);
    } else {
      assert actions[..1][1..] == actions[..0];
    }
  }

  class TimingControlUnit {
    const ctx: T.Context
    const registers: MeasurementRegisters
    var pending: seq<Event>
    var sync: seq<nat>
    var request: Option<TimingEvents>
    var held: Option<T.Operation>
    var timePoint: nat
    var lastTime: nat
    var lastLabel: nat
    var nextEvent: nat
    var pendingPoint: bool
    var enqueued: bool
    var closed: bool
    var waitForNext: bool
    var allowSameTime: bool

    ghost function View(): T.State
      reads this
    {
      T.State(pending, sync, request, held, timePoint, lastTime, lastLabel, nextEvent, pendingPoint, enqueued, closed,
              waitForNext, allowSameTime)
    }

    ghost predicate Valid()
      reads this, registers
    {
      registers.cfg == ctx.feedback && forall e | e in pending :: e.action.port < ctx.cfg.ports
    }

    constructor (ctx: T.Context, registers: MeasurementRegisters)
      requires registers.cfg == ctx.feedback
      ensures Valid() && this.ctx == ctx && this.registers == registers && View() == T.INITIAL
    {
      this.ctx, this.registers := ctx, registers;
      pending, sync, request, held := [], [], None, None;
      timePoint, lastTime, lastLabel, nextEvent := 0, 0, 0, 1;
      pendingPoint, enqueued, closed, waitForNext, allowSameTime := false, false, false, false, false;
    }

    method Reset()
      requires Valid()
      modifies this
      ensures Valid()
      ensures View() == T.INITIAL
    {
      timePoint, lastTime, lastLabel, nextEvent := 0, 0, 0, 1;
      pendingPoint, enqueued, closed, waitForNext, allowSameTime := false, false, false, false, false;
      sync, request, held := [], None, None;
      pending := [];
    }

    method Acknowledge(labelId: nat) returns (outcome: Result<()>)
      requires Valid()
      modifies this
      ensures Valid()
      ensures
        var r := T.ReceiveReply(old(View()), labelId);
        if r.Ok? then outcome.Ok? && View() == r.value else outcome == Err(r.error) && View() == old(View())
    {
      if request.None? || request.value.point.labelId != labelId {
        return Err(ErrorCode.Protocol);
      }
      lastLabel, lastTime := labelId, timePoint;
      request, pending, sync, pendingPoint, enqueued := None, [], [], false, true;
      return Ok(());
    }

    method StageEvents(instruction: nat, port: nat, codeword: nat) returns (outcome: Result<()>)
      requires Valid()
      modifies this, registers
      ensures Valid()
      ensures
        var r := T.StageCodeword(ctx, old(View()), old(registers.View()), instruction, port, codeword);
        if r.Ok? then outcome.Ok? && View() == r.value.state && registers.View() == r.value.regs
        else outcome == Err(r.error) && View() == old(View()) && registers.View() == old(registers.View())
    {
      hide T.CheckActions, T.Acquired, T.CheckPorts, T.DecodeCodeword, PrepareReservation, CommitReservation;
      if enqueued || request.Some? {
        return Err(ErrorCode.Protocol);
      }
      var actions :- ctx.cfg.Mapping(port, codeword);
      var targets :- AcquiredTargets(ctx, actions);
      var count :- CheckedAdd(|pending|, |actions|);
      if ctx.cfg.stagingCapacity < count {
        return Err(ErrorCode.Capacity);
      }
      var _ :- CheckRoom(ctx.cfg, pending, actions);
      var following :- CheckedAdd(nextEvent, |actions|);
      var references :- registers.Prepare(targets);
      var events :- Decode(ctx.cfg, port, codeword, instruction, nextEvent, references);
      DecodedPorts(ctx.cfg, pending, port, codeword, instruction, nextEvent, references);
      var _ :- registers.Commit(references);
      pending := pending + events;
      pendingPoint := true;
      nextEvent := following;
      return Ok(());
    }

    /** Submits the staged time point, once; true when there is nothing left to submit. */
    method Submission(full: bool) returns (outcome: Result<bool>, submitted: Option<TimingEvents>)
      requires Valid()
      modifies this
      ensures Valid()
      ensures
        var r := T.Enqueue(ctx, old(View()), full);
        if r.Ok? then outcome == Ok(r.value.ready) && View() == r.value.state && submitted == r.value.submitted
        else outcome == Err(r.error) && View() == old(View())
    {
      hide Validate;
      submitted := None;
      if request.Some? {
        return Ok(false), None;
      }
      if !pendingPoint {
        enqueued := !allowSameTime;
        return Ok(true), None;
      }
      if MAX_TICK < lastLabel + 1 {
        return Err(TimeOverflow), None;
      }
      var labelId := lastLabel + 1;
      var interval := if lastTime <= timePoint then timePoint - lastTime else (timePoint - lastTime) % (MAX_TICK + 1);
      var policy := if waitForNext then PauseWhenEmpty else if 0 < interval then Strict else Inherit;
      var events, manifest := pending, [];
      for i := 0 to |pending|
        modifies {}
        invariant |events| == |pending| && |manifest| == i
        invariant forall k | 0 <= k < i :: events[k] == pending[k].(labelId := labelId) && manifest[k] == pending[k].id
        invariant forall k | i <= k < |pending| :: events[k] == pending[k]
      {
        events := events[i := events[i].(labelId := labelId)];
        manifest := manifest + [events[i].id];
      }
      var made := TimingEvents(Point(labelId, interval, manifest, sync, policy), events);
      assert made == T.MakeRequest(old(View()), labelId) by {
        assert events == T.Labelled(pending, labelId) && manifest == Ids(pending);
      }
      var valid := ValidateTimingEvents(made, ctx.cfg);
      if valid.Err? {
        return Err(valid.error), None;
      }
      if full {
        return Err(ErrorCode.Protocol), None;
      }
      request := Some(made);
      return Ok(false), Some(made);
    }

    method ZeroWait(full: bool) returns (outcome: Result<Option<nat>>, effect: T.Effect)
      requires Valid()
      modifies this
      ensures Valid()
      ensures
        var r := T.ZeroWait(ctx, old(View()), old(registers.View()), full);
        if r.Ok? then outcome == Ok(r.value.reply) && effect == r.value.effect
                      && View() == r.value.state && registers.View() == r.value.regs
        else outcome == Err(r.error)
    {
      hide T.Enqueue;
      if !waitForNext {
        waitForNext, pendingPoint := true, true;
      }
      var ready, submitted := Submission(full);
      if ready.Err? {
        return Err(ready.error), T.Nothing;
      }
      if !ready.value {
        return Ok(None), if submitted.Some? then T.Submit(submitted.value) else T.Nothing;
      }
      waitForNext, allowSameTime, enqueued := false, true, false;
      return Ok(Some(0)), T.Nothing;
    }

    method AdvanceTime(cycles: nat, full: bool) returns (outcome: Result<Option<nat>>, effect: T.Effect)
      requires Valid()
      modifies this
      ensures Valid()
      ensures
        var r := T.AdvanceTime(ctx, old(View()), old(registers.View()), cycles, full);
        if r.Ok? then outcome == Ok(r.value.reply) && effect == r.value.effect
                      && View() == r.value.state && registers.View() == r.value.regs
        else outcome == Err(r.error)
    {
      if MAX_TICK < timePoint + cycles {
        return Err(TimeOverflow), T.Nothing;
      }
      var destination := timePoint + cycles;
      var ready, submitted := Submission(full);
      if ready.Err? {
        return Err(ready.error), T.Nothing;
      }
      if !ready.value {
        return Ok(None), if submitted.Some? then T.Submit(submitted.value) else T.Nothing;
      }
      timePoint := destination;
      allowSameTime, pendingPoint, enqueued := false, true, false;
      return Ok(Some(0)), T.Nothing;
    }

    method Fetch(qubit: nat, full: bool) returns (outcome: Result<Option<nat>>, effect: T.Effect)
      requires Valid()
      modifies this
      ensures Valid()
      ensures
        var r := T.Fetch(ctx, old(View()), old(registers.View()), qubit, full);
        if r.Ok? then outcome == Ok(r.value.reply) && effect == r.value.effect
                      && View() == r.value.state && registers.View() == r.value.regs
        else outcome == Err(r.error)
    {
      hide T.Enqueue, Read;
      if ctx.cfg.qubits <= qubit {
        return Err(InvalidOperand), T.Nothing;
      }
      var ready, submitted := Submission(full);
      if ready.Err? {
        return Err(ready.error), T.Nothing;
      }
      if !ready.value {
        return Ok(None), if submitted.Some? then T.Submit(submitted.value) else T.Nothing;
      }
      var value := Read(Registers(registers.registers, registers.pending, registers.fastPending, registers.next), qubit);
      if value.Err? {
        return Err(value.error), T.Nothing;
      }
      return Ok(if value.value.None? then None else Some(if value.value.value then 1 else 0)), T.Nothing;
    }

    method Finish(full: bool) returns (outcome: Result<Option<nat>>, effect: T.Effect)
      requires Valid()
      modifies this
      ensures Valid()
      ensures
        var r := T.Finish(ctx, old(View()), old(registers.View()), full);
        if r.Ok? then outcome == Ok(r.value.reply) && effect == r.value.effect
                      && View() == r.value.state && registers.View() == r.value.regs
        else outcome == Err(r.error)
    {
      hide T.Enqueue;
      var ready, submitted := Submission(full);
      if ready.Err? {
        return Err(ready.error), T.Nothing;
      }
      if !ready.value {
        return Ok(None), if submitted.Some? then T.Submit(submitted.value) else T.Nothing;
      }
      closed := true;
      return Ok(Some(0)), T.End(lastLabel);
    }

    method StageSync(target: nat) returns (outcome: Result<Option<nat>>, effect: T.Effect)
      requires Valid()
      modifies this
      ensures Valid()
      ensures
        var r := T.StageSync(ctx, old(View()), old(registers.View()), target);
        if r.Ok? then outcome == Ok(r.value.reply) && effect == r.value.effect
                      && View() == r.value.state && registers.View() == r.value.regs
        else outcome == Err(r.error)
    {
      if ctx.validateSync.None? {
        return Err(UnsupportedSynchronization), T.Nothing;
      }
      if enqueued || request.Some? {
        return Err(ErrorCode.Protocol), T.Nothing;
      }
      var valid := ctx.validateSync.value(target);
      if valid.Err? {
        return Err(valid.error), T.Nothing;
      }
      if sync != [] {
        return Err(InvalidOperand), T.Nothing;
      }
      sync := [target];
      pendingPoint := true;
      return Ok(Some(0)), T.Nothing;
    }

    method Perform(op: T.Operation, full: bool) returns (outcome: Result<Option<nat>>, effect: T.Effect)
      requires Valid()
      modifies this, registers
      ensures Valid()
      ensures
        var r := T.Perform(ctx, old(View()), old(registers.View()), op, full);
        if r.Ok? then outcome == Ok(r.value.reply) && effect == r.value.effect
                      && View() == r.value.state && registers.View() == r.value.regs
        else outcome == Err(r.error)
    {
      hide T.StageCodeword, T.ZeroWait, T.AdvanceTime, T.Fetch, T.Finish, T.StageSync;
      match op.command {
        case Codeword(port, codeword) =>
          var staged := StageEvents(op.instruction, port, codeword);
          outcome, effect := if staged.Err? then Err(staged.error) else Ok(Some(0)), T.Nothing;
        case Wait(cycles) =>
          if cycles == 0 {
            outcome, effect := ZeroWait(full);
          } else {
            outcome, effect := AdvanceTime(cycles, full);
          }
        case FetchMeasurement(qubit) =>
          outcome, effect := Fetch(qubit, full);
        case Halt =>
          outcome, effect := Finish(full);
        case Synchronize(target) =>
          outcome, effect := StageSync(target);
      }
    }

    /** One attempt at an operation; a blocked one is held and must be repeated unchanged. */
    method Execute(op: T.Operation, full: bool) returns (outcome: Result<Option<nat>>, effect: T.Effect)
      requires Valid()
      modifies this, registers
      ensures Valid()
      ensures
        var r := T.Execute(ctx, old(View()), old(registers.View()), op, full);
        if r.Ok? then outcome == Ok(r.value.reply) && effect == r.value.effect
                      && View() == r.value.state && registers.View() == r.value.regs
        else outcome == Err(r.error)
    {
      hide T.Perform;
      if closed || (held.Some? && held.value != op) {
        return Err(ErrorCode.Protocol), T.Nothing;
      }
      held := Some(op);
      outcome, effect := Perform(op, full);
      if outcome.Ok? && outcome.value.Some? {
        held := None;
      }
    }
  }

  lemma DecodedPorts(cfg: TimingConfig, pending: seq<Event>, port: nat, codeword: nat, instruction: nat, first: nat,
                     references: seq<Reference>)
    requires T.DecodeCodeword(cfg, port, codeword, instruction, first, references).Ok?
    requires T.CheckPorts(cfg, pending, cfg.Mapping(port, codeword).value, 0).Ok?
    ensures forall e | e in T.DecodeCodeword(cfg, port, codeword, instruction, first, references).value :: e.action.port < cfg.ports
  {
    var actions := cfg.Mapping(port, codeword).value;
    CheckedPorts(cfg, pending, actions, 0);
    T.DecodedActions(cfg, port, codeword, instruction, first, actions, references);
    hide T.CheckPorts, T.DecodeActions, T.CheckReferences;
  }

  lemma {:induction false} CheckedPorts(cfg: TimingConfig, pending: seq<Event>, actions: seq<Action>, i: nat)
    requires i <= |actions| && T.CheckPorts(cfg, pending, actions, i).Ok?
    ensures forall k | i <= k < |actions| :: actions[k].port < cfg.ports
    decreases |actions| - i
  {
    hide OnPort, T.CountOnPort;
    if i < |actions| {
      CheckedPorts(cfg, pending, actions, i + 1);
    }
  }
}
