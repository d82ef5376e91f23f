/** The stop-and-wait link between a core's timing control and its TCU. */
module TimingLink {
  import opened Errors
  import opened Time
  import opened Mailboxes
  import opened Protocol
  import opened Feedback
  import opened Tcu
  import opened TcuRuns
  import Q = TcuQueues
  import T = TimingControl

  datatype CoreConfig = CoreConfig(tcu: TcuConfig, context: T.Context, cpu: Clock, commandLatency: nat, replyLatency: nat) {
    predicate Valid() {
      && tcu.Valid() && cpu.Valid() && 0 < commandLatency && 0 < replyLatency
      && context.cfg == tcu.timing && 0 < tcu.timing.stagingCapacity
    }

    function Requests(): Link { Link(1, tcu.clock, commandLatency) }
    function Replies(): Link { Link(1, cpu, replyLatency) }
    function Closure(): Link { Link(1, tcu.clock, commandLatency) }
  }

  /**
   * A core's timing half. The history records the logical time at which each event was issued (event i + 1 at index i), the
   * synchronization pauses so far, and their number when each point fired.
   */
  datatype Core = Core(
    control: T.State, tcu: Run,
    requests: seq<Envelope<TimingEvents>>, replies: seq<Envelope<nat>>, closure: seq<Envelope<nat>>,
    issuedAt: seq<nat>, syncPauses: nat, pausesAt: seq<nat>)

  function BeginCore(cfg: CoreConfig, origin: nat): Core {
    Core(T.INITIAL, TcuRuns.Begin(cfg.tcu, origin), [], [], [], [], 0, [])
  }

  // ---- One edge of each clock ----

  function AfterReply(c: Core, now: nat): Result<T.State> {
    if Readable(c.replies, now) then T.ReceiveReply(c.control, c.replies[0].value) else Ok(c.control)
  }

  function Rest<X>(entries: seq<Envelope<X>>, taken: bool): seq<Envelope<X>> {
    if taken && entries != [] then entries[1..] else entries
  }

  /** The events made by an operation are issued at its logical time. */
  function Issue(issuedAt: seq<nat>, before: T.State, after: T.State): seq<nat> {
    if before.nextEvent <= after.nextEvent then issuedAt + seq(after.nextEvent - before.nextEvent, _ => before.timePoint)
    else issuedAt
  }

  /** One attempt at an operation, with the registers as they are; a request or a closure is published. */
  function Operate(cfg: CoreConfig, c: Core, now: nat, op: T.Operation, regs: Registers): Result<Core>
    requires cfg.Valid()
  {
    var done :- T.Execute(cfg.context, c.control, regs, op, |c.requests| == 1);
    var c2 := c.(control := done.state, issuedAt := Issue(c.issuedAt, c.control, done.state));
    match done.effect
    case Nothing => Ok(c2)
    case Submit(request) =>
      var requests :- cfg.Requests().Publish(c.requests, now, request);
      Ok(c2.(requests := requests))
    case End(lastLabel) =>
      var closure :- cfg.Closure().Publish(c.closure, now, lastLabel);
      Ok(c2.(closure := closure))
  }

  /** A CPU edge: an acknowledgment first, then at most one attempt at an operation. */
  function CpuStep(cfg: CoreConfig, c: Core, now: nat, op: Option<T.Operation>, regs: Registers): Result<Core>
    requires cfg.Valid()
  {
    var s :- AfterReply(c, now);
    var c1 := c.(control := s, replies := Rest(c.replies, Readable(c.replies, now)));
    if op.None? then Ok(c1) else Operate(cfg, c1, now, op.value, regs)
  }

  function Candidate(c: Core): Option<TimingEvents> {
    if Readable(c.requests, c.tcu.next) then Some(c.requests[0].value) else None
  }

  /** A TCU edge: the request at the head of its mailbox is offered, an admission is acknowledged, then a closure is taken. */
  function TcuStep(cfg: CoreConfig, c: Core, input: Input): Result<Core>
    requires cfg.Valid()
  {
    if MAX_TICK < c.tcu.next then Err(TimeOverflow)
    else
      var now, candidate := c.tcu.next, Candidate(c);
      var run :- Advance(cfg.tcu, c.tcu, input.(candidate := candidate));
      var admitted := |c.tcu.admitted| < |run.admitted| && candidate.Some?;
      var replies :- if admitted then cfg.Replies().Publish(c.replies, now, candidate.value.point.labelId) else Ok(c.replies);
      var tcu :- if Readable(c.closure, now) then Close(run.tcu, c.closure[0].value) else Ok(run.tcu);
      Ok(c.(tcu := run.(tcu := tcu), requests := Rest(c.requests, admitted), replies := replies,
            closure := Rest(c.closure, Readable(c.closure, now)),
            syncPauses := c.syncPauses + if cfg.tcu.start <= now && input.synchronizationPaused then 1 else 0,
            pausesAt := if |c.tcu.fired| < |run.fired| then c.pausesAt + [c.syncPauses] else c.pausesAt))
  }

  datatype CoreOp = Cpu(now: nat, operation: Option<T.Operation>, regs: Registers) | Tcu(input: Input)

  function CoreStep(cfg: CoreConfig, c: Core, op: CoreOp): Result<Core>
    requires cfg.Valid()
  {
    match op
    case Cpu(now, operation, regs) => CpuStep(cfg, c, now, operation, regs)
    case Tcu(input) => TcuStep(cfg, c, input)
  }

  function RunCore(cfg: CoreConfig, c: Core, ops: seq<CoreOp>): Result<Core>
    requires cfg.Valid()
    decreases |ops|
  {
    if ops == [] then Ok(c)
    else
      var next :- CoreStep(cfg, c, ops[0]);
      RunCore(cfg, next, ops[1..])
  }

  /** Synchronization targets are 17-bit fields. */
  predicate Encodable(op: CoreOp) {
    op.Cpu? && op.operation.Some? && op.operation.value.command.Synchronize? ==> op.operation.value.command.target <= MAX_SYNC_TARGET
  }

  // ---- What is staged ----

  ghost predicate StagedEvent(cfg: TimingConfig, e: Event, next: nat) {
    && e.id != 0 && e.id < next && e.action.port < cfg.ports
    && cfg.Mapping(e.sourcePort, e.codeword).Ok? && e.action in cfg.Mapping(e.sourcePort, e.codeword).value
  }

  /** The staged events make a request that every receiver accepts. */
  ghost predicate StagedOk(cfg: TimingConfig, pending: seq<Event>, sync: seq<nat>, next: nat) {
    && 0 < next && |pending| <= cfg.stagingCapacity && |sync| <= 1 && (forall t | t in sync :: t <= MAX_SYNC_TARGET)
    && (forall i | 0 <= i < |pending| :: StagedEvent(cfg, pending[i], next))
    && (forall i, j | 0 <= i < j < |pending| :: pending[i].id < pending[j].id)
    && (forall p: nat | p < cfg.ports :: |OnPort(pending, p)| <= cfg.firingWidth && |OnPort(pending, p)| <= cfg.eventCapacity)
  }

  lemma {:induction false} LabelledOnPort(pending: seq<Event>, labelId: nat, port: nat)
    ensures |OnPort(T.Labelled(pending, labelId), port)| == |OnPort(pending, port)|
    decreases |pending|
  {
    if pending != [] {
      assert T.Labelled(pending, labelId)[1..] == T.Labelled(pending[1..], labelId);
      LabelledOnPort(pending[1..], labelId, port);
    }
  }

  lemma StagedIsValid(cfg: TimingConfig, s: T.State, labelId: nat)
    requires StagedOk(cfg, s.pending, s.sync, s.nextEvent) && 0 < cfg.stagingCapacity
    ensures ValidRequest(T.MakeRequest(s, labelId), cfg)
  {
    var r := T.MakeRequest(s, labelId);
    forall p: nat | p < cfg.ports
      ensures |OnPort(r.events, p)| <= cfg.firingWidth && |OnPort(r.events, p)| <= cfg.eventCapacity
    {
      LabelledOnPort(s.pending, labelId, p);
    }
    forall i | 0 <= i < |r.events|
      ensures ValidEvent(r, cfg, r.events[i]) && r.events[i].id == r.point.manifest[i]
    {
      assert StagedEvent(cfg, s.pending[i], s.nextEvent);
    }
    hide OnPort, StagedEvent, ValidEvent;
  }

  // ---- The control's own invariant ----

  /** A zero wait is remembered by the held operation; a staged duplicate time follows one. */
  ghost predicate ControlOk(cfg: TimingConfig, s: T.State) {
    && StagedOk(cfg, s.pending, s.sync, s.nextEvent)
    && s.lastTime <= s.timePoint
    && (s.waitForNext ==> s.held.Some? && s.held.value.command == T.Wait(0))
    && (s.request.Some? ==> && s.request.value == T.MakeRequest(s, s.lastLabel + 1) && s.pendingPoint && s.held.Some?
                            && (s.held.value.command == T.Wait(0) ==> s.waitForNext))
    && (0 < s.lastLabel && s.timePoint == s.lastTime && !s.waitForNext && (s.pendingPoint || !s.enqueued) ==> s.allowSameTime)
    && (s.allowSameTime || (s.waitForNext && !s.pendingPoint) ==> s.timePoint == s.lastTime)
    && (!s.pendingPoint ==> s.pending == [] && s.sync == [])
    && (s.closed ==> s.request.None?)
  }

  lemma EnqueueKeepsControl(ctx: T.Context, s: T.State, full: bool)
    requires ControlOk(ctx.cfg, s) && 0 < ctx.cfg.stagingCapacity && !s.closed
    requires s.held.Some? && (s.held.value.command == T.Wait(0) ==> s.waitForNext)
    ensures
      var e := T.Enqueue(ctx, s, full);
      && (e.Ok? ==> ControlOk(ctx.cfg, e.value.state))
      && (e.Err? ==> e.error == TimeOverflow || (full && s.request.None? && s.pendingPoint && e.error == ErrorCode.Protocol))
      && (e.Ok? && e.value.submitted.Some? ==>
            && s.request.None? && s.pendingPoint && !full && !e.value.ready
            && e.value.state == s.(request := Some(T.MakeRequest(s, s.lastLabel + 1)))
            && e.value.submitted == e.value.state.request)
      && (e.Ok? && e.value.submitted.None? ==>
            if e.value.ready then s.request.None? && !s.pendingPoint && e.value.state == s.(enqueued := !s.allowSameTime)
            else e.value.state == s && s.request.Some?)
  {
    hide Validate, StagedOk;
    StagedIsValid(ctx.cfg, s, s.lastLabel + 1);
    ValidateIsValidRequest(T.MakeRequest(s, s.lastLabel + 1), ctx.cfg);
    hide ValidRequest;
  }

  // ---- Staging a codeword ----

  ghost predicate PortsFit(cfg: TimingConfig, pending: seq<Event>, actions: seq<Action>) {
    forall p: nat | p < cfg.ports ::
      && |OnPort(pending, p)| + T.CountOnPort(actions, p) <= cfg.firingWidth
      && |OnPort(pending, p)| + T.CountOnPort(actions, p) <= cfg.eventCapacity
  }

  lemma {:induction false} CheckedPortsFit(cfg: TimingConfig, pending: seq<Event>, actions: seq<Action>, i: nat)
    requires i <= |actions| && T.CheckPorts(cfg, pending, actions, i).Ok? && PortsFit(cfg, pending, actions[..i])
    ensures PortsFit(cfg, pending, actions) && forall k | i <= k < |actions| :: actions[k].port < cfg.ports
    decreases |actions| - i
  {
    hide OnPort;
    if i == |actions| {
      assert actions[..i] == actions;
    } else {
      var more := actions[..i + 1];
      assert more == actions[..i] + [actions[i]];
      forall p: nat
        ensures T.CountOnPort(more, p) == T.CountOnPort(actions[..i], p) + if actions[i].port == p then 1 else 0
      {
        T.CountAppends(actions[..i], actions[i], p);
      }
      hide T.CountOnPort;
      CheckedPortsFit(cfg, pending, actions, i + 1);
    }
  }

  /** The staged events followed by fresh ones, under the next identifiers. */
  ghost predicate FreshEvents(s: T.State, t: T.State) {
    && s.nextEvent <= t.nextEvent && |t.pending| == |s.pending| + (t.nextEvent - s.nextEvent)
    && t.pending[..|s.pending|] == s.pending
    && forall k | |s.pending| <= k < |t.pending| :: t.pending[k].id == s.nextEvent + (k - |s.pending|)
  }

  lemma StagingShape(ctx: T.Context, s: T.State, regs: Registers, instruction: nat, port: nat, codeword: nat)
    requires T.StageCodeword(ctx, s, regs, instruction, port, codeword).Ok?
    ensures
      var t := T.StageCodeword(ctx, s, regs, instruction, port, codeword).value.state;
      var actions := ctx.cfg.Mapping(port, codeword);
      && !s.enqueued && s.request.None? && actions.Ok? && T.CheckPorts(ctx.cfg, s.pending, actions.value, 0).Ok?
      && |s.pending| + |actions.value| <= ctx.cfg.stagingCapacity
      && t.nextEvent == s.nextEvent + |actions.value|
      && (exists references :: var events := T.DecodeActions(ctx.cfg, port, codeword, instruction, s.nextEvent, actions.value, references);
            events.Ok? && t.pending == s.pending + events.value)
      && t == s.(pending := t.pending, pendingPoint := true, nextEvent := t.nextEvent)
  {
    hide T.CheckActions, T.CheckPorts, PrepareReservation, CommitReservation, T.DecodeActions, T.CheckReferences,
      T.Acquired, T.Acquisitions;
    var actions := ctx.cfg.Mapping(port, codeword).value;
    var references := PrepareReservation(ctx.feedback, regs, T.Acquired(actions)).value;
    assert T.DecodeCodeword(ctx.cfg, port, codeword, instruction, s.nextEvent, references).Ok?;
    var events := T.DecodeActions(ctx.cfg, port, codeword, instruction, s.nextEvent, actions, references);
    assert events.Ok?;
  }

  lemma AppendKeepsStaged(cfg: TimingConfig, pending: seq<Event>, sync: seq<nat>, next: nat, port: nat, codeword: nat, events: seq<Event>)
    requires StagedOk(cfg, pending, sync, next) && cfg.Mapping(port, codeword).Ok?
    requires
      var actions := cfg.Mapping(port, codeword).value;
      && PortsFit(cfg, pending, actions) && |pending| + |actions| <= cfg.stagingCapacity && |events| == |actions|
      && (forall k | 0 <= k < |actions| :: actions[k].port < cfg.ports)
      && (forall k | 0 <= k < |events| ::
            events[k].action == actions[k] && events[k].id == next + k && events[k].sourcePort == port && events[k].codeword == codeword)
      && (forall p :: |OnPort(events, p)| == T.CountOnPort(actions, p))
    ensures StagedOk(cfg, pending + events, sync, next + |events|)
  {
    var all, more := pending + events, next + |events|;
    forall p: nat | p < cfg.ports
      ensures |OnPort(all, p)| <= cfg.firingWidth && |OnPort(all, p)| <= cfg.eventCapacity
    {
      OnPortAppends(pending, events, p);
      assert |OnPort(events, p)| == T.CountOnPort(cfg.Mapping(port, codeword).value, p);
    }
    hide OnPort, T.CountOnPort, PortsFit;
    forall i | 0 <= i < |all|
      ensures StagedEvent(cfg, all[i], more)
    {
      if i < |pending| {
        assert StagedEvent(cfg, pending[i], next);
      } else {
        assert all[i] == events[i - |pending|];
        assert cfg.Mapping(port, codeword).value[i - |pending|] in cfg.Mapping(port, codeword).value;
      }
    }
    forall i, j | 0 <= i < j < |all|
      ensures all[i].id < all[j].id
    {
      if i < |pending| {
        assert StagedEvent(cfg, pending[i], next);
      }
    }
    hide StagedEvent;
  }

  lemma StagingKeepsControl(ctx: T.Context, s: T.State, regs: Registers, instruction: nat, port: nat, codeword: nat)
    requires T.StageCodeword(ctx, s, regs, instruction, port, codeword).Ok? && StagedOk(ctx.cfg, s.pending, s.sync, s.nextEvent)
    ensures
      var t := T.StageCodeword(ctx, s, regs, instruction, port, codeword).value.state;
      && StagedOk(ctx.cfg, t.pending, t.sync, t.nextEvent) && FreshEvents(s, t)
      && t == s.(pending := t.pending, pendingPoint := true, nextEvent := t.nextEvent) && !s.enqueued && s.request.None?
  {
    StagingShape(ctx, s, regs, instruction, port, codeword);
    var t := T.StageCodeword(ctx, s, regs, instruction, port, codeword).value.state;
    var actions := ctx.cfg.Mapping(port, codeword).value;
    hide T.StageCodeword, StagedOk;
    var references :|
      var events := T.DecodeActions(ctx.cfg, port, codeword, instruction, s.nextEvent, actions, references);
      events.Ok? && t.pending == s.pending + events.value;
    var events := T.DecodeActions(ctx.cfg, port, codeword, instruction, s.nextEvent, actions, references).value;
    T.DecodedActions(ctx.cfg, port, codeword, instruction, s.nextEvent, actions, references);
    hide T.DecodeActions;
    assert PortsFit(ctx.cfg, s.pending, actions[..0]) by { NothingFits(ctx.cfg, s); }
    CheckedPortsFit(ctx.cfg, s.pending, actions, 0);
    AppendKeepsStaged(ctx.cfg, s.pending, s.sync, s.nextEvent, port, codeword, events);
    hide PortsFit, T.CheckPorts, OnPort;
  }

  lemma NothingFits(cfg: TimingConfig, s: T.State)
    requires StagedOk(cfg, s.pending, s.sync, s.nextEvent)
    ensures PortsFit(cfg, s.pending, [])
  {
    hide StagedEvent;
  }

  // ---- One operation ----

  /** What one attempt at an operation changes, for the link. */
  ghost predicate Moved(s: T.State, done: T.Executed, full: bool) {
    var t := done.state;
    && t.lastLabel == s.lastLabel && t.lastTime == s.lastTime && s.timePoint <= t.timePoint && FreshEvents(s, t)
    && (t.timePoint != s.timePoint ==> s.pending == [] && t.pending == [] && s.request.None? && t.request.None? && !t.allowSameTime)
    && (s.request.Some? ==> t == s.(held := t.held) && done.effect == T.Nothing)
    && (t.allowSameTime ==> s.allowSameTime || (s.waitForNext && !s.pendingPoint && s.request.None?))
    && (t.waitForNext && !t.pendingPoint ==> s.waitForNext && !s.pendingPoint)
    && match done.effect
       case Nothing => t.request == s.request && t.closed == s.closed
       case Submit(r) => s.request.None? && !full && t.request == Some(r) && t.closed == s.closed
       case End(l) => l == s.lastLabel && s.request.None? && t.request.None? && t.closed && !s.closed && t.pending == []
  }

  /** Why an operation can be refused: anything but the request it submits, or the mailbox for it. */
  ghost predicate Holding(s: T.State, op: T.Operation) {
    s.held == Some(op) && !s.closed && (s.request.Some? && op.command == T.Wait(0) ==> s.waitForNext)
  }

  lemma ZeroWaitKeepsControl(ctx: T.Context, s: T.State, regs: Registers, op: T.Operation, full: bool)
    requires ControlOk(ctx.cfg, s) && 0 < ctx.cfg.stagingCapacity && Holding(s, op) && op.command == T.Wait(0)
    requires T.ZeroWait(ctx, s, regs, full).Ok?
    ensures
      var done := T.ZeroWait(ctx, s, regs, full).value;
      ControlOk(ctx.cfg, done.state) && Moved(s, done, full)
  {
    hide StagedOk, T.Enqueue;
    var begun := if s.waitForNext then s else s.(waitForNext := true, pendingPoint := true);
    EnqueueKeepsControl(ctx, begun, full);
    hide T.MakeRequest;
    assert s.pending[..|s.pending|] == s.pending;
  }

  lemma PlainKeepsControl(ctx: T.Context, s: T.State, regs: Registers, op: T.Operation, full: bool)
    requires ControlOk(ctx.cfg, s) && 0 < ctx.cfg.stagingCapacity && Holding(s, op) && op.command != T.Wait(0)
    requires !op.command.Codeword? && !op.command.Synchronize? && T.Perform(ctx, s, regs, op, full).Ok?
    ensures
      var done := T.Perform(ctx, s, regs, op, full).value;
      ControlOk(ctx.cfg, done.state) && Moved(s, done, full)
  {
    hide StagedOk, T.Enqueue, Read;
    EnqueueKeepsControl(ctx, s, full);
    hide T.MakeRequest;
    assert s.pending[..|s.pending|] == s.pending;
  }

  lemma CodewordKeepsControl(ctx: T.Context, s: T.State, regs: Registers, op: T.Operation, full: bool)
    requires ControlOk(ctx.cfg, s) && Holding(s, op) && op.command.Codeword? && T.Perform(ctx, s, regs, op, full).Ok?
    ensures
      var done := T.Perform(ctx, s, regs, op, full).value;
      ControlOk(ctx.cfg, done.state) && Moved(s, done, full)
  {
    hide StagedOk, T.StageCodeword, T.MakeRequest, FreshEvents;
    StagingKeepsControl(ctx, s, regs, op.instruction, op.command.port, op.command.codeword);
  }

  lemma SyncKeepsControl(ctx: T.Context, s: T.State, regs: Registers, op: T.Operation, full: bool)
    requires ControlOk(ctx.cfg, s) && Holding(s, op) && op.command.Synchronize? && op.command.target <= MAX_SYNC_TARGET
    requires T.Perform(ctx, s, regs, op, full).Ok?
    ensures
      var done := T.Perform(ctx, s, regs, op, full).value;
      ControlOk(ctx.cfg, done.state) && Moved(s, done, full)
  {
    hide T.MakeRequest, StagedEvent, OnPort;
    assert s.pending[..|s.pending|] == s.pending;
  }

  lemma ExecuteKeepsControl(ctx: T.Context, s: T.State, regs: Registers, op: T.Operation, full: bool)
    requires ControlOk(ctx.cfg, s) && 0 < ctx.cfg.stagingCapacity
    requires op.command.Synchronize? ==> op.command.target <= MAX_SYNC_TARGET
    requires T.Execute(ctx, s, regs, op, full).Ok?
    ensures
      var done := T.Execute(ctx, s, regs, op, full).value;
      ControlOk(ctx.cfg, done.state) && Moved(s, done, full) && !s.closed
  {
    hide StagedOk, T.Perform, T.MakeRequest;
    var s1 := s.(held := Some(op));
    HeldIsControl(ctx.cfg, s, op);
    match op.command {
      case Codeword(_, _) => CodewordKeepsControl(ctx, s1, regs, op, full);
      case Wait(cycles) =>
        if cycles == 0 {
          WaitIsZeroWait(ctx, s1, regs, op, full);
          ZeroWaitKeepsControl(ctx, s1, regs, op, full);
        } else {
          PlainKeepsControl(ctx, s1, regs, op, full);
        }
      case FetchMeasurement(_) => PlainKeepsControl(ctx, s1, regs, op, full);
      case Halt => PlainKeepsControl(ctx, s1, regs, op, full);
      case Synchronize(_) => SyncKeepsControl(ctx, s1, regs, op, full);
    }
    var done := T.Perform(ctx, s1, regs, op, full).value;
    ReleaseKeepsControl(ctx, s, s1, regs, op, full, done);
  }

  lemma WaitIsZeroWait(ctx: T.Context, s: T.State, regs: Registers, op: T.Operation, full: bool)
    requires op.command == T.Wait(0)
    ensures T.Perform(ctx, s, regs, op, full) == T.ZeroWait(ctx, s, regs, full)
  {
    hide T.ZeroWait;
  }

  lemma HeldIsControl(cfg: TimingConfig, s: T.State, op: T.Operation)
    requires ControlOk(cfg, s) && !s.closed && (s.held.Some? ==> s.held.value == op)
    ensures ControlOk(cfg, s.(held := Some(op))) && Holding(s.(held := Some(op)), op)
  {
    hide StagedOk;
    assert T.MakeRequest(s, s.lastLabel + 1) == T.MakeRequest(s.(held := Some(op)), s.lastLabel + 1);
  }

  /** A completed operation leaves no request in flight and no zero wait begun. */
  lemma ReleaseKeepsControl(ctx: T.Context, s: T.State, s1: T.State, regs: Registers, op: T.Operation, full: bool, done: T.Executed)
    requires s1 == s.(held := Some(op)) && ControlOk(ctx.cfg, s1) && Holding(s1, op) && T.Perform(ctx, s1, regs, op, full) == Ok(done)
    requires ControlOk(ctx.cfg, done.state) && Moved(s1, done, full)
    ensures
      var t := if done.reply.Some? then done.(state := done.state.(held := None)) else done;
      ControlOk(ctx.cfg, t.state) && Moved(s, t, full)
  {
    hide StagedOk, T.Perform, T.MakeRequest;
    if done.reply.Some? {
      RepliesAreFinal(ctx, s1, regs, op, full);
    }
  }

  lemma RepliesAreFinal(ctx: T.Context, s: T.State, regs: Registers, op: T.Operation, full: bool)
    requires Holding(s, op) && ControlOk(ctx.cfg, s) && T.Perform(ctx, s, regs, op, full).Ok?
    requires T.Perform(ctx, s, regs, op, full).value.reply.Some?
    ensures
      var t := T.Perform(ctx, s, regs, op, full).value.state;
      t.request.None? && !t.waitForNext
  {
    hide StagedOk, Validate, Read, T.MakeRequest, T.CheckActions, T.CheckPorts, T.DecodeCodeword, PrepareReservation,
      CommitReservation;
  }

  // ---- The link's invariant ----

  /** The request is on its way to the TCU. */
  ghost predicate Requested(c: Core) {
    && c.control.request.Some? && |c.requests| == 1 && c.requests[0].value == c.control.request.value && c.replies == []
    && c.tcu.tcu.lastLabel == c.control.lastLabel
  }

  /** The request has been admitted, and its acknowledgment is on its way back. */
  ghost predicate Replied(c: Core) {
    && c.control.request.Some? && c.requests == [] && |c.replies| == 1
    && c.replies[0].value == c.control.lastLabel + 1 == c.tcu.tcu.lastLabel
  }

  ghost predicate InFlight(c: Core) {
    if c.control.request.None? then c.requests == [] && c.replies == [] && c.tcu.tcu.lastLabel == c.control.lastLabel
    else Requested(c) || Replied(c)
  }

  ghost predicate Closing(c: Core) {
    && (c.closure == [] || (|c.closure| == 1 && c.closure[0].value == c.tcu.tcu.lastLabel && c.control.closed && !c.tcu.tcu.closed))
    && (c.tcu.tcu.closed ==> c.control.closed && c.closure == [])
  }

  /** While the same logical time may be staged again, the admitted points let the timer pause. */
  ghost predicate Policies(c: Core) {
    && (c.control.allowSameTime ==> c.tcu.tcu.admittedPolicy == PauseWhenEmpty)
    && (c.control.waitForNext && (!c.control.pendingPoint || Replied(c)) ==> c.tcu.tcu.admittedPolicy == PauseWhenEmpty)
  }

  ghost predicate LinkOk(cfg: CoreConfig, c: Core)
    requires cfg.Valid()
  {
    RunOk(cfg.tcu, c.tcu) && ControlOk(cfg.tcu.timing, c.control) && InFlight(c) && Closing(c) && Policies(c)
  }

  lemma BeginIsLinked(cfg: CoreConfig, origin: nat)
    requires cfg.Valid() && cfg.tcu.clock.Edge(origin) && origin <= cfg.tcu.start
    ensures LinkOk(cfg, BeginCore(cfg, origin))
  {
    BeginIsOk(cfg.tcu, origin);
    hide RunOk;
  }

  /** The acknowledgment is always the one awaited. */
  lemma ReplyKeepsLink(cfg: CoreConfig, c: Core, now: nat)
    requires cfg.Valid() && LinkOk(cfg, c)
    ensures
      var s := AfterReply(c, now);
      s.Ok? && LinkOk(cfg, c.(control := s.value, replies := Rest(c.replies, Readable(c.replies, now))))
  {
    hide RunOk, StagedOk, T.MakeRequest;
    if Readable(c.replies, now) {
      assert Replied(c);
      assert c.control.request.value.point.labelId == c.control.lastLabel + 1 by { RequestLabel(c.control); }
      EmptyIsStaged(cfg.tcu.timing, c.control);
    }
  }

  lemma RequestLabel(s: T.State)
    ensures T.MakeRequest(s, s.lastLabel + 1).point.labelId == s.lastLabel + 1
  {
  }

  lemma EmptyIsStaged(cfg: TimingConfig, s: T.State)
    requires StagedOk(cfg, s.pending, s.sync, s.nextEvent)
    ensures StagedOk(cfg, [], [], s.nextEvent)
  {
  }

  /** Publishing into an empty link of capacity one: only the tick range can refuse it. */
  lemma PublishAlone<X>(link: Link, now: nat, value: X)
    requires link.Valid()
    ensures
      var p := link.Publish([], now, value);
      if p.Ok? then |p.value| == 1 && p.value[0].value == value else p.error == TimeOverflow
  {
    AfterIsNth(link.receiver, now, link.latency);
  }

  lemma OperateShape(cfg: CoreConfig, c: Core, now: nat, op: T.Operation, regs: Registers)
    requires cfg.Valid() && Operate(cfg, c, now, op, regs).Ok?
    ensures
      var done := T.Execute(cfg.context, c.control, regs, op, |c.requests| == 1);
      var d := Operate(cfg, c, now, op, regs).value;
      && done.Ok? && d.control == done.value.state && d.tcu == c.tcu && d.replies == c.replies
      && d.issuedAt == Issue(c.issuedAt, c.control, d.control) && d.pausesAt == c.pausesAt && d.syncPauses == c.syncPauses
      && (match done.value.effect
          case Nothing => d.requests == c.requests && d.closure == c.closure
          case Submit(r) => cfg.Requests().Publish(c.requests, now, r) == Ok(d.requests) && d.closure == c.closure
          case End(l) => cfg.Closure().Publish(c.closure, now, l) == Ok(d.closure) && d.requests == c.requests)
  {
    hide T.Execute, Issue;
  }

  lemma OperateKeepsLink(cfg: CoreConfig, c: Core, now: nat, op: T.Operation, regs: Registers)
    requires cfg.Valid() && LinkOk(cfg, c) && Operate(cfg, c, now, op, regs).Ok?
    requires op.command.Synchronize? ==> op.command.target <= MAX_SYNC_TARGET
    ensures LinkOk(cfg, Operate(cfg, c, now, op, regs).value)
  {
    OperateShape(cfg, c, now, op, regs);
    hide RunOk, StagedOk, T.Execute, Operate, ControlOk, FreshEvents;
    var done := T.Execute(cfg.context, c.control, regs, op, |c.requests| == 1).value;
    ExecuteKeepsControl(cfg.context, c.control, regs, op, |c.requests| == 1);
    match done.effect {
      case Nothing =>
      case Submit(r) => PublishAlone(cfg.Requests(), now, r);
      case End(l) => PublishAlone(cfg.Closure(), now, l);
    }
  }

  // ---- The TCU's edge ----

  /** What an edge of the TCU changes, for the link. */
  lemma AdvanceSummary(cfg: TcuConfig, r: Run, input: Input)
    requires cfg.Valid() && RunOk(cfg, r) && r.next <= MAX_TICK && Advance(cfg, r, input).Ok?
    ensures
      var r' := Advance(cfg, r, input).value;
      var a := AdmittedBy(cfg, r, input);
      && RunOk(cfg, r')
      && r'.admitted == r.admitted + (if a.Some? then [a.value] else [])
      && (a.Some? ==> input.candidate == Some(a.value.request) && a.value.request.point.labelId == r.tcu.lastLabel + 1 && !r.tcu.closed)
      && r'.tcu.lastLabel == r.tcu.lastLabel + (if a.Some? then 1 else 0)
      && r'.tcu.closed == r.tcu.closed
      && r'.tcu.admittedPolicy == (if a.Some? then PolicyAfter(a.value.request.point, r.tcu.admittedPolicy) else r.tcu.admittedPolicy)
      && |r'.fired| == |r.fired| + (if FiresNow(cfg, r, input) then 1 else 0)
      && r'.fired[..|r.fired|] == r.fired
      && (FiresNow(cfg, r, input) ==> r'.fired[|r.fired|].pausedEdges == r.pausedEdges)
      && r'.pausedEdges == r.pausedEdges + (if PausedNow(cfg, r, input) then 1 else 0)
  {
    hide RunOk, Advance, AdmittedBy, PausedNow, FiresNow;
    AdvanceIsEdge(cfg, r, input);
    AdvanceKeepsRun(cfg, r, input);
    HeadQueued(cfg, r, input);
    CommittedFields(r.tcu, FiresNow(cfg, r, input), AdmittedBy(cfg, r, input));
    if AdmittedBy(cfg, r, input).Some? {
      AdmittedIsAdmissible(cfg, r, input);
      AdmittedIsCandidate(cfg, r, input);
    }
    hide Committed, Admissible, Waiting;
  }

  lemma AdmittedIsCandidate(cfg: TcuConfig, r: Run, input: Input)
    requires cfg.Valid() && AdmittedBy(cfg, r, input).Some?
    ensures input.candidate == Some(AdmittedBy(cfg, r, input).value.request)
  {
    hide PrepareAdmission;
  }

  lemma HeadQueued(cfg: TcuConfig, r: Run, input: Input)
    requires cfg.Valid() && RunOk(cfg, r)
    ensures FiresNow(cfg, r, input) ==> r.tcu.timing != [] && Waiting(r) != []
  {
    hide CurrentTimingState;
    HeadIsQueued(cfg, r);
    hide RunOk;
  }

  lemma AnswerErrors(cfg: TcuConfig, s: State, now: nat, request: TimingEvents, pause: PauseState)
    requires cfg.Valid() && !s.closed && Validate(request, cfg.timing).Ok? && request.point.labelId == s.lastLabel + 1
    requires s.lastLabel == 0 || 0 < request.point.interval || s.admittedPolicy == PauseWhenEmpty
             || request.point.policy == PauseWhenEmpty
    requires |request.point.synchronizations| <= 1
    ensures
      var answer := PrepareAdmission(cfg, s, now, request, pause);
      answer.Err? ==> answer.error == LateAdmission || answer.error == TimeOverflow
  {
    hide Validate, HasSpace, MeetsDeadline, DueTick;
    DueTickErrors(cfg, s, s.lastDue + EffectiveInterval(s, request.point));
  }

  /** The request in flight follows the admitted ones in label and in logical time. */
  lemma RequestFollows(cfg: TimingConfig, s: T.State)
    requires ControlOk(cfg, s) && s.request.Some? && 0 < cfg.stagingCapacity
    ensures
      var request := s.request.value;
      && Validate(request, cfg).Ok? && request.point.labelId == s.lastLabel + 1 && !s.closed
      && |request.point.synchronizations| <= 1
      && (s.lastLabel == 0 || 0 < request.point.interval || s.allowSameTime || request.point.policy == PauseWhenEmpty)
  {
    StagedIsValid(cfg, s, s.lastLabel + 1);
    ValidateIsValidRequest(s.request.value, cfg);
    hide Validate, ValidRequest, StagedEvent, OnPort;
  }

  /** What the TCU answers the request in flight: never a protocol, manifest or capacity fault. */
  lemma CandidateIsWelcome(cfg: CoreConfig, c: Core, pause: PauseState)
    requires cfg.Valid() && LinkOk(cfg, c) && Requested(c)
    ensures
      var answer := PrepareAdmission(cfg.tcu, c.tcu.tcu, c.tcu.next, c.control.request.value, pause);
      answer.Err? ==> answer.error == LateAdmission || answer.error == TimeOverflow
  {
    hide RunOk, ControlOk, PrepareAdmission, Validate;
    RequestFollows(cfg.tcu.timing, c.control);
    AnswerErrors(cfg.tcu, c.tcu.tcu, c.tcu.next, c.control.request.value, pause);
  }

  lemma DueTickErrors(cfg: TcuConfig, s: State, due: nat)
    ensures DueTick(cfg, s, due).Err? ==> DueTick(cfg, s, due).error == TimeOverflow
  {
  }

  lemma TcuShape(cfg: CoreConfig, c: Core, input: Input)
    requires cfg.Valid() && TcuStep(cfg, c, input).Ok?
    ensures
      var offered := input.(candidate := Candidate(c));
      var run := Advance(cfg.tcu, c.tcu, offered);
      var d := TcuStep(cfg, c, input).value;
      && c.tcu.next <= MAX_TICK && run.Ok?
      && d.control == c.control && d.issuedAt == c.issuedAt
      && (var admitted := |c.tcu.admitted| < |run.value.admitted| && offered.candidate.Some?;
          && d.requests == Rest(c.requests, admitted)
          && (if admitted then cfg.Replies().Publish(c.replies, c.tcu.next, offered.candidate.value.point.labelId) == Ok(d.replies)
              else d.replies == c.replies))
      && d.closure == Rest(c.closure, Readable(c.closure, c.tcu.next))
      && d.tcu == run.value.(tcu := if Readable(c.closure, c.tcu.next) then run.value.tcu.(closed := true) else run.value.tcu)
      && d.syncPauses == c.syncPauses + (if cfg.tcu.start <= c.tcu.next && input.synchronizationPaused then 1 else 0)
      && d.pausesAt == (if |c.tcu.fired| < |run.value.fired| then c.pausesAt + [c.syncPauses] else c.pausesAt)
  {
    hide Advance;
  }

  /** The link's part of an edge that admits the request, or nothing. */
  lemma EdgeKeepsFlight(cfg: CoreConfig, c: Core, run: State, d: Core, admitted: bool)
    requires cfg.Valid() && ControlOk(cfg.tcu.timing, c.control) && InFlight(c) && Closing(c) && Policies(c)
    requires d.control == c.control && d.requests == Rest(c.requests, admitted)
    requires admitted ==> Candidate(c).Some? && |d.replies| == 1 && d.replies[0].value == Candidate(c).value.point.labelId
    requires !admitted ==> d.replies == c.replies
    requires run.lastLabel == c.tcu.tcu.lastLabel + (if admitted then 1 else 0) && run.closed == c.tcu.tcu.closed
    requires run.admittedPolicy
          == if admitted then PolicyAfter(Candidate(c).value.point, c.tcu.tcu.admittedPolicy) else c.tcu.tcu.admittedPolicy
    requires d.closure == Rest(c.closure, Readable(c.closure, c.tcu.next))
    requires d.tcu.tcu == if Readable(c.closure, c.tcu.next) then run.(closed := true) else run
    ensures InFlight(d) && Closing(d) && Policies(d)
  {
    if admitted {
      assert Requested(c);
      RequestPolicy(cfg.tcu.timing, c.control);
    }
    hide ControlOk;
  }

  lemma TcuStepKeepsLink(cfg: CoreConfig, c: Core, input: Input)
    requires cfg.Valid() && LinkOk(cfg, c) && TcuStep(cfg, c, input).Ok?
    ensures LinkOk(cfg, TcuStep(cfg, c, input).value)
  {
    hide RunOk, TcuStep, Advance, AdmittedBy, FiresNow, PausedNow, ControlOk, InFlight, Closing, Policies, Readable,
      Candidate, Rest;
    TcuShape(cfg, c, input);
    var offered := input.(candidate := Candidate(c));
    AdvanceSummary(cfg.tcu, c.tcu, offered);
    var run, d := Advance(cfg.tcu, c.tcu, offered).value, TcuStep(cfg, c, input).value;
    ClosureKeepsRun(cfg.tcu, run);
    var admitted := |c.tcu.admitted| < |run.admitted|;
    if admitted {
      RepliesAreFree(cfg, c);
      PublishAlone(cfg.Replies(), c.tcu.next, offered.candidate.value.point.labelId);
    }
    EdgeKeepsFlight(cfg, c, run.tcu, d, admitted);
  }

  lemma RepliesAreFree(cfg: CoreConfig, c: Core)
    requires InFlight(c) && Candidate(c).Some?
    ensures c.replies == []
  {
  }

  /** The policy of the request in flight. */
  lemma RequestPolicy(cfg: TimingConfig, s: T.State)
    requires ControlOk(cfg, s) && s.request.Some?
    ensures
      var point := s.request.value.point;
      && point.labelId == s.lastLabel + 1 && s.pendingPoint && !s.closed
      && (s.waitForNext ==> point.policy == PauseWhenEmpty)
      && (s.allowSameTime ==> point.policy == PauseWhenEmpty || point.policy == Inherit)
  {
  }

  // ---- Whole runs ----

  ghost predicate AllEncodable(ops: seq<CoreOp>) {
    forall i | 0 <= i < |ops| :: Encodable(ops[i])
  }

  lemma StepKeepsLink(cfg: CoreConfig, c: Core, op: CoreOp)
    requires cfg.Valid() && LinkOk(cfg, c) && Encodable(op) && CoreStep(cfg, c, op).Ok?
    ensures LinkOk(cfg, CoreStep(cfg, c, op).value)
  {
    hide LinkOk, Operate, AfterReply, TcuStep;
    match op {
      case Cpu(now, operation, regs) =>
        ReplyKeepsLink(cfg, c, now);
        if operation.Some? {
          var s := AfterReply(c, now).value;
          OperateKeepsLink(cfg, c.(control := s, replies := Rest(c.replies, Readable(c.replies, now))), now, operation.value, regs);
        }
      case Tcu(input) => TcuStepKeepsLink(cfg, c, input);
    }
  }

  lemma {:induction false} RunsKeepLink(cfg: CoreConfig, c: Core, ops: seq<CoreOp>)
    requires cfg.Valid() && LinkOk(cfg, c) && AllEncodable(ops) && RunCore(cfg, c, ops).Ok?
    ensures LinkOk(cfg, RunCore(cfg, c, ops).value)
    decreases |ops|
  {
    hide LinkOk, CoreStep;
    if ops != [] {
      StepKeepsLink(cfg, c, ops[0]);
      RunsKeepLink(cfg, CoreStep(cfg, c, ops[0]).value, ops[1..]);
    }
  }

  /**
   * In every run, whatever the order of the two clocks' edges, at most one request or acknowledgment is
   * in flight, and the guards on the other side's protocol cannot fire: an acknowledgment is always the
   * one awaited; the TCU refuses the request in flight only for its deadline or the tick range (never for
   * its label, a duplicate logical time, closure, its manifest or a capacity); the closure carries the
   * last label, once; and no mailbox is full when something is published.
   */
  lemma PeerGuardsUnreachable(cfg: CoreConfig, origin: nat, ops: seq<CoreOp>, now: nat, pause: PauseState)
    requires cfg.Valid() && cfg.tcu.clock.Edge(origin) && origin <= cfg.tcu.start
    requires AllEncodable(ops) && RunCore(cfg, BeginCore(cfg, origin), ops).Ok?
    ensures
      var c := RunCore(cfg, BeginCore(cfg, origin), ops).value;
      && |c.requests| + |c.replies| <= 1 && |c.closure| <= 1
      && AfterReply(c, now).Ok?
      && (Candidate(c).Some? ==>
            var answer := PrepareAdmission(cfg.tcu, c.tcu.tcu, c.tcu.next, Candidate(c).value, pause);
            answer.Err? ==> answer.error == LateAdmission || answer.error == TimeOverflow)
      && (c.closure != [] ==> Close(c.tcu.tcu, c.closure[0].value).Ok?)
      && (c.control.request.None? ==> c.requests == [])
      && (Candidate(c).Some? ==> c.replies == [])
      && (!c.control.closed ==> c.closure == [])
  {
    hide RunCore, BeginCore, LinkOk, Close;
    BeginIsLinked(cfg, origin);
    RunsKeepLink(cfg, BeginCore(cfg, origin), ops);
    var c := RunCore(cfg, BeginCore(cfg, origin), ops).value;
    ReplyKeepsLink(cfg, c, now);
    LinkFacts(cfg, c, pause);
  }

  lemma LinkFacts(cfg: CoreConfig, c: Core, pause: PauseState)
    requires cfg.Valid() && LinkOk(cfg, c)
    ensures |c.requests| + |c.replies| <= 1 && |c.closure| <= 1
    ensures Candidate(c).Some? ==>
              var answer := PrepareAdmission(cfg.tcu, c.tcu.tcu, c.tcu.next, Candidate(c).value, pause);
              answer.Err? ==> answer.error == LateAdmission || answer.error == TimeOverflow
    ensures c.closure != [] ==> Close(c.tcu.tcu, c.closure[0].value).Ok?
    ensures (c.control.request.None? ==> c.requests == []) && (Candidate(c).Some? ==> c.replies == [])
    ensures !c.control.closed ==> c.closure == []
  {
    hide RunOk, ControlOk, PrepareAdmission, Policies;
    if Candidate(c).Some? {
      CandidateIsWelcome(cfg, c, pause);
    }
  }

  /**
   * In every run a wait or a halt, or an unchanged repetition of the one that blocked, is never refused:
   * only the tick range can end it. In particular every request that the timing control builds is valid,
   * and is built only when its mailbox is free.
   */
  lemma WaitsAreNeverRefused(cfg: CoreConfig, origin: nat, ops: seq<CoreOp>, now: nat, op: T.Operation, regs: Registers)
    requires cfg.Valid() && cfg.tcu.clock.Edge(origin) && origin <= cfg.tcu.start
    requires AllEncodable(ops) && RunCore(cfg, BeginCore(cfg, origin), ops).Ok? && (op.command.Wait? || op.command.Halt?)
    requires
      var c := RunCore(cfg, BeginCore(cfg, origin), ops).value;
      !c.control.closed && (c.control.held.Some? ==> c.control.held.value == op)
    ensures
      var c := RunCore(cfg, BeginCore(cfg, origin), ops).value;
      var next := CoreStep(cfg, c, Cpu(now, Some(op), regs));
      next.Err? ==> next.error == TimeOverflow
  {
    hide RunCore, BeginCore, LinkOk, Operate, AfterReply;
    BeginIsLinked(cfg, origin);
    RunsKeepLink(cfg, BeginCore(cfg, origin), ops);
    var c := RunCore(cfg, BeginCore(cfg, origin), ops).value;
    ReplyKeepsLink(cfg, c, now);
    var s := AfterReply(c, now).value;
    ReplyKeepsHeld(c, now);
    WaitOperates(cfg, c.(control := s, replies := Rest(c.replies, Readable(c.replies, now))), now, op, regs);
  }

  lemma ReplyKeepsHeld(c: Core, now: nat)
    requires AfterReply(c, now).Ok?
    ensures AfterReply(c, now).value.held == c.control.held && AfterReply(c, now).value.closed == c.control.closed
  {
  }

  lemma WaitOperates(cfg: CoreConfig, c: Core, now: nat, op: T.Operation, regs: Registers)
    requires cfg.Valid() && LinkOk(cfg, c) && (op.command.Wait? || op.command.Halt?)
    requires !c.control.closed && (c.control.held.Some? ==> c.control.held.value == op)
    ensures Operate(cfg, c, now, op, regs).Err? ==> Operate(cfg, c, now, op, regs).error == TimeOverflow
  {
    hide RunOk, ControlOk, StagedOk, T.Perform;
    var s1 := c.control.(held := Some(op));
    HeldIsControl(cfg.tcu.timing, c.control, op);
    WaitPerforms(cfg.context, s1, regs, op, |c.requests| == 1);
    if T.Execute(cfg.context, c.control, regs, op, |c.requests| == 1).Ok? {
      NoSynchronization(op);
      ExecuteKeepsControl(cfg.context, c.control, regs, op, |c.requests| == 1);
    }
    PublishAlone(cfg.Requests(), now, T.MakeRequest(s1, 0));
    AfterErrors(cfg.Requests(), now);
    AfterErrors(cfg.Closure(), now);
    hide T.Execute, FreshEvents;
  }

  lemma NoSynchronization(op: T.Operation)
    requires op.command.Wait? || op.command.Halt?
    ensures !op.command.Synchronize?
  {
  }

  lemma WaitPerforms(ctx: T.Context, s: T.State, regs: Registers, op: T.Operation, full: bool)
    requires ControlOk(ctx.cfg, s) && 0 < ctx.cfg.stagingCapacity && Holding(s, op) && (op.command.Wait? || op.command.Halt?)
    requires full ==> s.request.Some?
    ensures T.Perform(ctx, s, regs, op, full).Err? ==> T.Perform(ctx, s, regs, op, full).error == TimeOverflow
  {
    hide StagedOk, T.Enqueue, T.MakeRequest;
    if op.command == T.Wait(0) {
      WaitIsZeroWait(ctx, s, regs, op, full);
      var begun := if s.waitForNext then s else s.(waitForNext := true, pendingPoint := true);
      BegunIsControl(ctx.cfg, s, op);
      EnqueueKeepsControl(ctx, begun, full);
    } else {
      EnqueueKeepsControl(ctx, s, full);
    }
  }

  lemma BegunIsControl(cfg: TimingConfig, s: T.State, op: T.Operation)
    requires ControlOk(cfg, s) && Holding(s, op) && op.command == T.Wait(0)
    ensures ControlOk(cfg, if s.waitForNext then s else s.(waitForNext := true, pendingPoint := true))
  {
    hide StagedOk;
  }
}
