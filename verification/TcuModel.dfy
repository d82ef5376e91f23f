/** The TCU as the object the source runs: fields changed in place, loops over queues and manifests. */
module TcuModel {
  import opened Errors
  import opened Time
  import opened Protocol
  import opened Tcu

  /** The events of a label across all port queues, by id. */
  method GatherEvents(queues: seq<seq<Event>>, labelId: nat) returns (gathered: Result<map<nat, Event>>)
    ensures gathered == Gather(queues, labelId, map[])
  {
    var found: map<nat, Event> := map[];
    assert queues[0..] == queues;
    for i := 0 to |queues|
      invariant Gather(queues[i..], labelId, found) == Gather(queues, labelId, map[])
    {
      assert queues[i..][0] == queues[i] && queues[i..][1..] == queues[i + 1..];
      if queues[i] != [] && queues[i][0].labelId < labelId {
        return Err(ManifestMismatch);
      }
      found :- GatherQueue(queues[i], labelId, found);
    }
    return Ok(found);
  }

  method GatherQueue(queue: seq<Event>, labelId: nat, before: map<nat, Event>) returns (gathered: Result<map<nat, Event>>)
    ensures gathered == GatherPort(queue, labelId, before)
  {
    var found: map<nat, Event> := before;
    var j := 0;
    assert queue[0..] == queue;
    while j < |queue| && queue[j].labelId == labelId
      invariant j <= |queue|
      invariant GatherPort(queue[j..], labelId, found) == GatherPort(queue, labelId, before)
    {
      assert queue[j..][0] == queue[j] && queue[j..][1..] == queue[j + 1..];
      if queue[j].id in found {
        return Err(ManifestMismatch);
      }
      found := found[queue[j].id := queue[j]];
      j := j + 1;
    }
    assert j < |queue| ==> queue[j..][0] == queue[j];
    return Ok(found);
  }

  method SelectEvents(manifest: seq<nat>, gathered: map<nat, Event>, flags: seq<FlagRegister>)
    returns (chosen: Result<Selection>)
    ensures chosen == Select(manifest, gathered, flags, Selection([], []))
  {
    hide Permitted;
    var launched: seq<Event>, cancelled: seq<Event> := [], [];
    assert manifest[0..] == manifest;
    for i := 0 to |manifest|
      invariant Select(manifest[i..], gathered, flags, Selection(launched, cancelled))
             == Select(manifest, gathered, flags, Selection([], []))
    {
      assert manifest[i..][0] == manifest[i] && manifest[i..][1..] == manifest[i + 1..];
      if manifest[i] !in gathered {
        return Err(ManifestMismatch);
      }
      var e := gathered[manifest[i]];
      var permitted :- Permitted(e, flags);
      if permitted {
        launched := launched + [e];
      } else {
        cancelled := cancelled + [e];
      }
    }
    return Ok(Selection(launched, cancelled));
  }

  /** Removes the leading events of a label, one at a time. */
  method PopLabel(queue: seq<Event>, labelId: nat) returns (rest: seq<Event>)
    ensures rest == DropLabel(queue, labelId)
  {
    rest := queue;
    while rest != [] && rest[0].labelId == labelId
      invariant DropLabel(rest, labelId) == DropLabel(queue, labelId)
      decreases |rest|
    {
      rest := rest[1..];
    }
  }

  /** How many of a request's events each port receives. */
  method CountPorts(events: seq<Event>, ports: nat) returns (needed: seq<nat>)
    requires forall e | e in events :: e.action.port < ports
    ensures |needed| == ports && forall p: nat | p < ports :: needed[p] == |OnPort(events, p)|
  {
    needed := seq(ports, _ => 0);
    for i := 0 to |events|
      invariant |needed| == ports && forall p: nat | p < ports :: needed[p] == |OnPort(events[..i], p)|
    {
      OneMore(events, i);
      needed := needed[events[i].action.port := needed[events[i].action.port] + 1];
    }
    assert events[..|events|] == events;
  }

  class TcuCycleModel {
    const cfg: TcuConfig
    var timing: seq<QueuedPoint>
    var events: seq<seq<Event>>
    var flags: seq<FlagRegister>
    var lastDue: nat
    var lastLabel: nat
    var closed: bool
    var admittedPolicy: Policy
    var triggeredPolicy: Policy
    var pausedTicks: nat
    var syncSize: nat

    ghost predicate Valid()
      reads this
    {
      cfg.Valid() && |events| == cfg.timing.ports
    }

    ghost function View(): State
      reads this
    {
      State(timing, events, flags, lastDue, lastLabel, closed, admittedPolicy, triggeredPolicy, pausedTicks, syncSize)
    }

    constructor (cfg: TcuConfig)
      requires cfg.Valid()
      ensures Valid() && this.cfg == cfg && View() == Empty(cfg)
    {
      this.cfg := cfg;
      timing, events, flags := [], seq(cfg.timing.ports, _ => []), seq(cfg.timing.qubits, _ => CLEAR_FLAGS);
      lastDue, lastLabel, closed, pausedTicks, syncSize := 0, 0, false, 0, 0;
      admittedPolicy, triggeredPolicy := Strict, Strict;
    }

    method Reset()
      requires Valid()
      modifies this
      ensures Valid() && View() == Empty(cfg)
    {
      timing, events, flags := [], seq(cfg.timing.ports, _ => []), seq(cfg.timing.qubits, _ => CLEAR_FLAGS);
      lastDue, lastLabel, closed, pausedTicks, syncSize := 0, 0, false, 0, 0;
      admittedPolicy, triggeredPolicy := Strict, Strict;
    }

    method TriggerNow(now: nat, state: TimingState, input: Input) returns (trigger: Result<Option<Trigger>>)
      requires Valid()
      ensures trigger == PrepareTrigger(cfg, View(), now, state, input)
    {
      hide Gather, Select, CheckSynchronizations;
      if !state.running || state.pause.Paused() || timing == [] || state.cycle < timing[0].due {
        return Ok(None);
      }
      var head := timing[0];
      if head.due != state.cycle {
        return Err(LateAdmission);
      }
      var gathered :- GatherEvents(events, head.point.labelId);
      if |gathered| != |head.point.manifest| {
        return Err(ManifestMismatch);
      }
      var chosen :- SelectEvents(head.point.manifest, gathered, flags);
      var batch := Triggered(head.point.labelId, now, chosen.launched);
      var _ :- input.preflight(batch);
      var _ :- CheckSynchronizations(head.point.synchronizations, input);
      return Ok(Some(Trigger(batch, chosen.cancelled, head.point.synchronizations)));
    }

    method Space(request: TimingEvents) returns (space: bool)
      requires Valid() && ValidRequest(request, cfg.timing)
      ensures space == HasSpace(cfg, View(), request)
    {
      assert forall e | e in request.events :: ValidEvent(request, cfg.timing, e);
      hide OnPort;
      var needed := CountPorts(request.events, cfg.timing.ports);
      space := |timing| < cfg.timingCapacity && |request.point.synchronizations| + syncSize <= cfg.syncCapacity;
      for p := 0 to |events|
        invariant space == (&& |timing| < cfg.timingCapacity
                            && |request.point.synchronizations| + syncSize <= cfg.syncCapacity
                            && forall q: nat | q < p :: |events[q]| + |OnPort(request.events, q)| <= cfg.timing.eventCapacity)
      {
        space := space && |events[p]| + needed[p] <= cfg.timing.eventCapacity;
      }
    }

    method AdmitNow(now: nat, request: TimingEvents, pause: PauseState) returns (due: Result<Option<nat>>)
      requires Valid()
      ensures due == PrepareAdmission(cfg, View(), now, request, pause)
    {
      hide HasSpace, Validate, ValidRequest;
      if closed {
        return Err(ErrorCode.Protocol);
      }
      var _ :- ValidateTimingEvents(request, cfg.timing);
      ValidateIsValidRequest(request, cfg.timing);
      var expected :- CheckedAdd(lastLabel, 1);
      if request.point.labelId != expected {
        return Err(ErrorCode.Protocol);
      }
      if !(lastLabel == 0 || 0 < request.point.interval || admittedPolicy == PauseWhenEmpty
           || request.point.policy == PauseWhenEmpty) {
        return Err(ErrorCode.Protocol);
      }
      var interval := if lastLabel == 0 then request.point.interval else Max(1, request.point.interval);
      var at :- CheckedAdd(lastDue, interval);
      var base :- CheckedAdd(cfg.start, pausedTicks);
      var offset :- CheckedMul(at, cfg.clock.period);
      var dueTick :- CheckedAdd(base, offset);
      if !(now < dueTick || (admittedPolicy == PauseWhenEmpty && pause.supply && now == dueTick)) {
        return Err(LateAdmission);
      }
      if cfg.syncCapacity < |request.point.synchronizations| {
        return Err(ErrorCode.Capacity);
      }
      var space := Space(request);
      return Ok(if space then Some(at) else None);
    }

    method CommitHead()
      requires Valid() && timing != []
      modifies this
      ensures Valid() && View() == CommitTrigger(old(View()))
    {
      var point := timing[0].point;
      triggeredPolicy := PolicyAfter(point, triggeredPolicy);
      syncSize := if |point.synchronizations| <= syncSize then syncSize - |point.synchronizations| else 0;
      ghost var before := events;
      var queues := events;
      for p := 0 to |events|
        modifies {}
        invariant |queues| == |before|
        invariant forall q | 0 <= q < p :: queues[q] == DropLabel(before[q], point.labelId)
        invariant forall q | p <= q < |before| :: queues[q] == before[q]
      {
        var rest := PopLabel(queues[p], point.labelId);
        queues := queues[p := rest];
      }
      events := queues;
      timing := timing[1..];
      assert events == CommitTrigger(old(View())).events;
    }

    method CommitRequest(request: TimingEvents, due: nat)
      requires Valid() && forall e | e in request.events :: e.action.port < cfg.timing.ports
      modifies this
      ensures Valid() && View() == CommitAdmission(old(View()), request, due)
    {
      admittedPolicy := PolicyAfter(request.point, admittedPolicy);
      syncSize := syncSize + |request.point.synchronizations|;
      timing := timing + [QueuedPoint(request.point, due)];
      ghost var before := events;
      var queues := events;
      for i := 0 to |request.events|
        modifies {}
        invariant |queues| == |before|
        invariant forall p | 0 <= p < |before| :: queues[p] == before[p] + OnPort(request.events[..i], p)
      {
        hide OnPort;
        OneMore(request.events, i);
        var port := request.events[i].action.port;
        queues := queues[port := queues[port] + [request.events[i]]];
      }
      events := queues;
      assert request.events[..|request.events|] == request.events;
      assert events == CommitAdmission(old(View()), request, due).events;
      lastLabel := request.point.labelId;
      lastDue := due;
    }

    /** One clock edge: every check first, then the trigger, the admission, the results and the pause. */
    method Step(now: nat, input: Input) returns (outcome: Result<Output>)
      requires Valid()
      modifies this
      ensures Valid()
      ensures
        var next := Tcu.Step(cfg, old(View()), now, input);
        if next.Ok? then View() == next.value.state && outcome == Ok(next.value.output)
        else View() == old(View()) && outcome == Err(next.error)
    {
      hide PrepareTrigger, PrepareAdmission, CommitTrigger, CommitAdmission, CommitAll, References;
      if !cfg.clock.Edge(now) {
        return Err(ErrorCode.Protocol);
      }
      var state := CurrentTimingState(cfg, State(timing, events, flags, lastDue, lastLabel, closed, admittedPolicy,
                                                 triggeredPolicy, pausedTicks, syncSize), now, input.synchronizationPaused);
      var trigger :- TriggerNow(now, state, input);
      var due := None;
      if input.candidate.Some? {
        due :- AdmitNow(now, input.candidate.value, state.pause);
        AdmittedPorts(cfg, View(), now, input.candidate.value, state.pause);
      }
      var nextFlags :- CommitAll(flags, input.results);
      var nextPaused :- if state.pause.Paused() then CheckedAdd(pausedTicks, cfg.clock.period) else Ok(pausedTicks);
      var output := Output(false, None, [], References(input.results), []);
      if trigger.Some? {
        TriggeredHead(cfg, View(), now, state, input);
        CommitHead();
        output := output.(launch := Some(trigger.value.batch), cancelled := trigger.value.cancelled,
                          synchronizations := trigger.value.synchronizations);
      }
      if due.Some? {
        CommitRequest(input.candidate.value, due.value);
        output := output.(admitted := true);
      }
      CommitsKeep(old(View()), trigger.Some?, input.candidate, due);
      flags := nextFlags;
      pausedTicks := nextPaused;
      return Ok(output);
    }

    method CloseStream(lastLabel: nat) returns (outcome: Result<()>)
      requires Valid()
      modifies this
      ensures Valid()
      ensures
        var next := Close(old(View()), lastLabel);
        if next.Ok? then outcome.Ok? && View() == next.value else outcome == Err(next.error) && View() == old(View())
    {
      if closed || lastLabel != this.lastLabel {
        return Err(ErrorCode.Protocol);
      }
      closed := true;
      return Ok(());
    }

    method IsDrained() returns (drained: bool)
      requires Valid()
      ensures drained == Drained(View())
    {
      drained := closed && timing == [];
      for p := 0 to |events|
        invariant drained == (closed && timing == [] && forall q | 0 <= q < p :: events[q] == [])
      {
        drained := drained && events[p] == [];
      }
      if forall queue | queue in events :: queue == [] {
        forall q | 0 <= q < |events|
          ensures events[q] == []
        {
          assert events[q] in events;
        }
      }
    }
  }

  lemma AdmittedPorts(cfg: TcuConfig, s: State, now: nat, request: TimingEvents, pause: PauseState)
    requires PrepareAdmission(cfg, s, now, request, pause).Ok?
    ensures forall e | e in request.events :: e.action.port < cfg.timing.ports
  {
    hide HasSpace, DueTick, MeetsDeadline;
    ValidateIsValidRequest(request, cfg.timing);
    forall e | e in request.events
      ensures e.action.port < cfg.timing.ports
    {
      assert ValidEvent(request, cfg.timing, e);
    }
  }

  lemma TriggeredHead(cfg: TcuConfig, s: State, now: nat, state: TimingState, input: Input)
    requires PrepareTrigger(cfg, s, now, state, input).Ok? && PrepareTrigger(cfg, s, now, state, input).value.Some?
    ensures s.timing != []
  {
    hide Gather, Select, CheckSynchronizations;
  }

  lemma CommitsKeep(s: State, fires: bool, candidate: Option<TimingEvents>, due: Option<nat>)
    requires (fires ==> s.timing != []) && (due.Some? ==> candidate.Some?)
    ensures
      var s1 := if fires then CommitTrigger(s) else s;
      var s2 := if due.Some? then CommitAdmission(s1, candidate.value, due.value) else s1;
      s2.flags == s.flags && s2.pausedTicks == s.pausedTicks && |s2.events| == |s.events|
  {
  }
}
