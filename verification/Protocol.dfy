/** The records exchanged by the timing control, the TCU and the device, and their validation. */
module Protocol {
  import opened Errors
  import opened Time

  datatype ActionKind = IdealGate | Pulse | Acquire | DiscriminatorArm | GateOutput
  datatype ExecutionFlag = Always | LastOne | LastZero | Equal
  datatype ResourceUse = ResourceUse(id: nat, exclusive: bool)

  /** An output of one port: `gate` names the two-qubit gate of a gate output. */
  datatype Action = Action(
    kind: ActionKind, port: nat, delay: nat, duration: nat, targets: seq<nat>, resources: seq<ResourceUse>,
    flag: ExecutionFlag, gate: nat, separateArm: bool, discriminatorDelay: nat)

  datatype Reference = Reference(measurement: nat, target: nat)
  datatype Completion = Completion(reference: Reference, value: bool)

  datatype Event = Event(
    id: nat, instruction: nat, labelId: nat, sourcePort: nat, codeword: nat, action: Action,
    reference: Option<Reference>)

  datatype Policy = Inherit | Strict | PauseWhenEmpty

  datatype Point = Point(labelId: nat, interval: nat, manifest: seq<nat>, synchronizations: seq<nat>, policy: Policy)

  /** One enqueue request: a time point and its events. */
  datatype TimingEvents = TimingEvents(point: Point, events: seq<Event>)

  datatype TimingConfig = TimingConfig(
    eventCapacity: nat, stagingCapacity: nat, ports: nat, qubits: nat, firingWidth: nat, fastFeedback: bool,
    mappings: map<(nat, nat), seq<Action>>)
  {
    function Mapping(port: nat, codeword: nat): Result<seq<Action>> {
      if ports <= port then Err(InvalidPort)
      else if (port, codeword) !in mappings then Err(InvalidCodeword)
      else Ok(mappings[(port, codeword)])
    }
  }

  const MAX_SYNC_TARGET: nat := 131071

  // ---- Events by port ----

  /** The events of one port, in order. */
  function OnPort(events: seq<Event>, port: nat): seq<Event> {
    if events == [] then []
    else (if events[0].action.port == port then [events[0]] else []) + OnPort(events[1..], port)
  }

  lemma {:induction false} OnPortAppends(xs: seq<Event>, ys: seq<Event>, port: nat)
    ensures OnPort(xs + ys, port) == OnPort(xs, port) + OnPort(ys, port)
    decreases |xs|
  {
    if xs == [] {
      assert xs + ys == ys;
    } else {
      assert (xs + ys)[0] == xs[0] && (xs + ys)[1..] == xs[1..] + ys;
      OnPortAppends(xs[1..], ys, port);
      assert OnPort(xs + ys, port) == (if xs[0].action.port == port then [xs[0]] else []) + OnPort(xs[1..] + ys, port);
    }
  }

  function Ids(events: seq<Event>): (ids: seq<nat>)
    ensures |ids| == |events|
  {
    seq(|events|, i requires 0 <= i < |events| => events[i].id)
  }

  function IdSet(events: seq<Event>): set<nat> {
    set e | e in events :: e.id
  }

  // ---- Validation of a request ----

  /** What a well-formed request is, for every receiver. */
  ghost predicate ValidRequest(r: TimingEvents, cfg: TimingConfig) {
    && (r.point.interval == 0 || r.point.policy != Inherit)
    && |r.events| == |r.point.manifest| && |r.events| <= cfg.stagingCapacity
    && |r.point.synchronizations| <= cfg.stagingCapacity && |r.point.synchronizations| <= 1
    && (forall t | t in r.point.synchronizations :: t <= MAX_SYNC_TARGET)
    && (forall i | 0 <= i < |r.events| :: ValidEvent(r, cfg, r.events[i]) && r.events[i].id == r.point.manifest[i])
    && (forall i, j | 0 <= i < j < |r.events| :: r.events[i].id != r.events[j].id)
    && (forall p: nat | p < cfg.ports ::
          |OnPort(r.events, p)| <= cfg.firingWidth && |OnPort(r.events, p)| <= cfg.eventCapacity)
  }

  ghost predicate ValidEvent(r: TimingEvents, cfg: TimingConfig, e: Event) {
    && e.labelId == r.point.labelId && e.id != 0 && e.action.port < cfg.ports
    && cfg.Mapping(e.sourcePort, e.codeword).Ok? && e.action in cfg.Mapping(e.sourcePort, e.codeword).value
  }

  /** The checks of event i, after those of the events before it. */
  function CheckEvents(r: TimingEvents, cfg: TimingConfig, i: nat): Result<()>
    requires |r.events| == |r.point.manifest| && i <= |r.events|
    decreases |r.events| - i
  {
    if i == |r.events| then Ok(())
    else
      var e := r.events[i];
      var count := |OnPort(r.events[..i + 1], e.action.port)|;
      if !(e.labelId == r.point.labelId && e.id != 0 && e.id == r.point.manifest[i] && e.id !in IdSet(r.events[..i]))
      then Err(ManifestMismatch)
      else if cfg.ports <= e.action.port then Err(InvalidPort)
      else if !(count <= cfg.firingWidth && count <= cfg.eventCapacity) then Err(Capacity)
      else
        var actions :- cfg.Mapping(e.sourcePort, e.codeword);
        if e.action !in actions then Err(ErrorCode.Protocol) else CheckEvents(r, cfg, i + 1)
  }

  function Validate(r: TimingEvents, cfg: TimingConfig): Result<()> {
    if !(r.point.interval == 0 || r.point.policy != Inherit) then Err(ErrorCode.Protocol)
    else if |r.events| != |r.point.manifest| then Err(ManifestMismatch)
    else if cfg.stagingCapacity < |r.events| || cfg.stagingCapacity < |r.point.synchronizations| then Err(Capacity)
    else if 1 < |r.point.synchronizations| then Err(InvalidOperand)
    else if exists t :: t in r.point.synchronizations && MAX_SYNC_TARGET < t then Err(InvalidOperand)
    else CheckEvents(r, cfg, 0)
  }

  /** The validation in the form the source runs it: one pass with a set of ids and a counter per port. */
  method ValidateTimingEvents(r: TimingEvents, cfg: TimingConfig) returns (outcome: Result<()>)
    ensures outcome == Validate(r, cfg)
  {
    if !(r.point.interval == 0 || r.point.policy != Inherit) {
      return Err(ErrorCode.Protocol);
    }
    if |r.events| != |r.point.manifest| {
      return Err(ManifestMismatch);
    }
    if cfg.stagingCapacity < |r.events| || cfg.stagingCapacity < |r.point.synchronizations| {
      return Err(Capacity);
    }
    if 1 < |r.point.synchronizations| || (r.point.synchronizations != [] && MAX_SYNC_TARGET < r.point.synchronizations[0]) {
      assert 1 == |r.point.synchronizations| ==> r.point.synchronizations[0] in r.point.synchronizations;
      return Err(InvalidOperand);
    }
    var ids: set<nat> := {};
    var counts := seq(cfg.ports, _ => 0);
    for i := 0 to |r.events|
      invariant ids == IdSet(r.events[..i])
      invariant |counts| == cfg.ports && forall p: nat | p < cfg.ports :: counts[p] == |OnPort(r.events[..i], p)|
      invariant Validate(r, cfg) == CheckEvents(r, cfg, i)
    {
      var e := r.events[i];
      assert r.events[..i + 1] == r.events[..i] + [e];
      if !(e.labelId == r.point.labelId && e.id != 0 && e.id == r.point.manifest[i] && e.id !in ids) {
        return Err(ManifestMismatch);
      }
      if cfg.ports <= e.action.port {
        return Err(InvalidPort);
      }
      OneMore(r.events, i);
      ids := ids + {e.id};
      counts := counts[e.action.port := counts[e.action.port] + 1];
      if !(counts[e.action.port] <= cfg.firingWidth && counts[e.action.port] <= cfg.eventCapacity) {
        return Err(Capacity);
      }
      var actions :- cfg.Mapping(e.sourcePort, e.codeword);
      if e.action !in actions {
        return Err(ErrorCode.Protocol);
      }
    }
    return Ok(());
  }

  lemma OneMore(events: seq<Event>, i: nat)
    requires i < |events|
    ensures IdSet(events[..i + 1]) == IdSet(events[..i]) + {events[i].id}
    ensures forall p :: OnPort(events[..i + 1], p) == OnPort(events[..i], p) + if events[i].action.port == p then [events[i]] else []
  {
    assert events[..i + 1] == events[..i] + [events[i]];
    forall p
      ensures OnPort(events[..i + 1], p) == OnPort(events[..i], p) + if events[i].action.port == p then [events[i]] else []
    {
      OnPortAppends(events[..i], [events[i]], p);
    }
  }

  ghost predicate PrefixValid(r: TimingEvents, cfg: TimingConfig, n: nat)
    requires |r.events| == |r.point.manifest| && n <= |r.events|
  {
    && (forall i | 0 <= i < n :: ValidEvent(r, cfg, r.events[i]) && r.events[i].id == r.point.manifest[i])
    && (forall i, j | 0 <= i < j < n :: r.events[i].id != r.events[j].id)
    && (forall p: nat | p < cfg.ports ::
          |OnPort(r.events[..n], p)| <= cfg.firingWidth && |OnPort(r.events[..n], p)| <= cfg.eventCapacity)
  }

  lemma PrefixGrows(r: TimingEvents, cfg: TimingConfig, i: nat)
    requires |r.events| == |r.point.manifest| && i < |r.events|
    ensures PrefixValid(r, cfg, i + 1) ==> PrefixValid(r, cfg, i)
  {
    OneMore(r.events, i);
    forall p: nat | p < cfg.ports
      ensures |OnPort(r.events[..i], p)| <= |OnPort(r.events[..i + 1], p)|
    {
    }
  }

  lemma CheckedEventExtendsPrefix(r: TimingEvents, cfg: TimingConfig, i: nat)
    requires |r.events| == |r.point.manifest| && i < |r.events| && PrefixValid(r, cfg, i)
    ensures
      var e := r.events[i];
      var count := |OnPort(r.events[..i + 1], e.action.port)|;
      PrefixValid(r, cfg, i + 1)
      <==> && ValidEvent(r, cfg, e) && e.id == r.point.manifest[i] && e.id !in IdSet(r.events[..i])
           && count <= cfg.firingWidth && count <= cfg.eventCapacity
  {
    hide OnPort;
    OneMore(r.events, i);
    var e := r.events[i];
    if e.id in IdSet(r.events[..i]) {
      var d :| d in r.events[..i] && d.id == e.id;
      var j :| 0 <= j < i && r.events[j] == d;
    } else {
      FreshIdDiffers(r.events, i);
      var count := |OnPort(r.events[..i + 1], e.action.port)|;
      if ValidEvent(r, cfg, e) && e.id == r.point.manifest[i] && count <= cfg.firingWidth && count <= cfg.eventCapacity {
        var more := r.events[..i + 1];
        forall p: nat | p < cfg.ports
          ensures |OnPort(more, p)| <= cfg.firingWidth && |OnPort(more, p)| <= cfg.eventCapacity
        {
          assert |OnPort(r.events[..i], p)| <= cfg.firingWidth;
        }
        assert PrefixValid(r, cfg, i + 1);
      }
    }
  }

  lemma FreshIdDiffers(events: seq<Event>, i: nat)
    requires i < |events| && events[i].id !in IdSet(events[..i])
    ensures forall j | 0 <= j < i :: events[j].id != events[i].id
  {
    forall j | 0 <= j < i
      ensures events[j].id != events[i].id
    {
      assert events[j] in events[..i];
    }
  }

  lemma {:induction false} CheckIsPrefix(r: TimingEvents, cfg: TimingConfig, i: nat)
    requires |r.events| == |r.point.manifest| && i <= |r.events| && PrefixValid(r, cfg, i)
    ensures CheckEvents(r, cfg, i).Ok? <==> PrefixValid(r, cfg, |r.events|)
    decreases |r.events| - i
  {
    hide PrefixValid, OnPort, IdSet;
    if i < |r.events| {
      CheckedEventExtendsPrefix(r, cfg, i);
      if PrefixValid(r, cfg, i + 1) {
        CheckIsPrefix(r, cfg, i + 1);
      } else {
        PrefixesFail(r, cfg, i + 1);
      }
    }
  }

  lemma {:induction false} PrefixesFail(r: TimingEvents, cfg: TimingConfig, n: nat)
    requires |r.events| == |r.point.manifest| && n <= |r.events| && !PrefixValid(r, cfg, n)
    ensures !PrefixValid(r, cfg, |r.events|)
    decreases |r.events| - n
  {
    hide PrefixValid;
    if n < |r.events| {
      PrefixGrows(r, cfg, n);
      PrefixesFail(r, cfg, n + 1);
    }
  }

  /** The one-pass validation accepts exactly the well-formed requests. */
  lemma ValidateIsValidRequest(r: TimingEvents, cfg: TimingConfig)
    ensures Validate(r, cfg).Ok? <==> ValidRequest(r, cfg)
  {
    if |r.events| == |r.point.manifest| {
      assert r.events[..|r.events|] == r.events;
      CheckIsPrefix(r, cfg, 0);
    }
    hide CheckEvents, ValidEvent;
  }

  // ---- Execution flags ----

  datatype FlagRegister = FlagRegister(lastMeasurement: nat, lastOne: bool, lastZero: bool, equal: bool)

  const CLEAR_FLAGS := FlagRegister(0, false, false, false)

  function Evaluate(flags: seq<FlagRegister>, target: nat, flag: ExecutionFlag): Result<bool> {
    if |flags| <= target then Err(InvalidOperand)
    else
      Ok(match flag
         case Always => true
         case LastOne => flags[target].lastOne
         case LastZero => flags[target].lastZero
         case Equal => flags[target].equal)
  }

  function CommitFlags(flags: seq<FlagRegister>, c: Completion): Result<seq<FlagRegister>> {
    if |flags| <= c.reference.target then Err(InvalidMeasurement)
    else
      var reg := flags[c.reference.target];
      if c.reference.measurement <= reg.lastMeasurement then Err(ErrorCode.Protocol)
      else
        Ok(flags[c.reference.target :=
             FlagRegister(c.reference.measurement, c.value, !c.value,
                          reg.lastMeasurement != 0 && reg.lastOne == c.value)])
  }

  function CommitAll(flags: seq<FlagRegister>, results: seq<Completion>): Result<seq<FlagRegister>>
    decreases |results|
  {
    if results == [] then Ok(flags)
    else
      var first :- CommitFlags(flags, results[0]);
      CommitAll(first, results[1..])
  }

  /** The committed values of one target, oldest first. */
  function ValuesOf(results: seq<Completion>, target: nat): seq<bool> {
    if results == [] then []
    else (if results[0].reference.target == target then [results[0].value] else []) + ValuesOf(results[1..], target)
  }

  /** What a target's flags say after the values `vs`: the last value, and whether it repeats the one before. */
  ghost predicate FlagsShow(reg: FlagRegister, vs: seq<bool>) {
    if vs == [] then reg == CLEAR_FLAGS
    else
      var last := vs[|vs| - 1];
      && reg.lastMeasurement != 0 && reg.lastOne == last && reg.lastZero == !last
      && reg.equal == (2 <= |vs| && vs[|vs| - 2] == last)
  }

  /** The conditional-execution flags of a target reflect exactly its committed results so far. */
  lemma {:induction false} FlagsReflectResults(flags: seq<FlagRegister>, before: seq<bool>, results: seq<Completion>, target: nat)
    requires target < |flags| && FlagsShow(flags[target], before) && CommitAll(flags, results).Ok?
    ensures |CommitAll(flags, results).value| == |flags|
    ensures FlagsShow(CommitAll(flags, results).value[target], before + ValuesOf(results, target))
    decreases |results|
  {
    if results == [] {
      assert before + [] == before;
    } else {
      var first := CommitFlags(flags, results[0]).value;
      var more := if results[0].reference.target == target then before + [results[0].value] else before;
      assert before + ValuesOf(results, target) == more + ValuesOf(results[1..], target);
      FlagsReflectResults(first, more, results[1..], target);
    }
  }
}
