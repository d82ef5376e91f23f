/** Whole runs of the TCU, stepped on every edge: when each admitted point fires, and which guards cannot. */
module TcuRuns {
  import opened Errors
  import opened Time
  import opened Protocol
  import opened Tcu
  import opened TcuQueues

  /** A fired point: its tick, the paused edges before it, and what became of its events. */
  datatype Firing = Firing(tick: nat, pausedEdges: nat, flags: seq<FlagRegister>, launched: seq<Event>, cancelled: seq<Event>)

  /**
   * A TCU with its history. `cycle` counts the unpaused edges since the start, `pausedEdges` the
   * paused ones, and `next` is the edge to process.
   */
  datatype Run = Run(tcu: State, admitted: seq<Admission>, fired: seq<Firing>, cycle: nat, pausedEdges: nat, next: nat)

  function Advance(cfg: TcuConfig, r: Run, input: Input): Result<Run>
    requires cfg.Valid()
  {
    var stepped :- Step(cfg, r.tcu, r.next, input);
    var state := CurrentTimingState(cfg, r.tcu, r.next, input.synchronizationPaused);
    Ok(Run(stepped.state,
           if stepped.output.admitted && input.candidate.Some? then r.admitted + [Admission(input.candidate.value, stepped.state.lastDue)]
           else r.admitted,
           if stepped.output.launch.Some? then
             r.fired + [Firing(r.next, r.pausedEdges, r.tcu.flags, stepped.output.launch.value.events, stepped.output.cancelled)]
           else r.fired,
           if state.running && !state.pause.Paused() then r.cycle + 1 else r.cycle,
           if state.pause.Paused() then r.pausedEdges + 1 else r.pausedEdges,
           r.next + cfg.clock.period))
  }

  function Begin(cfg: TcuConfig, origin: nat): Run {
    Run(Empty(cfg), [], [], 0, 0, origin)
  }

  /** Admitted points fire in order; these have not fired yet. */
  function Waiting(r: Run): seq<Admission> {
    if |r.fired| <= |r.admitted| then r.admitted[|r.fired|..] else []
  }

  /** Each point is due one effective interval after the one before it; the first counts from cycle zero. */
  ghost predicate DuesAccumulate(admitted: seq<Admission>) {
    && (admitted != [] ==> admitted[0].due == admitted[0].request.point.interval)
    && forall i | 0 < i < |admitted| :: admitted[i].due == admitted[i - 1].due + Max(1, admitted[i].request.point.interval)
  }

  ghost predicate AdmissionsOk(cfg: TcuConfig, r: Run) {
    && |r.fired| <= |r.admitted|
    && Labelled(r.admitted, 1, cfg.timing)
    && DuesAccumulate(r.admitted)
    && r.tcu.lastLabel == |r.admitted|
    && r.tcu.lastDue == (if r.admitted == [] then 0 else r.admitted[|r.admitted| - 1].due)
    && r.tcu.admittedPolicy == PolicyFold(r.admitted)
    && r.tcu.triggeredPolicy == PolicyFold(r.admitted[..|r.fired|])
  }

  /** Logical time: the run's edges since the start are exactly its cycles and its paused edges. */
  ghost predicate TimeOk(cfg: TcuConfig, r: Run)
    requires cfg.Valid()
  {
    && cfg.clock.Edge(r.next)
    && r.tcu.pausedTicks == r.pausedEdges * cfg.clock.period
    && (r.next <= cfg.start ==> r.cycle == 0 && r.pausedEdges == 0)
    && (cfg.start <= r.next ==> r.next == cfg.start + (r.cycle + r.pausedEdges) * cfg.clock.period)
    && (forall a | a in Waiting(r) :: r.cycle <= a.due)
  }

  ghost predicate FiredOk(cfg: TcuConfig, r: Run)
    requires |r.fired| <= |r.admitted|
  {
    forall i | 0 <= i < |r.fired| :: FiringOk(cfg, r.fired[i], r.admitted[i])
  }

  /** A point fires at its due cycle, delayed by the paused edges so far, with every event launched or cancelled. */
  ghost predicate FiringOk(cfg: TcuConfig, f: Firing, a: Admission) {
    && f.tick == cfg.start + (a.due + f.pausedEdges) * cfg.clock.period
    && Decidable(a.request.events, f.flags)
    && f.launched == Allowed(a.request.events, f.flags)
    && f.cancelled == Refused(a.request.events, f.flags)
  }

  ghost predicate RunOk(cfg: TcuConfig, r: Run)
    requires cfg.Valid()
  {
    AdmissionsOk(cfg, r) && QueuesHold(cfg, r.tcu, Waiting(r)) && TimeOk(cfg, r) && FiredOk(cfg, r)
  }

  lemma BeginIsOk(cfg: TcuConfig, origin: nat)
    requires cfg.Valid() && cfg.clock.Edge(origin) && origin <= cfg.start
    ensures RunOk(cfg, Begin(cfg, origin))
  {
    var r := Begin(cfg, origin);
    assert forall p: nat | p < cfg.timing.ports :: r.tcu.events[p] == PortQueue([], p);
    assert cfg.start <= origin ==> origin == cfg.start + 0 * cfg.clock.period;
  }

  // ---- Logical time ----

  /** The cycle the TCU computes from the tick is the number of unpaused edges since the start. */
  lemma CycleIsCount(cfg: TcuConfig, r: Run, paused: bool)
    requires cfg.Valid() && TimeOk(cfg, r) && r.next <= MAX_TICK
    ensures cfg.start <= r.next ==> CurrentTimingState(cfg, r.tcu, r.next, paused).cycle == r.cycle
    ensures r.next < cfg.start ==> !CurrentTimingState(cfg, r.tcu, r.next, paused).running
  {
    if cfg.start <= r.next {
      var elapsed := r.next - cfg.start - r.tcu.pausedTicks;
      assert (r.cycle + r.pausedEdges) * cfg.clock.period == r.cycle * cfg.clock.period + r.pausedEdges * cfg.clock.period;
      assert elapsed == r.cycle * cfg.clock.period;
      DivUnique(elapsed, TWO_64, 0, elapsed);
      DivUnique(elapsed, cfg.clock.period, r.cycle, 0);
    }
  }

  /** The comparison of ticks in the deadline check is the comparison of cycles. */
  lemma DeadlineInCycles(cfg: TcuConfig, r: Run, due: nat)
    requires cfg.Valid() && TimeOk(cfg, r) && cfg.start <= r.next && DueTick(cfg, r.tcu, due).Ok?
    ensures r.next < DueTick(cfg, r.tcu, due).value <==> r.cycle < due
    ensures r.next == DueTick(cfg, r.tcu, due).value <==> r.cycle == due
  {
    CheckedMulIsExact(due, cfg.clock.period);
    CompareMultiples(cfg.clock.period, r.cycle, due);
    assert (r.cycle + r.pausedEdges) * cfg.clock.period == r.cycle * cfg.clock.period + r.pausedEdges * cfg.clock.period;
  }

  lemma CompareMultiples(p: nat, a: nat, b: nat)
    requires 0 < p
    ensures (a * p < b * p <==> a < b) && (a * p == b * p <==> a == b)
  {
    if a < b {
      MulMonotone(p, a + 1, b);
    } else if b < a {
      MulMonotone(p, b + 1, a);
    }
  }

  lemma {:induction false} DuesIncrease(admitted: seq<Admission>, i: nat, j: nat)
    requires DuesAccumulate(admitted) && i < j < |admitted|
    ensures admitted[i].due < admitted[j].due
    decreases j
  {
    if i < j - 1 {
      DuesIncrease(admitted, i, j - 1);
    }
  }

  // ---- Triggering ----

  /** The head fires at this edge: the timer runs, nothing pauses it, and the head's cycle is now. */
  predicate Fires(cfg: TcuConfig, r: Run, state: TimingState) {
    cfg.start <= r.next && !state.pause.Paused() && Waiting(r) != [] && Waiting(r)[0].due == r.cycle
  }

  function HeadTrigger(r: Run): Trigger
    requires Waiting(r) != []
  {
    var request := Waiting(r)[0].request;
    Trigger(Triggered(request.point.labelId, r.next, Allowed(request.events, r.tcu.flags)),
            Refused(request.events, r.tcu.flags), request.point.synchronizations)
  }

  /** The two checks made outside the TCU: the device's, then the synchronization unit's. */
  function OutsideChecks(t: Trigger, input: Input): Result<()> {
    var _ :- input.preflight(t.batch);
    CheckSynchronizations(t.synchronizations, input)
  }

  lemma WaitingLabels(cfg: TcuConfig, r: Run)
    requires AdmissionsOk(cfg, r)
    ensures Labelled(Waiting(r), |r.fired| + 1, cfg.timing)
  {
    forall i | 0 <= i < |Waiting(r)|
      ensures ValidRequest(Waiting(r)[i].request, cfg.timing) && Waiting(r)[i].request.point.labelId == |r.fired| + 1 + i
    {
      assert Waiting(r)[i] == r.admitted[|r.fired| + i];
    }
  }

  /** At the head's label the port queues hold exactly the head's events, so the manifest always matches. */
  lemma HeadMatches(cfg: TcuConfig, r: Run)
    requires cfg.Valid() && AdmissionsOk(cfg, r) && QueuesHold(cfg, r.tcu, Waiting(r)) && Waiting(r) != []
    ensures
      var request := Waiting(r)[0].request;
      var gathered := Gather(r.tcu.events, request.point.labelId, map[]);
      && r.tcu.timing != [] && r.tcu.timing[0] == QueuedPoint(request.point, Waiting(r)[0].due)
      && gathered.Ok? && |gathered.value| == |request.point.manifest|
      && (var chosen := Select(request.point.manifest, gathered.value, r.tcu.flags, Selection([], []));
          if Decidable(request.events, r.tcu.flags)
          then chosen == Ok(Selection(Allowed(request.events, r.tcu.flags), Refused(request.events, r.tcu.flags)))
          else chosen == Err(InvalidOperand))
  {
    WaitingLabels(cfg, r);
    var request := Waiting(r)[0].request;
    assert ValidRequest(request, cfg.timing) && request.point.labelId == |r.fired| + 1;
    hide ValidEvent, OnPort, PortQueue, AdmissionsOk;
    GatherFindsHead(cfg, r.tcu, Waiting(r), |r.fired| + 1);
    var gathered := Gather(r.tcu.events, request.point.labelId, map[]).value;
    hide Gather, QueuesHold, Labelled, Decidable, Allowed, Refused;
    SelectSplits(request.events, request.point.manifest, gathered, r.tcu.flags, Selection([], []));
    assert [] + Allowed(request.events, r.tcu.flags) == Allowed(request.events, r.tcu.flags);
    assert [] + Refused(request.events, r.tcu.flags) == Refused(request.events, r.tcu.flags);
  }

  /**
   * The guards on a missed firing edge and on mismatched queues are unreachable: an edge fires
   * nothing, or exactly the head's events, and only the checks made outside the TCU, or a flag
   * that its configuration does not define, can refuse it.
   */
  lemma TriggerIsHead(cfg: TcuConfig, r: Run, input: Input)
    requires cfg.Valid() && RunOk(cfg, r) && r.next <= MAX_TICK
    ensures
      var state := CurrentTimingState(cfg, r.tcu, r.next, input.synchronizationPaused);
      var prepared := PrepareTrigger(cfg, r.tcu, r.next, state, input);
      if !Fires(cfg, r, state) then prepared == Ok(None)
      else if !Decidable(Waiting(r)[0].request.events, r.tcu.flags) then prepared == Err(InvalidOperand)
      else
        var checks := OutsideChecks(HeadTrigger(r), input);
        prepared == if checks.Ok? then Ok(Some(HeadTrigger(r))) else Err(checks.error)
  {
    CycleIsCount(cfg, r, input.synchronizationPaused);
    assert |r.tcu.timing| == |Waiting(r)|;
    if Waiting(r) != [] {
      HeadMatches(cfg, r);
      assert Waiting(r)[0] in Waiting(r);
    }
    hide Gather, Select, Allowed, Refused, Decidable, AdmissionsOk, QueuesHold, FiredOk, Waiting;
  }

  // ---- What an edge changes ----

  lemma TriggerDropsHead(cfg: TcuConfig, s: State, waiting: seq<Admission>, first: nat)
    requires waiting != [] && Labelled(waiting, first, cfg.timing) && QueuesHold(cfg, s, waiting)
    ensures s.timing != [] && QueuesHold(cfg, CommitTrigger(s), waiting[1..])
  {
    hide ValidRequest, OnPort;
    var t := CommitTrigger(s);
    assert s.timing[0] == QueuedPoint(waiting[0].request.point, waiting[0].due);
    assert t.timing == QueueOf(waiting[1..]);
    forall p | 0 <= p < |s.events|
      ensures t.events[p] == PortQueue(waiting[1..], p)
    {
      HeadOfPort(waiting, first, cfg.timing, p);
      DropOwn(OnPort(waiting[0].request.events, p), PortQueue(waiting[1..], p), first);
    }
  }

  lemma AdmissionAppends(cfg: TcuConfig, s: State, waiting: seq<Admission>, request: TimingEvents, due: nat)
    requires QueuesHold(cfg, s, waiting)
    ensures QueuesHold(cfg, CommitAdmission(s, request, due), waiting + [Admission(request, due)])
  {
    hide OnPort;
    var t := CommitAdmission(s, request, due);
    var a := Admission(request, due);
    assert t.timing == QueueOf(waiting + [a]);
    PortQueueAppends(waiting, a, 0);
    forall p | 0 <= p < |s.events|
      ensures t.events[p] == PortQueue(waiting + [a], p)
    {
      PortQueueAppends(waiting, a, p);
    }
  }

  function HeadFiring(r: Run): Firing
    requires Waiting(r) != []
  {
    Firing(r.next, r.pausedEdges, r.tcu.flags, HeadTrigger(r).batch.events, HeadTrigger(r).cancelled)
  }

  function Committed(s: State, fires: bool, admission: Option<Admission>): State {
    var s1 := if fires && s.timing != [] then CommitTrigger(s) else s;
    if admission.Some? then CommitAdmission(s1, admission.value.request, admission.value.due) else s1
  }

  /** What one successful edge does to a run: the head may fire, a request may be admitted, the timer may pause. */
  ghost predicate Edge(cfg: TcuConfig, r: Run, r': Run, fires: bool, admission: Option<Admission>, paused: bool)
    requires fires ==> Waiting(r) != []
  {
    && r'.next == r.next + cfg.clock.period
    && r'.cycle == (if cfg.start <= r.next && !paused then r.cycle + 1 else r.cycle)
    && r'.pausedEdges == (if paused then r.pausedEdges + 1 else r.pausedEdges)
    && r'.tcu.pausedTicks == (if paused then r.tcu.pausedTicks + cfg.clock.period else r.tcu.pausedTicks)
    && r'.fired == r.fired + (if fires then [HeadFiring(r)] else [])
    && r'.admitted == r.admitted + (if admission.Some? then [admission.value] else [])
    && r'.tcu == Committed(r.tcu, fires, admission).(flags := r'.tcu.flags, pausedTicks := r'.tcu.pausedTicks)
  }

  /** The request admitted at an edge, if there is one. */
  function AdmittedBy(cfg: TcuConfig, r: Run, input: Input): Option<Admission>
    requires cfg.Valid()
  {
    var state := CurrentTimingState(cfg, r.tcu, r.next, input.synchronizationPaused);
    if input.candidate.None? then None
    else
      var due := PrepareAdmission(cfg, r.tcu, r.next, input.candidate.value, state.pause);
      if due.Ok? && due.value.Some? then Some(Admission(input.candidate.value, due.value.value)) else None
  }

  ghost predicate Admissible(cfg: TcuConfig, r: Run, a: Admission, pause: PauseState) {
    && a.due == r.tcu.lastDue + EffectiveInterval(r.tcu, a.request.point)
    && ValidRequest(a.request, cfg.timing) && a.request.point.labelId == r.tcu.lastLabel + 1
    && DueTick(cfg, r.tcu, a.due).Ok? && MeetsDeadline(r.tcu, r.next, DueTick(cfg, r.tcu, a.due).value, pause)
    && !r.tcu.closed && HasSpace(cfg, r.tcu, a.request)
  }

  lemma AdmittedIsAdmissible(cfg: TcuConfig, r: Run, input: Input)
    requires cfg.Valid() && AdmittedBy(cfg, r, input).Some?
    ensures Admissible(cfg, r, AdmittedBy(cfg, r, input).value,
                       CurrentTimingState(cfg, r.tcu, r.next, input.synchronizationPaused).pause)
  {
    hide Validate, DueTick, HasSpace, ValidRequest, MeetsDeadline;
    ValidateIsValidRequest(input.candidate.value, cfg.timing);
  }

  predicate FiresNow(cfg: TcuConfig, r: Run, input: Input)
    requires cfg.Valid()
  {
    Fires(cfg, r, CurrentTimingState(cfg, r.tcu, r.next, input.synchronizationPaused))
  }

  predicate PausedNow(cfg: TcuConfig, r: Run, input: Input)
    requires cfg.Valid()
  {
    CurrentTimingState(cfg, r.tcu, r.next, input.synchronizationPaused).pause.Paused()
  }

  lemma AdvanceIsEdge(cfg: TcuConfig, r: Run, input: Input)
    requires cfg.Valid() && RunOk(cfg, r) && r.next <= MAX_TICK && Advance(cfg, r, input).Ok?
    ensures Edge(cfg, r, Advance(cfg, r, input).value, FiresNow(cfg, r, input), AdmittedBy(cfg, r, input), PausedNow(cfg, r, input))
    ensures FiresNow(cfg, r, input) ==> Decidable(Waiting(r)[0].request.events, r.tcu.flags)
  {
    hide RunOk, PrepareAdmission, OutsideChecks, CommitAll, Decidable, CommitTrigger, CommitAdmission, Waiting,
      HeadTrigger, PrepareTrigger, Step;
    WaitingIsQueued(cfg, r);
    TriggerIsHead(cfg, r, input);
    StepCommits(cfg, r.tcu, r.next, input);
  }

  lemma WaitingIsQueued(cfg: TcuConfig, r: Run)
    requires cfg.Valid() && RunOk(cfg, r)
    ensures |r.tcu.timing| == |Waiting(r)|
  {
    hide TimeOk, FiredOk, AdmissionsOk;
  }

  /** A successful step, in terms of what its preparations found. */
  lemma StepCommits(cfg: TcuConfig, s: State, now: nat, input: Input)
    requires cfg.Valid() && Step(cfg, s, now, input).Ok?
    ensures
      var stepped := Step(cfg, s, now, input).value;
      var state := CurrentTimingState(cfg, s, now, input.synchronizationPaused);
      var trigger := PrepareTrigger(cfg, s, now, state, input);
      var due := if input.candidate.Some? then PrepareAdmission(cfg, s, now, input.candidate.value, state.pause) else Ok(None);
      && trigger.Ok? && due.Ok?
      && stepped.output.admitted == due.value.Some?
      && stepped.output.launch == (if trigger.value.Some? then Some(trigger.value.value.batch) else None)
      && stepped.output.cancelled == (if trigger.value.Some? then trigger.value.value.cancelled else [])
      && stepped.state.pausedTicks == (if state.pause.Paused() then s.pausedTicks + cfg.clock.period else s.pausedTicks)
      && stepped.state == Committed(s, trigger.value.Some?,
                                    if input.candidate.Some? && due.value.Some? then Some(Admission(input.candidate.value, due.value.value)) else None)
                          .(flags := stepped.state.flags, pausedTicks := stepped.state.pausedTicks)
      && (due.value.Some? ==> stepped.state.lastDue == due.value.value)
  {
    hide PrepareAdmission, PrepareTrigger, CurrentTimingState, CommitAll;
  }

  lemma EdgeKeepsQueues(cfg: TcuConfig, r: Run, r': Run, fires: bool, admission: Option<Admission>, paused: bool)
    requires cfg.Valid() && RunOk(cfg, r) && (fires ==> Waiting(r) != []) && Edge(cfg, r, r', fires, admission, paused)
    ensures |r'.fired| <= |r'.admitted| && QueuesHold(cfg, r'.tcu, Waiting(r'))
  {
    hide TimeOk, FiredOk, CommitTrigger, CommitAdmission, HeadTrigger, Labelled;
    WaitingLabels(cfg, r);
    assert |r.tcu.timing| == |Waiting(r)|;
    hide QueuesHold;
    var s1 := if fires then CommitTrigger(r.tcu) else r.tcu;
    var w1 := if fires then Waiting(r)[1..] else Waiting(r);
    if fires {
      TriggerDropsHead(cfg, r.tcu, Waiting(r), |r.fired| + 1);
    }
    if admission.Some? {
      AdmissionAppends(cfg, s1, w1, admission.value.request, admission.value.due);
      assert Waiting(r') == w1 + [admission.value];
      FlagsAside(cfg, CommitAdmission(s1, admission.value.request, admission.value.due), r'.tcu, Waiting(r'));
    } else {
      assert Waiting(r') == w1;
      FlagsAside(cfg, s1, r'.tcu, w1);
    }
  }

  lemma FlagsAside(cfg: TcuConfig, s: State, t: State, waiting: seq<Admission>)
    requires t == s.(flags := t.flags, pausedTicks := t.pausedTicks) && QueuesHold(cfg, s, waiting)
    ensures QueuesHold(cfg, t, waiting)
  {
  }

  lemma EdgeKeepsAdmissions(cfg: TcuConfig, r: Run, r': Run, fires: bool, admission: Option<Admission>, paused: bool, pause: PauseState)
    requires cfg.Valid() && RunOk(cfg, r) && (fires ==> Waiting(r) != []) && Edge(cfg, r, r', fires, admission, paused)
    requires admission.Some? ==> Admissible(cfg, r, admission.value, pause)
    ensures AdmissionsOk(cfg, r')
  {
    hide TimeOk, FiredOk, Admissible, HeadTrigger, QueuesHold, Labelled, DuesAccumulate, Committed;
    HeadIsQueued(cfg, r);
    CommittedFields(r.tcu, fires, admission);
    EdgeKeepsPolicies(r.admitted, r'.admitted, |r.fired|, |r'.fired|);
    if admission.Some? {
      AdmissionExtends(cfg, r, admission.value, pause);
    } else {
      assert r'.admitted == r.admitted;
    }
  }

  lemma CommittedFields(s: State, fires: bool, admission: Option<Admission>)
    requires fires ==> s.timing != []
    ensures
      var t := Committed(s, fires, admission);
      && t.triggeredPolicy == (if fires then PolicyAfter(s.timing[0].point, s.triggeredPolicy) else s.triggeredPolicy)
      && t.admittedPolicy == (if admission.Some? then PolicyAfter(admission.value.request.point, s.admittedPolicy) else s.admittedPolicy)
      && t.lastLabel == (if admission.Some? then admission.value.request.point.labelId else s.lastLabel)
      && t.lastDue == (if admission.Some? then admission.value.due else s.lastDue)
      && t.closed == s.closed
  {
  }

  lemma EdgeKeepsPolicies(xs: seq<Admission>, ys: seq<Admission>, k: nat, k': nat)
    requires k <= |xs| <= |ys| <= |xs| + 1 && ys[..|xs|] == xs && k <= k' <= k + 1 && k' <= |xs|
    ensures PolicyFold(ys[..k']) == if k' == k then PolicyFold(xs[..k]) else PolicyAfter(xs[k].request.point, PolicyFold(xs[..k]))
    ensures PolicyFold(ys) == if |ys| == |xs| then PolicyFold(xs) else PolicyAfter(ys[|xs|].request.point, PolicyFold(xs))
  {
    hide PolicyAfter;
    PolicyOfPrefix(xs, ys, k);
    PolicyOfPrefix(xs, ys, k');
    if k < k' {
      PolicyOfNext(xs, k);
    }
    if |xs| < |ys| {
      PolicyOfNext(ys, |xs|);
    }
  }

  /** An admissible request extends the labels and the due cycles. */
  lemma AdmissionExtends(cfg: TcuConfig, r: Run, a: Admission, pause: PauseState)
    requires cfg.Valid() && AdmissionsOk(cfg, r) && Admissible(cfg, r, a, pause)
    ensures Labelled(r.admitted + [a], 1, cfg.timing) && DuesAccumulate(r.admitted + [a])
    ensures a.request.point.labelId == |r.admitted| + 1
  {
    hide HasSpace, DueTick, MeetsDeadline, ValidRequest, PolicyFold;
  }

  lemma PolicyOfPrefix(xs: seq<Admission>, ys: seq<Admission>, k: nat)
    requires k <= |xs| <= |ys| && xs == ys[..|xs|]
    ensures ys[..k] == xs[..k] && xs[..|xs|] == xs && ys[..|ys|] == ys
  {
  }

  lemma PolicyOfNext(xs: seq<Admission>, k: nat)
    requires k < |xs|
    ensures PolicyFold(xs[..k + 1]) == PolicyAfter(xs[k].request.point, PolicyFold(xs[..k]))
  {
    assert xs[..k + 1][..k] == xs[..k];
  }

  lemma HeadIsQueued(cfg: TcuConfig, r: Run)
    requires cfg.Valid() && RunOk(cfg, r)
    ensures |r.tcu.timing| == |Waiting(r)|
    ensures Waiting(r) != [] ==> |r.fired| < |r.admitted| && Waiting(r)[0] == r.admitted[|r.fired|]
                                 && r.tcu.timing[0].point == r.admitted[|r.fired|].request.point
  {
    hide TimeOk, FiredOk;
  }

  lemma EdgeKeepsTime(cfg: TcuConfig, r: Run, input: Input, r': Run)
    requires cfg.Valid() && RunOk(cfg, r) && r.next <= MAX_TICK
    requires
      && (FiresNow(cfg, r, input) ==> Waiting(r) != [])
      && Edge(cfg, r, r', FiresNow(cfg, r, input), AdmittedBy(cfg, r, input), PausedNow(cfg, r, input))
    requires |r'.fired| <= |r'.admitted|
    ensures TimeOk(cfg, r')
  {
    hide QueuesHold, FiredOk, AdmissionsOk, PrepareAdmission, Committed, HeadTrigger, AdmittedBy, FiresNow, Waiting;
    CycleIsCount(cfg, r, input.synchronizationPaused);
    NextEdge(cfg.clock, r.next);
    TimePasses(cfg, r.cycle, r.pausedEdges, r.next);
    if r.next < cfg.start {
      EdgeGap(cfg.clock, r.next, cfg.start);
    }
    forall a | a in Waiting(r')
      ensures r'.cycle <= a.due
    {
      WaitingIsDue(cfg, r, input, r', a);
    }
  }

  lemma TimePasses(cfg: TcuConfig, cycle: nat, pausedEdges: nat, next: nat)
    ensures (cycle + 1 + pausedEdges) * cfg.clock.period == (cycle + pausedEdges) * cfg.clock.period + cfg.clock.period
    ensures (cycle + (pausedEdges + 1)) * cfg.clock.period == (cycle + pausedEdges) * cfg.clock.period + cfg.clock.period
    ensures (pausedEdges + 1) * cfg.clock.period == pausedEdges * cfg.clock.period + cfg.clock.period
  {
  }

  lemma WaitingIsDue(cfg: TcuConfig, r: Run, input: Input, r': Run, a: Admission)
    requires cfg.Valid() && RunOk(cfg, r) && r.next <= MAX_TICK
    requires
      && (FiresNow(cfg, r, input) ==> Waiting(r) != [])
      && Edge(cfg, r, r', FiresNow(cfg, r, input), AdmittedBy(cfg, r, input), PausedNow(cfg, r, input))
    requires |r'.fired| <= |r'.admitted| && a in Waiting(r')
    ensures r'.cycle <= a.due
  {
    hide QueuesHold, FiredOk, Labelled, PrepareAdmission, Committed, HeadTrigger, HasSpace, ValidRequest;
    var k :| |r'.fired| <= k < |r'.admitted| && r'.admitted[k] == a;
    if k < |r.admitted| {
      assert r'.admitted[k] == r.admitted[k] == Waiting(r)[k - |r.fired|];
      assert a in Waiting(r);
      if |r.fired| < k {
        DuesIncrease(r.admitted, |r.fired|, k);
        assert Waiting(r)[0] in Waiting(r);
      }
    } else {
      AdmittedIsAdmissible(cfg, r, input);
      if cfg.start <= r.next {
        DeadlineInCycles(cfg, r, a.due);
      }
    }
  }

  lemma EdgeKeepsFired(cfg: TcuConfig, r: Run, input: Input, r': Run)
    requires cfg.Valid() && RunOk(cfg, r)
    requires
      && (FiresNow(cfg, r, input) ==> Waiting(r) != [] && Decidable(Waiting(r)[0].request.events, r.tcu.flags))
      && Edge(cfg, r, r', FiresNow(cfg, r, input), AdmittedBy(cfg, r, input), PausedNow(cfg, r, input))
    requires |r'.fired| <= |r'.admitted|
    ensures FiredOk(cfg, r')
  {
    hide QueuesHold, Labelled, PrepareAdmission, Committed, DuesAccumulate, Decidable, Allowed, Refused, AdmittedBy;
    forall i | 0 <= i < |r'.fired|
      ensures FiringOk(cfg, r'.fired[i], r'.admitted[i])
    {
      assert r'.admitted[i] == r.admitted[i];
      if i < |r.fired| {
        assert r'.fired[i] == r.fired[i];
      } else {
        assert Waiting(r)[0] == r.admitted[i];
      }
    }
  }

  /** Every edge keeps the invariant, whatever it receives. */
  lemma AdvanceKeepsRun(cfg: TcuConfig, r: Run, input: Input)
    requires cfg.Valid() && RunOk(cfg, r) && r.next <= MAX_TICK && Advance(cfg, r, input).Ok?
    ensures RunOk(cfg, Advance(cfg, r, input).value)
  {
    hide Advance, QueuesHold, AdmissionsOk, TimeOk, FiredOk, Edge, Waiting, AdmittedBy, PausedNow, CurrentTimingState;
    AdvanceIsEdge(cfg, r, input);
    var r', admission := Advance(cfg, r, input).value, AdmittedBy(cfg, r, input);
    EdgeKeepsQueues(cfg, r, r', FiresNow(cfg, r, input), admission, PausedNow(cfg, r, input));
    if admission.Some? {
      AdmittedIsAdmissible(cfg, r, input);
    }
    EdgeKeepsAdmissions(cfg, r, r', FiresNow(cfg, r, input), admission, PausedNow(cfg, r, input),
                        CurrentTimingState(cfg, r.tcu, r.next, input.synchronizationPaused).pause);
    EdgeKeepsTime(cfg, r, input, r');
    EdgeKeepsFired(cfg, r, input, r');
  }

  // ---- Whole runs ----

  datatype Op = Edges(input: Input) | Closure(lastLabel: nat)

  function Apply(cfg: TcuConfig, r: Run, op: Op): Result<Run>
    requires cfg.Valid()
  {
    match op
    case Edges(input) => if r.next <= MAX_TICK then Advance(cfg, r, input) else Err(TimeOverflow)
    case Closure(lastLabel) =>
      var closed :- Close(r.tcu, lastLabel);
      Ok(r.(tcu := closed))
  }

  function RunAll(cfg: TcuConfig, r: Run, ops: seq<Op>): Result<Run>
    requires cfg.Valid()
    decreases |ops|
  {
    if ops == [] then Ok(r)
    else
      var next :- Apply(cfg, r, ops[0]);
      RunAll(cfg, next, ops[1..])
  }

  lemma ClosedQueues(cfg: TcuConfig, s: State, waiting: seq<Admission>)
    requires QueuesHold(cfg, s, waiting)
    ensures QueuesHold(cfg, s.(closed := true), waiting)
  {
  }

  lemma ClosedHistory(cfg: TcuConfig, r: Run)
    requires cfg.Valid() && AdmissionsOk(cfg, r) && TimeOk(cfg, r) && FiredOk(cfg, r)
    ensures
      var r' := r.(tcu := r.tcu.(closed := true));
      AdmissionsOk(cfg, r') && TimeOk(cfg, r') && FiredOk(cfg, r') && Waiting(r') == Waiting(r)
  {
    var r' := r.(tcu := r.tcu.(closed := true));
    assert Waiting(r') == Waiting(r);
    hide FiringOk, Labelled, DuesAccumulate, PolicyFold;
  }

  lemma ClosureKeepsRun(cfg: TcuConfig, r: Run)
    requires cfg.Valid() && RunOk(cfg, r)
    ensures RunOk(cfg, r.(tcu := r.tcu.(closed := true)))
  {
    hide QueuesHold, AdmissionsOk, TimeOk, FiredOk, Waiting;
    ClosedHistory(cfg, r);
    ClosedQueues(cfg, r.tcu, Waiting(r));
  }

  lemma {:induction false} RunsKeepInvariant(cfg: TcuConfig, r: Run, ops: seq<Op>)
    requires cfg.Valid() && RunOk(cfg, r) && RunAll(cfg, r, ops).Ok?
    ensures RunOk(cfg, RunAll(cfg, r, ops).value)
    decreases |ops|
  {
    if ops != [] {
      hide RunOk, Advance;
      if ops[0].Edges? {
        AdvanceKeepsRun(cfg, r, ops[0].input);
      } else {
        ClosureKeepsRun(cfg, r);
      }
      RunsKeepInvariant(cfg, Apply(cfg, r, ops[0]).value, ops[1..]);
    }
  }

  /**
   * In every run stepped on every edge, under any mix of supply and synchronization pauses, the i-th
   * fired point is the i-th admitted one; it fires at start + due * period plus the paused edges so
   * far, and each of its events is launched or cancelled exactly once, in order.
   */
  lemma PointsFireOnTime(cfg: TcuConfig, origin: nat, ops: seq<Op>, i: nat)
    requires cfg.Valid() && cfg.clock.Edge(origin) && origin <= cfg.start && RunAll(cfg, Begin(cfg, origin), ops).Ok?
    requires i < |RunAll(cfg, Begin(cfg, origin), ops).value.fired|
    ensures
      var r := RunAll(cfg, Begin(cfg, origin), ops).value;
      && i < |r.admitted| && DuesAccumulate(r.admitted)
      && r.fired[i].tick == cfg.start + r.admitted[i].due * cfg.clock.period + r.fired[i].pausedEdges * cfg.clock.period
      && r.fired[i].launched == Allowed(r.admitted[i].request.events, r.fired[i].flags)
      && r.fired[i].cancelled == Refused(r.admitted[i].request.events, r.fired[i].flags)
      && multiset(r.fired[i].launched) + multiset(r.fired[i].cancelled) == multiset(r.admitted[i].request.events)
  {
    hide Advance, Allowed, Refused, Decidable, QueuesHold, TimeOk, DuesAccumulate, Begin, RunAll;
    BeginIsOk(cfg, origin);
    RunsKeepInvariant(cfg, Begin(cfg, origin), ops);
    var r := RunAll(cfg, Begin(cfg, origin), ops).value;
    assert FiringOk(cfg, r.fired[i], r.admitted[i]);
    EveryEventOnce(r.admitted[i].request.events, r.fired[i].flags);
    assert (r.admitted[i].due + r.fired[i].pausedEdges) * cfg.clock.period
        == r.admitted[i].due * cfg.clock.period + r.fired[i].pausedEdges * cfg.clock.period;
  }

  /** In every run the port queues are the events of the points that wait, split by port in label order. */
  lemma QueuesFollowManifests(cfg: TcuConfig, origin: nat, ops: seq<Op>)
    requires cfg.Valid() && cfg.clock.Edge(origin) && origin <= cfg.start && RunAll(cfg, Begin(cfg, origin), ops).Ok?
    ensures
      var r := RunAll(cfg, Begin(cfg, origin), ops).value;
      && QueuesHold(cfg, r.tcu, Waiting(r))
      && (Waiting(r) != [] ==> r.cycle <= Waiting(r)[0].due)
  {
    BeginIsOk(cfg, origin);
    RunsKeepInvariant(cfg, Begin(cfg, origin), ops);
    var r := RunAll(cfg, Begin(cfg, origin), ops).value;
    hide QueuesHold, AdmissionsOk, FiredOk, RunAll;
    assert Waiting(r) != [] ==> Waiting(r)[0] in Waiting(r);
  }

  // ---- Waiting for space ----

  predicate Blocked(cfg: TcuConfig, r: Run, request: TimingEvents, pause: PauseState) {
    PrepareAdmission(cfg, r.tcu, r.next, request, pause) == Ok(None)
  }

  /** A request that finds no space finds points waiting; an empty queue has space for every valid request. */
  lemma NoSpaceMeansWaiting(cfg: TcuConfig, r: Run, request: TimingEvents)
    requires cfg.Valid() && RunOk(cfg, r) && ValidRequest(request, cfg.timing)
    requires |request.point.synchronizations| <= cfg.syncCapacity && Waiting(r) == []
    ensures HasSpace(cfg, r.tcu, request)
  {
    hide AdmissionsOk, TimeOk, FiredOk;
    assert forall p | 0 <= p < |r.tcu.events| :: r.tcu.events[p] == [];
  }

  lemma BlockedFacts(cfg: TcuConfig, r: Run, request: TimingEvents, pause: PauseState)
    requires cfg.Valid() && RunOk(cfg, r) && Blocked(cfg, r, request, pause)
    ensures ValidRequest(request, cfg.timing) && request.point.labelId == r.tcu.lastLabel + 1 && !r.tcu.closed
    ensures |request.point.synchronizations| <= cfg.syncCapacity && Waiting(r) != []
    ensures r.tcu.lastLabel == 0 || 0 < request.point.interval || r.tcu.admittedPolicy == PauseWhenEmpty
            || request.point.policy == PauseWhenEmpty
  {
    hide RunOk, HasSpace, DueTick, MeetsDeadline, ValidRequest, Validate;
    ValidateIsValidRequest(request, cfg.timing);
    if Waiting(r) == [] {
      NoSpaceMeansWaiting(cfg, r, request);
    }
  }

  lemma LastWaitingIsLastDue(cfg: TcuConfig, r: Run)
    requires cfg.Valid() && RunOk(cfg, r) && Waiting(r) != []
    ensures r.cycle <= r.tcu.lastDue && r.tcu.lastLabel != 0
    ensures |Waiting(r)| == 1 ==> Waiting(r)[0].due == r.tcu.lastDue
    ensures Waiting(r)[0].due <= r.tcu.lastDue
  {
    hide QueuesHold, FiredOk, Labelled, PolicyFold;
    assert Waiting(r)[0] in Waiting(r) && Waiting(r)[0] == r.admitted[|r.fired|];
    if |r.fired| < |r.admitted| - 1 {
      DuesIncrease(r.admitted, |r.fired|, |r.admitted| - 1);
    }
  }

  /** After an edge on which nothing is admitted, the deadline of a blocked request in cycles. */
  lemma BlockedAfterEdge(cfg: TcuConfig, r: Run, input: Input)
    requires cfg.Valid() && RunOk(cfg, r) && r.next <= MAX_TICK && Advance(cfg, r, input).Ok?
    requires Waiting(r) != [] && AdmittedBy(cfg, r, input).None?
    ensures
      var r' := Advance(cfg, r, input).value;
      && r'.tcu.lastDue == r.tcu.lastDue && r'.tcu.lastLabel == r.tcu.lastLabel
      && r'.tcu.admittedPolicy == r.tcu.admittedPolicy && r'.tcu.closed == r.tcu.closed
      && (Waiting(r') == [] ==> r'.cycle == r.tcu.lastDue + 1 && cfg.start <= r'.next
                                && r'.tcu.triggeredPolicy == r'.tcu.admittedPolicy && r'.tcu.timing == [])
  {
    hide Advance, QueuesHold, FiredOk, Labelled, DuesAccumulate, Decidable, AdmittedBy, HeadFiring;
    AdvanceIsEdge(cfg, r, input);
    AdvanceKeepsRun(cfg, r, input);
    var r' := Advance(cfg, r, input).value;
    HeadIsQueued(cfg, r);
    HeadIsQueued(cfg, r');
    CommittedFields(r.tcu, FiresNow(cfg, r, input), None);
    assert r'.admitted == r.admitted;
    if Waiting(r') == [] {
      assert |Waiting(r)| == 1;
      LastWaitingIsLastDue(cfg, r);
      assert r'.admitted[..|r'.fired|] == r'.admitted;
    }
  }

  /**
   * Full queues make a waiting request late exactly when the queue has just drained, its interval is
   * one cycle, and the admitted points do not let the timer pause.
   */
  lemma FullQueuesMakeLateExactlyWhen(cfg: TcuConfig, r: Run, input: Input, later: Input)
    requires cfg.Valid() && RunOk(cfg, r) && r.next <= MAX_TICK && Advance(cfg, r, input).Ok?
    requires input.candidate.Some? && later.candidate == input.candidate
    requires Blocked(cfg, r, input.candidate.value,
                     CurrentTimingState(cfg, r.tcu, r.next, input.synchronizationPaused).pause)
    requires
      var r' := Advance(cfg, r, input).value;
      r'.next <= MAX_TICK && r'.tcu.lastDue + EffectiveInterval(r'.tcu, input.candidate.value.point) <= MAX_TICK
      && DueTick(cfg, r'.tcu, r'.tcu.lastDue + EffectiveInterval(r'.tcu, input.candidate.value.point)).Ok?
    ensures
      var r' := Advance(cfg, r, input).value;
      var request := input.candidate.value;
      PrepareAdmission(cfg, r'.tcu, r'.next, request,
                       CurrentTimingState(cfg, r'.tcu, r'.next, later.synchronizationPaused).pause) == Err(LateAdmission)
      <==> Waiting(r') == [] && EffectiveInterval(r'.tcu, request.point) == 1 && r'.tcu.admittedPolicy != PauseWhenEmpty
  {
    hide Advance, RunOk, HasSpace, Validate, DueTick, ValidRequest, Waiting, AdmittedBy;
    var request := input.candidate.value;
    BlockedFacts(cfg, r, request, CurrentTimingState(cfg, r.tcu, r.next, input.synchronizationPaused).pause);
    assert AdmittedBy(cfg, r, input).None? by { BlockedIsNotAdmitted(cfg, r, input, CurrentTimingState(cfg, r.tcu, r.next, input.synchronizationPaused).pause); }
    BlockedAfterEdge(cfg, r, input);
    AdvanceKeepsRun(cfg, r, input);
    LastWaitingIsLastDue(cfg, r);
    var r' := Advance(cfg, r, input).value;
    LateInCycles(cfg, r', request, later.synchronizationPaused);
    ValidateIsValidRequest(request, cfg.timing);
    hide MeetsDeadline, CurrentTimingState;
  }

  lemma BlockedIsNotAdmitted(cfg: TcuConfig, r: Run, input: Input, pause: PauseState)
    requires cfg.Valid() && input.candidate.Some? && pause == CurrentTimingState(cfg, r.tcu, r.next, input.synchronizationPaused).pause
    requires Blocked(cfg, r, input.candidate.value, pause)
    ensures AdmittedBy(cfg, r, input).None?
  {
    hide PrepareAdmission, CurrentTimingState;
  }

  /** When the deadline check refuses a request, in cycles. */
  lemma LateInCycles(cfg: TcuConfig, r: Run, request: TimingEvents, paused: bool)
    requires cfg.Valid() && RunOk(cfg, r) && r.next <= MAX_TICK && r.tcu.lastLabel != 0 && !r.tcu.closed
    requires DueTick(cfg, r.tcu, r.tcu.lastDue + EffectiveInterval(r.tcu, request.point)).Ok?
    requires Waiting(r) == [] ==> r.cycle == r.tcu.lastDue + 1 && cfg.start <= r.next
                                  && r.tcu.triggeredPolicy == r.tcu.admittedPolicy && r.tcu.timing == []
    ensures
      var due := r.tcu.lastDue + EffectiveInterval(r.tcu, request.point);
      !MeetsDeadline(r.tcu, r.next, DueTick(cfg, r.tcu, due).value, CurrentTimingState(cfg, r.tcu, r.next, paused).pause)
      <==> Waiting(r) == [] && EffectiveInterval(r.tcu, request.point) == 1 && r.tcu.admittedPolicy != PauseWhenEmpty
  {
    hide QueuesHold, AdmissionsOk, FiredOk, DueTick;
    var due := r.tcu.lastDue + EffectiveInterval(r.tcu, request.point);
    if Waiting(r) != [] {
      LastWaitingIsLastDue(cfg, r);
    }
    if cfg.start <= r.next {
      DeadlineInCycles(cfg, r, due);
    } else {
      DueTickFollowsStart(cfg, r.tcu, due);
    }
  }

  lemma DueTickFollowsStart(cfg: TcuConfig, s: State, due: nat)
    requires DueTick(cfg, s, due).Ok?
    ensures cfg.start <= DueTick(cfg, s, due).value
  {
  }

  /** Every edge of the run presents this request. */
  predicate Presents(ops: seq<Op>, request: TimingEvents) {
    forall i | 0 <= i < |ops| :: ops[i].Edges? && ops[i].input.candidate == Some(request)
  }

  /** What the TCU answers a request at the run's next edge. */
  function Answer(cfg: TcuConfig, r: Run, request: TimingEvents, paused: bool): Result<Option<nat>>
    requires cfg.Valid()
  {
    PrepareAdmission(cfg, r.tcu, r.next, request, CurrentTimingState(cfg, r.tcu, r.next, paused).pause)
  }

  /** A wait ends with an admission as soon as the queue has drained; only the tick range can end it otherwise. */
  ghost predicate StillOnTime(cfg: TcuConfig, r: Run, request: TimingEvents, paused: bool)
    requires cfg.Valid()
  {
    var answer := Answer(cfg, r, request, paused);
    || answer == Err(TimeOverflow)
    || answer == Ok(Some(r.tcu.lastDue + request.point.interval))
    || (answer == Ok(None) && Waiting(r) != [])
  }

  lemma NotLateIsOnTime(cfg: TcuConfig, r: Run, request: TimingEvents, paused: bool)
    requires cfg.Valid() && RunOk(cfg, r) && ValidRequest(request, cfg.timing) && !r.tcu.closed
    requires request.point.labelId == r.tcu.lastLabel + 1 && |request.point.synchronizations| <= cfg.syncCapacity
    requires 2 <= request.point.interval && Answer(cfg, r, request, paused) != Err(LateAdmission)
    ensures StillOnTime(cfg, r, request, paused)
  {
    hide RunOk, HasSpace, ValidRequest, Validate, Waiting, MeetsDeadline, CurrentTimingState;
    ValidateIsValidRequest(request, cfg.timing);
    if Waiting(r) == [] {
      NoSpaceMeansWaiting(cfg, r, request);
    }
  }

  lemma BlockedEdgeStaysOnTime(cfg: TcuConfig, r: Run, input: Input, request: TimingEvents, paused: bool)
    requires cfg.Valid() && RunOk(cfg, r) && r.next <= MAX_TICK && Advance(cfg, r, input).Ok?
    requires input.candidate == Some(request) && 2 <= request.point.interval
    requires Answer(cfg, r, request, input.synchronizationPaused) == Ok(None)
    requires Advance(cfg, r, input).value.next <= MAX_TICK
    ensures StillOnTime(cfg, Advance(cfg, r, input).value, request, paused)
  {
    hide Advance, RunOk, HasSpace, Validate, ValidRequest, Waiting, AdmittedBy, DueTick, StillOnTime;
    var pause := CurrentTimingState(cfg, r.tcu, r.next, input.synchronizationPaused).pause;
    BlockedFacts(cfg, r, request, pause);
    assert AdmittedBy(cfg, r, input).None? by { BlockedIsNotAdmitted(cfg, r, input, CurrentTimingState(cfg, r.tcu, r.next, input.synchronizationPaused).pause); }
    BlockedAfterEdge(cfg, r, input);
    AdvanceKeepsRun(cfg, r, input);
    hide CurrentTimingState, Blocked;
    var r' := Advance(cfg, r, input).value;
    if r'.tcu.lastDue + request.point.interval <= MAX_TICK && DueTick(cfg, r'.tcu, r'.tcu.lastDue + request.point.interval).Ok? {
      FullQueuesMakeLateExactlyWhen(cfg, r, input, input.(synchronizationPaused := paused));
    } else {
      OutOfRangeAnswer(cfg, r', request, paused);
    }
    NotLateIsOnTime(cfg, r', request, paused);
  }

  lemma OutOfRangeAnswer(cfg: TcuConfig, r: Run, request: TimingEvents, paused: bool)
    requires cfg.Valid() && 2 <= request.point.interval
    requires MAX_TICK < r.tcu.lastDue + request.point.interval || DueTick(cfg, r.tcu, r.tcu.lastDue + request.point.interval).Err?
    ensures Answer(cfg, r, request, paused) != Err(LateAdmission)
  {
    hide HasSpace, Validate, MeetsDeadline, CurrentTimingState;
    ValidateErrors(request, cfg.timing);
  }

  lemma ValidateErrors(request: TimingEvents, cfg: TimingConfig)
    ensures Validate(request, cfg) != Err(LateAdmission)
  {
    if |request.events| == |request.point.manifest| {
      CheckErrors(request, cfg, 0);
    }
    hide CheckEvents;
  }

  lemma {:induction false} CheckErrors(request: TimingEvents, cfg: TimingConfig, i: nat)
    requires |request.events| == |request.point.manifest| && i <= |request.events|
    ensures CheckEvents(request, cfg, i) != Err(LateAdmission)
    decreases |request.events| - i
  {
    hide OnPort, IdSet;
    if i < |request.events| {
      CheckErrors(request, cfg, i + 1);
    }
  }

  lemma {:induction false} AdmissionsGrow(cfg: TcuConfig, r: Run, ops: seq<Op>)
    requires cfg.Valid() && RunAll(cfg, r, ops).Ok?
    ensures |r.admitted| <= |RunAll(cfg, r, ops).value.admitted|
    decreases |ops|
  {
    hide Step, CurrentTimingState;
    if ops != [] {
      AdmissionsGrow(cfg, Apply(cfg, r, ops[0]).value, ops[1..]);
    }
  }

  /**
   * A request with an interval of at least two cycles that full queues keep waiting is never made late
   * by them: after any number of edges it is still on time, and it is admitted once the queue has drained.
   */
  lemma {:induction false} WaitingRequestStaysOnTime(cfg: TcuConfig, r: Run, ops: seq<Op>, request: TimingEvents, paused: bool)
    requires cfg.Valid() && RunOk(cfg, r) && Presents(ops, request) && 2 <= request.point.interval && ops != []
    requires Answer(cfg, r, request, ops[0].input.synchronizationPaused) == Ok(None)
    requires RunAll(cfg, r, ops).Ok? && |RunAll(cfg, r, ops).value.admitted| == |r.admitted|
    requires RunAll(cfg, r, ops).value.next <= MAX_TICK
    ensures StillOnTime(cfg, RunAll(cfg, r, ops).value, request, paused)
    decreases |ops|
  {
    hide Advance, RunOk, Answer, StillOnTime;
    assert r.next <= MAX_TICK;
    var next := Advance(cfg, r, ops[0].input).value;
    AdvanceKeepsRun(cfg, r, ops[0].input);
    if |ops| == 1 {
      BlockedEdgeStaysOnTime(cfg, r, ops[0].input, request, paused);
    } else {
      var again := ops[1].input;
      assert ops[1..][0] == ops[1] && next.next <= MAX_TICK;
      BlockedEdgeStaysOnTime(cfg, r, ops[0].input, request, again.synchronizationPaused);
      AdmissionsGrow(cfg, r, [ops[0]]);
      AdmissionsGrow(cfg, next, ops[1..]);
      NotAdmittedIsBlocked(cfg, r, next, ops, request);
      WaitingRequestStaysOnTime(cfg, next, ops[1..], request, paused);
    }
  }

  lemma NotAdmittedIsBlocked(cfg: TcuConfig, r: Run, next: Run, ops: seq<Op>, request: TimingEvents)
    requires cfg.Valid() && 2 <= |ops| && Presents(ops, request) && RunAll(cfg, next, ops[1..]).Ok?
    requires StillOnTime(cfg, next, request, ops[1].input.synchronizationPaused)
    requires |RunAll(cfg, next, ops[1..]).value.admitted| <= |next.admitted|
    ensures Answer(cfg, next, request, ops[1].input.synchronizationPaused) == Ok(None)
  {
    hide PrepareAdmission, PrepareTrigger, CurrentTimingState, CommitAll, Waiting;
    assert ops[1..][0] == ops[1];
    AdmissionsGrow(cfg, Advance(cfg, next, ops[1].input).value, ops[1..][1..]);
    hide RunAll;
  }
}
