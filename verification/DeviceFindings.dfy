/** Device runs that fail properties one might expect: results out of order, and a gate with a missing output. */
module DeviceFindings {
  import opened Errors
  import opened Protocol
  import opened Resources
  import opened Backend
  import opened Electronics
  import opened Boundaries
  import opened Launches
  import opened BoundaryWork
  import opened ReadoutRuns
  import opened ElectronicsRuns
  import opened Feedback
  import D = DeviceFeedback
  import F = FeedbackRuns

  /** A backend without objections: every qubit reads one. */
  function AllOnes(operations: seq<Operation>): Result<seq<bool>> {
    Ok(seq(OutcomeCount(operations), _ => true))
  }

  function Accepts(a: Action): Result<()> { Ok(()) }

  const ONES := Backend(2, Accepts, AllOnes)

  lemma OnesAnswers()
    ensures Answers(ONES)
  {
    forall operations
      ensures ONES.execute(operations).Ok? && |ONES.execute(operations).value| == OutcomeCount(operations)
    {
      assert ONES.execute(operations) == AllOnes(operations);
    }
  }

  // ---- One boundary ----

  lemma AnsweredBoundary(p: Profile, r: Run, now: nat)
    requires 0 < p.limit && RunOk(p, r) && ElectronicsRuns.Legal(p, r, Physical(now)) && GatesReady(p, r, now) && Answers(p.backend)
    ensures
      var r' := Next(p, r, Physical(now));
      && r'.Ok? && RunOk(p, r'.value) && r'.value.state.boundaries == r.state.boundaries - {now}
      && r'.value.accepted == r.accepted && r'.value.readouts == r.readouts && Past(r'.value.state) == now + 1
  {
    hide RunOk, ElectronicsRuns.Legal, Due, DoneOk, Process, GatesReady, Answers, Logged, Next;
    BoundaryIsDue(p, r, now);
    BoundaryProcesses(p, r, now);
    var done := Process(p, r.state, now).value.value;
    DoneTimes(p, r, now, done);
    DoneBoundaries(p, r, now, done);
    BackendFollows(p, r, now, done);
    LoggedShape(p, r, now, done);
    NextIsLogged(p, r, now);
    PhysicalKeeps(p, r, now);
  }

  lemma DoneBoundaries(p: Profile, r: Run, now: nat, done: Processed)
    requires DoneOk(p, r, now, done)
    ensures done.state.boundaries == r.state.boundaries - {now}
  {
    hide ActiveOk, ReadoutsOk, ProperGates, DistinctTargets, Measured, ExecuteWork;
  }

  lemma LoggedShape(p: Profile, r: Run, now: nat, done: Processed)
    requires |done.work.samples| == |done.outcomes|
    requires RunCalls(p.backend, p.limit, r.backend, CallsOf(r.state, now, done.work)).Ok?
    ensures
      var r' := Logged(p, r, now, done);
      r'.Ok? && r'.value.state == done.state && r'.value.accepted == r.accepted && r'.value.readouts == r.readouts
  {
    hide RunCalls, CallsOf, IdMarks, EventIds, ResultIds, Measured;
  }

  lemma NextIsLogged(p: Profile, r: Run, now: nat)
    requires Process(p, r.state, now).Ok? && Process(p, r.state, now).value.Some?
    requires
      var done := Process(p, r.state, now).value.value;
      |done.work.samples| == |done.outcomes|
    ensures Next(p, r, Physical(now)) == Logged(p, r, now, Process(p, r.state, now).value.value)
  {
    hide Process, Logged;
  }

  // ---- Results out of order ----

  const PLAIN := Profile([], ONES, 4)

  /** The id-th acquisition of qubit 0 lasts one tick from id - 1, with its own discriminator delay. */
  function Acquisition(id: nat, discriminatorDelay: nat): Event {
    Event(id, 0, id, 0, 0, Action(Acquire, 0, 0, 1, [0], [], Always, 0, false, discriminatorDelay), Some(Reference(id, 0)))
  }

  function AcquisitionAt(id: nat, discriminatorDelay: nat): Scheduled
    requires 0 < id
  {
    Scheduled(Acquisition(id, discriminatorDelay), 0, id - 1, id, Acquisition(id, discriminatorDelay).action)
  }

  function AcquisitionReadout(id: nat, discriminatorDelay: nat): Readout
    requires 0 < id
  {
    Readout(Reference(id, 0), id, id - 1, id + discriminatorDelay, None, 0)
  }

  function AcquisitionLaunch(id: nat, discriminatorDelay: nat): Launch
    requires 0 < id
  {
    Launch(id, id - 1, [(Acquisition(id, discriminatorDelay), 0)])
  }

  lemma AcquisitionResolves(id: nat, discriminatorDelay: nat)
    requires 0 < id <= 2 && discriminatorDelay <= 5
    ensures Resolve(PLAIN, AcquisitionLaunch(id, discriminatorDelay), 0) == Ok([AcquisitionAt(id, discriminatorDelay)])
  {
    var l := AcquisitionLaunch(id, discriminatorDelay);
    assert PLAIN.backend.validate(l.events[0].0.action) == Accepts(l.events[0].0.action);
    assert Resolve(PLAIN, l, 1) == Ok([]);
    assert ResolveEvent(PLAIN, l, l.events[0].0, 0) == Ok(AcquisitionAt(id, discriminatorDelay));
    assert [AcquisitionAt(id, discriminatorDelay)] + [] == [AcquisitionAt(id, discriminatorDelay)];
  }

  lemma AcquisitionReads(id: nat, discriminatorDelay: nat, pending: map<nat, Readout>)
    requires 0 < id <= 2 && discriminatorDelay <= 5 && id !in pending
    ensures PrepareReadouts([AcquisitionAt(id, discriminatorDelay)], pending) == Ok([AcquisitionReadout(id, discriminatorDelay)])
  {
    var a := AcquisitionAt(id, discriminatorDelay);
    assert [a][1..] == [];
    assert CheckReadouts([a], 1) == Ok(()) && CheckReadouts([a], 0) == Ok(());
    assert CountOf([a], Acquire, id) == 1 && CountOf([a], DiscriminatorArm, id) == 0;
    assert MakeReadout([a], a, pending) == Ok(AcquisitionReadout(id, discriminatorDelay));
    assert MakeReadouts([a], 1, pending) == Ok([]);
    assert [AcquisitionReadout(id, discriminatorDelay)] + [] == [AcquisitionReadout(id, discriminatorDelay)];
    assert MakeReadouts([a], 0, pending) == Ok([AcquisitionReadout(id, discriminatorDelay)]);
    assert !Orphaned([a]);
  }

  lemma AcquisitionIsPrepared(s: State, id: nat, discriminatorDelay: nat)
    requires 0 < id <= 2 && discriminatorDelay <= 5 && id !in s.readouts && s.processed.None?
    requires Check(s.table, [AcquisitionAt(id, discriminatorDelay)]).Ok?
    ensures
      Prepare(PLAIN, s, AcquisitionLaunch(id, discriminatorDelay))
      == Ok(Prepared([AcquisitionAt(id, discriminatorDelay)], [AcquisitionReadout(id, discriminatorDelay)]))
  {
    AcquisitionResolves(id, discriminatorDelay);
    AcquisitionReads(id, discriminatorDelay, s.readouts);
    hide Resolve, PrepareReadouts, Check;
  }

  lemma OneReady(boundaries: map<nat, Boundary>, h: Readout)
    ensures AddReady(boundaries, [h]).Keys == boundaries.Keys + {h.ready}
  {
    var b := BoundaryAt(boundaries, h.ready);
    var more := boundaries[h.ready := b.(ready := b.ready + [h.reference.measurement])];
    assert [h][1..] == [] && AddReady(more, []) == more;
    assert AddReady(boundaries, [h]) == AddReady(more, [h][1..]);
    assert more.Keys == boundaries.Keys + {h.ready};
  }

  lemma OneAction(boundaries: map<nat, Boundary>, a: Scheduled)
    ensures AddActions(boundaries, [a]).Keys == boundaries.Keys + {a.start, a.end}
  {
    var more := AddAction(boundaries, a);
    assert [a][1..] == [] && AddActions(more, []) == more;
    assert AddActions(boundaries, [a]) == AddActions(more, [a][1..]);
    assert more.Keys == boundaries.Keys + {a.start, a.end};
  }

  lemma AcquisitionIsAccepted(s: State, id: nat, discriminatorDelay: nat)
    requires 0 < id <= 2 && discriminatorDelay <= 5 && id !in s.readouts && s.processed.None?
    requires Check(s.table, [AcquisitionAt(id, discriminatorDelay)]).Ok?
    ensures
      var s' := Accept(PLAIN, s, AcquisitionLaunch(id, discriminatorDelay));
      && s'.Ok? && s'.value.table == s.table + [AcquisitionAt(id, discriminatorDelay)] && s'.value.processed.None?
      && s'.value.readouts == s.readouts[id := AcquisitionReadout(id, discriminatorDelay)]
      && s'.value.boundaries.Keys == s.boundaries.Keys + {id - 1, id, id + discriminatorDelay}
  {
    AcquisitionIsPrepared(s, id, discriminatorDelay);
    var a, h := AcquisitionAt(id, discriminatorDelay), AcquisitionReadout(id, discriminatorDelay);
    assert [a][1..] == [] && [h][1..] == [];
    hide Prepare, Check;
    assert AddReadouts(s.readouts, [h]) == Ok(s.readouts[id := h]);
    var ready := AddReady(s.boundaries, [h]);
    OneReady(s.boundaries, h);
    OneAction(ready, a);
    hide AddReady, AddActions;
  }

  lemma AcquisitionJoins(r: Run, id: nat, discriminatorDelay: nat)
    requires 0 < id <= 2 && discriminatorDelay <= 5 && id !in r.state.readouts && r.state.processed.None?
    requires Check(r.state.table, [AcquisitionAt(id, discriminatorDelay)]).Ok?
    ensures
      var r' := Next(PLAIN, r, Submit(AcquisitionLaunch(id, discriminatorDelay)));
      && r'.Ok? && r'.value.state.table == r.state.table + [AcquisitionAt(id, discriminatorDelay)] && r'.value.state.processed.None?
      && r'.value.state.readouts == r.state.readouts[id := AcquisitionReadout(id, discriminatorDelay)]
      && r'.value.state.boundaries.Keys == r.state.boundaries.Keys + {id - 1, id, id + discriminatorDelay}
      && r'.value.accepted == r.accepted + [AcquisitionAt(id, discriminatorDelay)]
      && r'.value.readouts == r.readouts + [AcquisitionReadout(id, discriminatorDelay)]
  {
    AcquisitionIsPrepared(r.state, id, discriminatorDelay);
    AcquisitionIsAccepted(r.state, id, discriminatorDelay);
    hide Prepare, Accept, Check;
  }

  /** Two acquisitions of one qubit, one after the other; the first one's discriminator is slow. */
  const SLOW := AcquisitionLaunch(1, 5)
  const QUICK := AcquisitionLaunch(2, 0)

  lemma OneFits(a: Scheduled)
    ensures Check([], [a]) == Ok(())
  {
    assert [a][..0] == [] && CheckFrom([], [a], 1) == Ok(());
    assert CheckAgainst(a, [], true) == Ok(()) && CheckAgainst(a, [], false) == Ok(()) && !Repeated([a], 0);
  }

  lemma SlowIsLaunched()
    ensures ElectronicsRuns.Legal(PLAIN, START, Submit(SLOW))
    ensures
      var r := Next(PLAIN, START, Submit(SLOW));
      && r.Ok? && r.value.state.table == r.value.accepted == [AcquisitionAt(1, 5)] && r.value.state.processed.None?
      && r.value.state.readouts == map[1 := AcquisitionReadout(1, 5)] && r.value.readouts == [AcquisitionReadout(1, 5)]
      && r.value.state.boundaries.Keys == {0, 1, 6}
  {
    OneFits(AcquisitionAt(1, 5));
    AcquisitionJoins(START, 1, 5);
    hide Next, Check;
  }

  lemma QuickFits()
    ensures Check([AcquisitionAt(1, 5)], [AcquisitionAt(2, 0)]) == Ok(())
  {
    var a, b := AcquisitionAt(1, 5), AcquisitionAt(2, 0);
    assert [a][1..] == [] && [b][1..] == [];
    assert Pair(b, a) == Ok(()) && Pair(a, b) == Ok(());
  }

  lemma QuickIsLegal(r: Run)
    requires r.accepted == [AcquisitionAt(1, 5)] && r.readouts == [AcquisitionReadout(1, 5)]
    ensures ElectronicsRuns.Legal(PLAIN, r, Submit(QUICK))
  {
  }

  lemma QuickIsLaunched(r: Run)
    requires Next(PLAIN, START, Submit(SLOW)) == Ok(r)
    ensures ElectronicsRuns.Legal(PLAIN, r, Submit(QUICK))
    ensures
      var r' := Next(PLAIN, r, Submit(QUICK));
      && r'.Ok? && r'.value.state.processed.None? && r'.value.readouts == [AcquisitionReadout(1, 5), AcquisitionReadout(2, 0)]
      && r'.value.state.boundaries.Keys == {0, 1, 2, 6}
  {
    hide Next, Check, ElectronicsRuns.Legal;
    SlowIsLaunched();
    QuickIsLegal(r);
    QuickFits();
    AcquisitionJoins(r, 2, 0);
  }

  lemma PlainBoundary(r: Run, now: nat)
    requires RunOk(PLAIN, r) && now in r.state.boundaries && forall t | t in r.state.boundaries :: now <= t
    ensures ElectronicsRuns.Legal(PLAIN, r, Physical(now))
    ensures
      var r' := Next(PLAIN, r, Physical(now));
      && r'.Ok? && RunOk(PLAIN, r'.value) && r'.value.state.boundaries == r.state.boundaries - {now}
      && r'.value.readouts == r.readouts && Past(r'.value.state) == now + 1
  {
    OnesAnswers();
    assert GatesReady(PLAIN, r, now);
    hide RunOk, Next, GatesReady, Answers;
    AnsweredBoundary(PLAIN, r, now);
  }

  lemma RunStep(p: Profile, r: Run, op: ElectronicsRuns.Op, ops: seq<ElectronicsRuns.Op>)
    requires ElectronicsRuns.Legal(p, r, op) && Next(p, r, op).Ok? && LegalRun(p, Next(p, r, op).value, ops)
    ensures LegalRun(p, r, [op] + ops) && RunDevice(p, r, [op] + ops) == RunDevice(p, Next(p, r, op).value, ops)
  {
    hide ElectronicsRuns.Legal, Next;
    assert ([op] + ops)[1..] == ops;
  }

  const BOUNDARIES: seq<ElectronicsRuns.Op> := [Physical(0)] + ([Physical(1)] + ([Physical(2)] + []))
  const OVERTAKING: seq<ElectronicsRuns.Op> := [Submit(SLOW)] + ([Submit(QUICK)] + BOUNDARIES)

  lemma BoundariesPass(r: Run)
    requires RunOk(PLAIN, r) && r.state.boundaries.Keys == {0, 1, 2, 6}
    ensures LegalRun(PLAIN, r, BOUNDARIES) && RunDevice(PLAIN, r, BOUNDARIES).Ok?
    ensures
      var last := RunDevice(PLAIN, r, BOUNDARIES).value;
      last.readouts == r.readouts && Past(last.state) == 3
  {
    hide RunOk, ElectronicsRuns.Legal, Next, Past;
    PlainBoundary(r, 0);
    var r0 := Next(PLAIN, r, Physical(0)).value;
    assert r0.state.boundaries.Keys == {1, 2, 6};
    PlainBoundary(r0, 1);
    var r1 := Next(PLAIN, r0, Physical(1)).value;
    assert r1.state.boundaries.Keys == {2, 6};
    PlainBoundary(r1, 2);
    RunStep(PLAIN, r1, Physical(2), []);
    RunStep(PLAIN, r0, Physical(1), [Physical(2)] + []);
    RunStep(PLAIN, r, Physical(0), [Physical(1)] + ([Physical(2)] + []));
  }

  lemma OvertakingRuns()
    ensures LegalRun(PLAIN, START, OVERTAKING) && RunDevice(PLAIN, START, OVERTAKING).Ok?
    ensures
      var r := RunDevice(PLAIN, START, OVERTAKING).value;
      r.readouts == [AcquisitionReadout(1, 5), AcquisitionReadout(2, 0)] && Past(r.state) == 3
  {
    hide RunOk, ElectronicsRuns.Legal, Next, LegalRun, RunDevice, Past;
    SlowIsLaunched();
    var r := Next(PLAIN, START, Submit(SLOW)).value;
    QuickIsLaunched(r);
    var both := Next(PLAIN, r, Submit(QUICK)).value;
    StartIsOk(PLAIN);
    SubmitKeeps(PLAIN, START, SLOW);
    SubmitKeeps(PLAIN, r, QUICK);
    BoundariesPass(both);
    RunStep(PLAIN, r, Submit(QUICK), BOUNDARIES);
    RunStep(PLAIN, START, Submit(SLOW), [Submit(QUICK)] + BOUNDARIES);
  }

  lemma BothIssued(n: nat, core: nat, history: seq<Readout>)
    requires core < n && |history| == 2
    requires history[0].reference == D.GlobalRef(n, core, Reference(1, 0)) && history[1].reference == D.GlobalRef(n, core, Reference(2, 0))
    ensures D.Issued(n, core, [0, 0], history)
  {
    D.GlobalIsOwned(n, core, Reference(1, 0));
    D.GlobalIsOwned(n, core, Reference(2, 0));
    hide D.GlobalRef, D.LocalRef, D.Owns;
  }

  lemma FirstIsLate(history: seq<Readout>, first: nat)
    requires |history| == 2 && history[0].reference.measurement == first != history[1].reference.measurement
    requires history[1].ready < history[0].ready
    ensures !D.ReadyBefore(history, first, 1)
  {
  }

  lemma NotInOrder(n: nat, core: nat, history: seq<Readout>, past: nat)
    requires core < n && |history| == 2
    requires history[0].reference == D.GlobalRef(n, core, Reference(1, 0)) && history[1].reference == D.GlobalRef(n, core, Reference(2, 0))
    requires history[1].ready < history[0].ready && history[1].ready < past
    ensures !D.ReadyInOrder(n, core, [0, 0], history, past)
  {
    D.GlobalIsOwned(n, core, Reference(1, 0));
    D.GlobalIsOwned(n, core, Reference(2, 0));
    FirstIsLate(history, D.GlobalId(n, core, 1));
    hide D.GlobalId, D.LocalRef, D.Owns, D.ReadyBefore;
    assert D.Older([0, 0], D.LocalRef(n, history[1].reference), 1);
  }

  /** With one core the identifiers are the core's own. */
  lemma OneCore(ref: Reference)
    requires 0 < ref.measurement
    ensures D.GlobalRef(1, 0, ref) == ref
  {
  }

  /** Only the quick one is ready by then. */
  lemma OneResult(n: nat, core: nat, history: seq<Readout>, past: nat, results: seq<Completion>)
    requires core < n && D.CoreResults(n, core, history, past, results) && DistinctReadouts(history) && |history| == 2
    requires history[1].reference == D.GlobalRef(n, core, Reference(2, 0)) && history[1].ready < past <= history[0].ready
    ensures |results| == 1 && results[0].reference == Reference(2, 0)
  {
    D.GlobalIsOwned(n, core, Reference(2, 0));
    hide D.GlobalId, D.Owns, D.CoreOrder, DistinctReadouts;
    assert D.HasResult(n, core, history[1].reference, results);
    forall k | 0 <= k < |results|
      ensures results[k].reference == Reference(2, 0)
    {
      assert D.ResultOf(n, core, history, past, results[k]);
      D.GlobalIsInjective(n, core, results[k].reference.measurement, 2);
    }
    if 2 <= |results| {
      NeverTwice(n, core, history, past, results);
    }
  }

  lemma NeverTwice(n: nat, core: nat, history: seq<Readout>, past: nat, results: seq<Completion>)
    requires core < n && D.CoreResults(n, core, history, past, results) && DistinctReadouts(history) && 2 <= |results|
    ensures results[0].reference.measurement != results[1].reference.measurement
  {
    hide D.GlobalId, DistinctReadouts, Precedes;
    assert D.Follows(n, core, history, results[0].reference, results[1].reference);
    D.PrecedingDiffer(history, D.GlobalId(n, core, results[0].reference.measurement), D.GlobalId(n, core, results[1].reference.measurement));
  }

  /**
   * Two acquisitions of one qubit, launched in the order of their measurements, are delivered in the other order. The
   * core that has reserved them receives the second measurement while the first is pending, and its next edge faults.
   */
  lemma OvertakingFaults()
    ensures LegalRun(PLAIN, START, OVERTAKING) && RunDevice(PLAIN, START, OVERTAKING).Ok?
    ensures
      var results := D.ForCore(1, 0, RunDevice(PLAIN, START, OVERTAKING).value.results);
      && |results| == 1 && results[0].reference == Reference(2, 0)
      && var f := F.RunAll(F.ONE_QUBIT, F.EVERY_CHANNEL, F.Begin(F.ONE_QUBIT, 0), F.YoungerFirst(results[0].value));
         && f.Ok? && f.value.reserved == [0, 0] && f.value.delivered == results
         && F.Step(F.ONE_QUBIT, F.EVERY_CHANNEL, f.value, 1, F.CpuEdge) == Err(ErrorCode.Protocol)
  {
    hide RunOk, LegalRun, RunDevice, Past, D.GlobalRef, D.ForCore, D.CoreResults, DistinctReadouts, F.RunAll, F.Step, F.Begin,
      F.YoungerFirst;
    OvertakingRuns();
    var r := RunDevice(PLAIN, START, OVERTAKING).value;
    assert Reachable(PLAIN, r);
    hide Reachable;
    OneCore(Reference(2, 0));
    D.ResultsFollowReadiness(1, 0, PLAIN, r);
    var results := D.ForCore(1, 0, r.results);
    OneResult(1, 0, r.readouts, 3, results);
    F.YoungerIsDelivered(results[0].value);
    F.YoungerResultFaults(results[0].value);
    assert results == [Completion(Reference(2, 0), results[0].value)];
  }

  /** So the readouts were not ready in order, as they must be for the core's edges to succeed. */
  lemma OvertakingIsNotInOrder()
    ensures
      var r := RunDevice(PLAIN, START, OVERTAKING);
      r.Ok? && D.Issued(1, 0, [0, 0], r.value.readouts) && !D.ReadyInOrder(1, 0, [0, 0], r.value.readouts, Past(r.value.state))
  {
    hide RunDevice, LegalRun, Past, D.GlobalRef, D.ReadyInOrder, D.Issued;
    OvertakingRuns();
    var r := RunDevice(PLAIN, START, OVERTAKING).value;
    OneCore(Reference(1, 0));
    OneCore(Reference(2, 0));
    BothIssued(1, 0, r.readouts);
    NotInOrder(1, 0, r.readouts, 3);
  }

  // ---- A gate with a missing output ----

  /** A two-qubit gate with one output on each of two ports. */
  const PAIRED := Profile([Gate([0, 1], [], 1, [GateInput(0, 0, 0), GateInput(0, 1, 0)])], ONES, 4)

  const OUTPUT := Event(1, 0, 1, 0, 0, Action(GateOutput, 0, 0, 1, [0], [], Always, 0, false, 0), None)
  const STARTED := Scheduled(OUTPUT, 0, 0, 1, OUTPUT.action.(kind := IdealGate, targets := [0, 1]))
  const HALF := Launch(1, 0, [(OUTPUT, 0)])

  lemma HalfIsPrepared()
    ensures Prepare(PAIRED, START.state, HALF) == Ok(Prepared([STARTED], []))
  {
    assert PAIRED.backend.validate(GateAction(PAIRED, 0).value) == Accepts(GateAction(PAIRED, 0).value);
    assert Resolve(PAIRED, HALF, 1) == Ok([]);
    assert ResolveEvent(PAIRED, HALF, OUTPUT, 0) == Ok(STARTED);
    assert [STARTED] + [] == [STARTED] && [STARTED][1..] == [];
    assert Resolve(PAIRED, HALF, 0) == Ok([STARTED]);
    OneFits(STARTED);
    assert CheckReadouts([STARTED], 1) == Ok(()) && MakeReadouts([STARTED], 1, map[]) == Ok([]);
    assert CheckReadouts([STARTED], 0) == Ok(()) && MakeReadouts([STARTED], 0, map[]) == Ok([]) && !Orphaned([STARTED]);
    hide Resolve, Check, CheckReadouts, MakeReadouts, Orphaned;
  }

  lemma HalfIsAccepted()
    ensures ElectronicsRuns.Legal(PAIRED, START, Submit(HALF))
    ensures
      var r := Next(PAIRED, START, Submit(HALF));
      r.Ok? && r.value.accepted == [STARTED] && r.value.state.boundaries.Keys == {0, 1}
  {
    HalfIsPrepared();
    hide Prepare;
    assert AddReady(map[], []) == map[];
    OneAction(map[], STARTED);
    hide AddActions;
  }

  lemma OutputIsMissing(r: Run)
    requires r.accepted == [STARTED]
    ensures !GatesReady(PAIRED, r, 0)
  {
    assert [STARTED][1..] == [] && [STARTED] + [] == [STARTED];
    assert StartsAt([STARTED], 0) == [STARTED];
    assert OutputsOf([STARTED], 0) == [STARTED];
    assert !ReadyGate(PAIRED, StartsAt(r.accepted, 0), 0);
  }

  /** A launch with one of the two outputs of a gate is accepted, and the boundary at its start is refused. */
  lemma MissingOutputIsRefused()
    ensures LegalRun(PAIRED, START, [Submit(HALF), Physical(0)])
    ensures RunDevice(PAIRED, START, [Submit(HALF)]).Ok?
    ensures RunDevice(PAIRED, START, [Submit(HALF), Physical(0)]) == Err(GateInputMismatch)
  {
    hide ElectronicsRuns.Legal, Next, GatesReady, Process, RunOk;
    HalfIsAccepted();
    var r := Next(PAIRED, START, Submit(HALF)).value;
    OutputIsMissing(r);
    assert [Submit(HALF), Physical(0)][1..] == [Physical(0)] && [Submit(HALF)][1..] == [];
    assert RunDevice(PAIRED, START, [Submit(HALF)]) == Ok(r);
    assert LegalRun(PAIRED, START, [Submit(HALF)]);
    assert Reachable(PAIRED, r);
    StartIsLegal(r);
    BoundaryGuardsUnreachable(PAIRED, r, 0);
    RefusedNext(PAIRED, r, 0, GateInputMismatch);
  }

  lemma StartIsLegal(r: Run)
    requires r.state.boundaries.Keys == {0, 1}
    ensures ElectronicsRuns.Legal(PAIRED, r, Physical(0))
  {
  }

  lemma RefusedNext(p: Profile, r: Run, now: nat, error: ErrorCode)
    requires Process(p, r.state, now) == Err(error)
    ensures Next(p, r, Physical(now)) == Err(error)
  {
    hide Process;
  }
}
