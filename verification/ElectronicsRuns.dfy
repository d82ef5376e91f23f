/** Whole runs of the control electronics: every accepted action starts and ends once, every acquisition is sampled and delivered once. */
module ElectronicsRuns {
  import opened Errors
  import opened Time
  import opened Protocol
  import opened Resources
  import opened Backend
  import opened Electronics
  import opened Boundaries
  import opened Launches
  import opened BoundaryWork
  import opened ReadoutRuns

  /** The device with its history: what was accepted, what happened at which tick, and what the backend was asked. */
  datatype Run = Run(
    state: State, accepted: seq<Scheduled>, readouts: seq<Readout>,
    started: seq<Mark>, ended: seq<Mark>, sampled: seq<Mark>, delivered: seq<Mark>,
    outcomes: map<nat, bool>, results: seq<Completion>, backend: History)

  const START := Run(State([], map[], [], map[], 0, None, Execution([], 0)), [], [], [], [], [], [], map[], [],
                     History(Execution([], 0), [], []))

  datatype Op = Submit(launch: Launch) | Physical(now: nat)

  function EventIds(actions: seq<Scheduled>): (ids: seq<nat>)
    ensures |ids| == |actions|
  {
    seq(|actions|, i requires 0 <= i < |actions| => actions[i].event.id)
  }

  function ResultIds(results: seq<Completion>): (ids: seq<nat>)
    ensures |ids| == |results|
  {
    seq(|results|, i requires 0 <= i < |results| => results[i].reference.measurement)
  }

  /** A boundary as it is logged: everything it did, at its tick. */
  function Logged(p: Profile, r: Run, now: nat, done: Processed): Result<Run>
    requires |done.work.samples| == |done.outcomes|
  {
    var b := BoundaryAt(r.state.boundaries, now);
    var backend :- RunCalls(p.backend, p.limit, r.backend, CallsOf(r.state, now, done.work));
    Ok(Run(done.state, r.accepted, r.readouts,
           r.started + IdMarks(EventIds(b.starts), now), r.ended + IdMarks(b.ends, now),
           r.sampled + IdMarks(IdsOf(done.work.samples), now), r.delivered + IdMarks(ResultIds(done.delivered), now),
           Measured(r.outcomes, done.work.samples, done.outcomes), r.results + done.delivered, backend))
  }

  function Next(p: Profile, r: Run, op: Op): Result<Run> {
    match op
    case Submit(l) =>
      var prepared :- Prepare(p, r.state, l);
      var s :- Accept(p, r.state, l);
      Ok(r.(state := s, accepted := r.accepted + prepared.actions, readouts := r.readouts + prepared.readouts))
    case Physical(now) =>
      var processed :- Process(p, r.state, now);
      if processed.None? then Ok(r)
      else if |processed.value.work.samples| != |processed.value.outcomes| then Err(BackendFailure)
      else Logged(p, r, now, processed.value)
  }

  /** Launches carry fresh identifiers and come from a validated profile; boundaries are processed in order. */
  ghost predicate Legal(p: Profile, r: Run, op: Op) {
    match op
    case Submit(l) =>
      forall k | 0 <= k < |l.events| ::
        var e := l.events[k].0;
        EventOk(p, e) && FreshId(e.id, r.accepted)
        && (e.action.kind == Acquire && e.reference.Some? ==>
              forall i | 0 <= i < |r.readouts| :: r.readouts[i].reference.measurement != e.reference.value.measurement)
    case Physical(now) => now in r.state.boundaries && forall t | t in r.state.boundaries :: now <= t
  }

  function Past(s: State): nat {
    if s.processed.None? then 0 else s.processed.value + 1
  }

  // ---- The invariant ----

  ghost predicate AcceptedOk(p: Profile, accepted: seq<Scheduled>, readouts: seq<Readout>, table: seq<Scheduled>, lastTick: nat) {
    && LedgerOk(Ledger(table, accepted, lastTick)) && AllOk(p, accepted)
    && Matched(readouts, Acquired(accepted)) && DistinctReadouts(readouts)
  }

  ghost predicate StateOk(s: State, accepted: seq<Scheduled>, readouts: seq<Readout>, outcomes: map<nat, bool>) {
    && (s.processed.None? ==> s.lastTick == 0) && (s.processed.Some? ==> s.lastTick == s.processed.value)
    && BoundariesOk(s.boundaries, accepted, readouts, Past(s))
    && ActiveOk(s.active, accepted, Past(s))
    && ReadoutsOk(s.readouts, readouts, Past(s), outcomes)
    && s.execution.committed == s.lastTick
  }

  /** Each thing due has happened once, at its tick, if that is past; nothing else has happened. */
  ghost predicate LogsOk(r: Run, past: nat) {
    && LogOk(StartMarks(r.accepted), r.started, past) && LogOk(EndMarks(r.accepted), r.ended, past)
    && LogOk(SampleMarks(r.readouts), r.sampled, past) && LogOk(ReadyMarks(r.readouts), r.delivered, past)
  }

  /** The delivered values are the outcomes measured. */
  ghost predicate ResultsOk(results: seq<Completion>, delivered: seq<Mark>, outcomes: map<nat, bool>) {
    && |results| == |delivered|
    && forall k | 0 <= k < |results| ::
         var id := results[k].reference.measurement;
         delivered[k].id == id && id in outcomes && results[k].value == outcomes[id]
  }

  ghost predicate RunOk(p: Profile, r: Run) {
    && AcceptedOk(p, r.accepted, r.readouts, r.state.table, r.state.lastTick)
    && StateOk(r.state, r.accepted, r.readouts, r.outcomes)
    && LogsOk(r, Past(r.state)) && ResultsOk(r.results, r.delivered, r.outcomes)
    && ResultsCome(r.readouts, r.results) && DeliveryOrder(r.readouts, r.delivered)
    && r.backend.state == r.state.execution && HistoryOk(p.backend, p.limit, r.backend)
  }

  lemma StartIsOk(p: Profile)
    requires 0 < p.limit
    ensures RunOk(p, START)
  {
    hide Compatible, LedgerOk, BoundariesOk, ActiveOk, ReadoutsOk, LogOk, HistoryOk;
    NothingAccepted();
    NothingSent(p);
  }

  lemma NothingAccepted()
    ensures LedgerOk(Ledger([], [], 0)) && BoundariesOk(map[], [], [], 0) && ActiveOk([], [], 0) && ReadoutsOk(map[], [], 0, map[]) && LogOk([], [], 0)
    ensures Acquired([]) == [] && StartMarks([]) == [] && EndMarks([]) == [] && SampleMarks([]) == [] && ReadyMarks([]) == []
  {
    NothingIsCompatible();
    hide Compatible;
    assert forall t :: DueAt([], [], t) == NO_BOUNDARY;
  }

  lemma NothingSent(p: Profile)
    requires 0 < p.limit
    ensures HistoryOk(p.backend, p.limit, History(Execution([], 0), [], []))
  {
    assert Concat([]) + [] == Stream([]);
  }

  // ---- Accepting ----

  lemma CompatibleIds(accepted: seq<Scheduled>)
    requires Compatible(accepted)
    ensures DistinctIds(accepted)
  {
    hide Pair;
  }

  /** The launch's actions join the ledger. */
  lemma LedgerTakes(p: Profile, r: Run, l: Launch)
    requires RunOk(p, r) && Legal(p, r, Submit(l)) && Prepare(p, r.state, l).Ok?
    ensures
      var d := Prepare(p, r.state, l).value;
      && LedgerOk(Ledger(r.state.table + d.actions, r.accepted + d.actions, r.state.lastTick))
      && (forall k | 0 <= k < |d.actions| :: Past(r.state) <= d.actions[k].start < d.actions[k].end)
  {
    hide LedgerOk, Check, LogsOk, ResultsOk, HistoryOk, BoundariesOk, ActiveOk, ReadoutsOk, Matched, DistinctReadouts;
    PreparedFacts(p, r.state, l);
    var d := Prepare(p, r.state, l).value;
    var ledger := Ledger(r.state.table, r.accepted, r.state.lastTick);
    forall k | 0 <= k < |d.actions|
      ensures Past(r.state) <= d.actions[k].start < d.actions[k].end && FreshId(d.actions[k].event.id, r.accepted)
    {
      assert ActionOk(p, d.actions[k]);
    }
    assert Resources.Legal(ledger, Reserve(d.actions));
    OpKeepsLedger(ledger, Reserve(d.actions));
  }

  lemma AcceptParts(p: Profile, s: State, l: Launch)
    requires Accept(p, s, l).Ok?
    ensures Prepare(p, s, l).Ok?
    ensures
      var d := Prepare(p, s, l).value;
      && AddReadouts(s.readouts, d.readouts).Ok?
      && Accept(p, s, l).value
         == s.(table := s.table + d.actions, readouts := AddReadouts(s.readouts, d.readouts).value,
               boundaries := AddActions(AddReady(s.boundaries, d.readouts), d.actions))
  {
    hide Prepare, AddReadouts, AddActions, AddReady;
  }

  lemma AllOkAppends(p: Profile, xs: seq<Scheduled>, ys: seq<Scheduled>)
    requires AllOk(p, xs) && AllOk(p, ys)
    ensures AllOk(p, xs + ys)
  {
    hide ActionOk, Referenced;
  }

  /** The new readouts are of measurements never seen before. */
  lemma NewReadoutsDistinct(p: Profile, r: Run, l: Launch)
    requires RunOk(p, r) && Legal(p, r, Submit(l)) && Prepare(p, r.state, l).Ok?
    ensures DistinctReadouts(r.readouts + Prepare(p, r.state, l).value.readouts)
  {
    hide LedgerOk, Check, LogsOk, ResultsOk, HistoryOk, StateOk, ActionOk, Prepare;
    PreparedFacts(p, r.state, l);
    var d := Prepare(p, r.state, l).value;
    var all := r.readouts + d.readouts;
    AcquiredMembers(d.actions);
    forall i, k | 0 <= i < |r.readouts| && 0 <= k < |d.readouts|
      ensures r.readouts[i].reference.measurement != d.readouts[k].reference.measurement
    {
      var a := Acquired(d.actions)[k];
      assert ReadoutOf(d.readouts[k], a) && a in Acquired(d.actions);
      var j :| 0 <= j < |d.actions| && d.actions[j] == a;
      assert l.events[j].0 == a.event;
    }
    hide Acquired, Matched, AllOk, Legal, ReadoutOf;
    forall i, j | 0 <= i < j < |all|
      ensures all[i].reference.measurement != all[j].reference.measurement
    {
      if i < |r.readouts| <= j {
        assert all[j] == d.readouts[j - |r.readouts|];
      } else if |r.readouts| <= i {
        assert all[i] == d.readouts[i - |r.readouts|] && all[j] == d.readouts[j - |r.readouts|];
      }
    }
  }

  lemma SubmitKeepsAccepted(p: Profile, r: Run, l: Launch)
    requires RunOk(p, r) && Legal(p, r, Submit(l)) && Prepare(p, r.state, l).Ok?
    ensures
      var d := Prepare(p, r.state, l).value;
      AcceptedOk(p, r.accepted + d.actions, r.readouts + d.readouts, r.state.table + d.actions, r.state.lastTick)
  {
    LedgerTakes(p, r, l);
    NewReadoutsDistinct(p, r, l);
    hide Check, LogsOk, ResultsOk, HistoryOk, StateOk, ActionOk, Prepare, Legal, LedgerOk, AllOk, Matched,
      DistinctReadouts;
    SubmitEvents(p, r, l);
    PreparedFacts(p, r.state, l);
    var d := Prepare(p, r.state, l).value;
    AllOkAppends(p, r.accepted, d.actions);
    AcquiredAppends(r.accepted, d.actions);
    MatchedAppends(r.readouts, d.readouts, Acquired(r.accepted), Acquired(d.actions));
  }

  lemma SubmitEvents(p: Profile, r: Run, l: Launch)
    requires Legal(p, r, Submit(l))
    ensures forall k | 0 <= k < |l.events| :: EventOk(p, l.events[k].0)
  {
    hide EventOk, FreshId;
  }

  /** New actions and readouts lie at or after the past. */
  lemma NewAreLater(p: Profile, r: Run, l: Launch)
    requires RunOk(p, r) && Legal(p, r, Submit(l)) && Prepare(p, r.state, l).Ok?
    ensures
      var d := Prepare(p, r.state, l).value;
      && WellTimed(d.actions) && (forall k | 0 <= k < |d.actions| :: Past(r.state) <= d.actions[k].start)
      && Fresh(d.readouts) && (forall k | 0 <= k < |d.readouts| :: Past(r.state) <= d.readouts[k].end)
  {
    hide LogsOk, ResultsOk, HistoryOk, StateOk, ActionOk, Prepare, Legal, LedgerOk, AllOk, DistinctReadouts, Past,
      Check;
    LedgerTakes(p, r, l);
    SubmitEvents(p, r, l);
    PreparedFacts(p, r.state, l);
    var d := Prepare(p, r.state, l).value;
    AcquiredMembers(d.actions);
    hide RunOk, Acquired;
    forall k | 0 <= k < |d.readouts|
      ensures Past(r.state) <= d.readouts[k].end <= d.readouts[k].ready && d.readouts[k].sample.None?
    {
      var a := Acquired(d.actions)[k];
      assert ReadoutOf(d.readouts[k], a) && a in Acquired(d.actions);
      var j :| 0 <= j < |d.actions| && d.actions[j] == a;
      assert d.actions[j].start < d.actions[j].end;
    }
  }

  lemma ActiveUnchanged(active: seq<Scheduled>, accepted: seq<Scheduled>, past: nat, actions: seq<Scheduled>)
    requires ActiveOk(active, accepted, past) && forall k | 0 <= k < |actions| :: past <= actions[k].start
    ensures ActiveOk(active, accepted + actions, past)
  {
    forall a | a in actions
      ensures past <= a.start
    {
      var k :| 0 <= k < |actions| && actions[k] == a;
    }
  }

  lemma SubmitKeepsState(p: Profile, r: Run, l: Launch)
    requires RunOk(p, r) && Legal(p, r, Submit(l)) && Accept(p, r.state, l).Ok? && Prepare(p, r.state, l).Ok?
    ensures
      var d := Prepare(p, r.state, l).value;
      StateOk(Accept(p, r.state, l).value, r.accepted + d.actions, r.readouts + d.readouts, r.outcomes)
  {
    AcceptParts(p, r.state, l);
    NewReadoutsDistinct(p, r, l);
    NewAreLater(p, r, l);
    hide LogsOk, ResultsOk, HistoryOk, Prepare, Accept, Legal, AcceptedOk, BoundariesOk, ActiveOk, ReadoutsOk,
      WellTimed, DistinctReadouts, AddActions, AddReady, AddReadouts;
    var d, past := Prepare(p, r.state, l).value, Past(r.state);
    assert forall k | 0 <= k < |d.readouts| :: past <= d.readouts[k].ready;
    AcceptKeepsBoundaries(r.state.boundaries, r.accepted, r.readouts, past, d.actions, d.readouts);
    ActiveUnchanged(r.state.active, r.accepted, past, d.actions);
    InsertKeeps(r.state.readouts, r.readouts, past, r.outcomes, d.readouts);
  }

  lemma SubmitKeepsLogs(r: Run, past: nat, actions: seq<Scheduled>, more: seq<Readout>)
    requires LogsOk(r, past) && WellTimed(actions) && (forall k | 0 <= k < |actions| :: past <= actions[k].start)
    requires Fresh(more) && forall k | 0 <= k < |more| :: past <= more[k].end
    ensures LogOk(StartMarks(r.accepted + actions), r.started, past) && LogOk(EndMarks(r.accepted + actions), r.ended, past)
    ensures LogOk(SampleMarks(r.readouts + more), r.sampled, past) && LogOk(ReadyMarks(r.readouts + more), r.delivered, past)
  {
    hide LogOk;
    assert StartMarks(r.accepted + actions) == StartMarks(r.accepted) + StartMarks(actions);
    assert EndMarks(r.accepted + actions) == EndMarks(r.accepted) + EndMarks(actions);
    assert SampleMarks(r.readouts + more) == SampleMarks(r.readouts) + SampleMarks(more);
    assert ReadyMarks(r.readouts + more) == ReadyMarks(r.readouts) + ReadyMarks(more);
    assert forall k | 0 <= k < |actions| :: actions[k].start < actions[k].end;
    LogExtends(StartMarks(r.accepted), r.started, past, StartMarks(actions));
    LogExtends(EndMarks(r.accepted), r.ended, past, EndMarks(actions));
    LogExtends(SampleMarks(r.readouts), r.sampled, past, SampleMarks(more));
    LogExtends(ReadyMarks(r.readouts), r.delivered, past, ReadyMarks(more));
  }

  lemma SubmitKeeps(p: Profile, r: Run, l: Launch)
    requires RunOk(p, r) && Legal(p, r, Submit(l)) && Next(p, r, Submit(l)).Ok?
    ensures RunOk(p, Next(p, r, Submit(l)).value)
  {
    hide Prepare, Accept, Legal, AcceptedOk, StateOk, LogOk, ResultsOk, HistoryOk, WellTimed, Fresh, DeliveryOrder, ResultsCome;
    AcceptParts(p, r.state, l);
    SubmitKeepsAccepted(p, r, l);
    SubmitKeepsState(p, r, l);
    NewAreLater(p, r, l);
    var d := Prepare(p, r.state, l).value;
    SubmitKeepsLogs(r, Past(r.state), d.actions, d.readouts);
    OrderGrows(r.readouts, d.readouts, r.delivered);
    ResultsStillCome(r.readouts, d.readouts, r.results);
  }

  // ---- Processing ----

  lemma NothingEarlier(s: State, accepted: seq<Scheduled>, readouts: seq<Readout>, now: nat, t: nat)
    requires BoundariesOk(s.boundaries, accepted, readouts, Past(s)) && (forall k | k in s.boundaries :: now <= k) && Past(s) <= t < now
    ensures StartsAt(accepted, t) == [] && EndsAt(accepted, t) == [] && ReadyAt(readouts, t) == []
  {
    assert BoundaryAt(s.boundaries, t) == DueAt(accepted, readouts, t);
  }

  /** The first boundary holds what is due now, and nothing was due since the past. */
  lemma FirstBoundary(s: State, accepted: seq<Scheduled>, readouts: seq<Readout>, now: nat)
    requires BoundariesOk(s.boundaries, accepted, readouts, Past(s)) && now in s.boundaries && forall t | t in s.boundaries :: now <= t
    ensures Past(s) <= now && s.boundaries[now] == DueAt(accepted, readouts, now)
    ensures NothingBetween(accepted, Past(s), now) && forall i | 0 <= i < |readouts| :: !(Past(s) <= readouts[i].ready < now)
  {
    var past := Past(s);
    assert BoundaryAt(s.boundaries, now) == DueAt(accepted, readouts, now);
    hide StartsAt, EndsAt, ReadyAt;
    forall a | a in accepted
      ensures !(past <= a.start < now) && !(past <= a.end < now)
    {
      StartsMembers(accepted, a.start);
      StartsMembers(accepted, a.end);
      assert a in StartsAt(accepted, a.start) && a.event.id in EndsAt(accepted, a.end);
      if past <= a.start < now {
        NothingEarlier(s, accepted, readouts, now, a.start);
      }
      if past <= a.end < now {
        NothingEarlier(s, accepted, readouts, now, a.end);
      }
    }
    forall i | 0 <= i < |readouts|
      ensures !(past <= readouts[i].ready < now)
    {
      ReadyMembers(readouts, readouts[i].ready);
      assert readouts[i].reference.measurement in ReadyAt(readouts, readouts[i].ready);
      if past <= readouts[i].ready < now {
        NothingEarlier(s, accepted, readouts, now, readouts[i].ready);
      }
    }
  }

  lemma NoneEndBetween(accepted: seq<Scheduled>, readouts: seq<Readout>, past: nat, now: nat)
    requires NothingBetween(accepted, past, now) && Matched(readouts, Acquired(accepted))
    requires forall i | 0 <= i < |readouts| :: !(past <= readouts[i].ready < now)
    ensures NoneBetween(readouts, past, now) && Fresh(readouts)
  {
    AcquiredMembers(accepted);
    hide Acquired;
    forall i | 0 <= i < |readouts|
      ensures !(past <= readouts[i].end < now) && readouts[i].end <= readouts[i].ready && readouts[i].sample.None?
    {
      assert ReadoutOf(readouts[i], Acquired(accepted)[i]) && Acquired(accepted)[i] in accepted;
    }
  }

  /** What is due at a boundary of a reachable device. */
  ghost predicate Due(p: Profile, r: Run, now: nat) {
    && now in r.state.boundaries && Past(r.state) <= now && r.state.boundaries[now] == DueAt(r.accepted, r.readouts, now)
    && NothingBetween(r.accepted, Past(r.state), now) && NoneBetween(r.readouts, Past(r.state), now) && Fresh(r.readouts)
    && RefsEnding(r.readouts, now) == RefsAt(r.accepted, now)
    && Compatible(r.accepted) && DistinctIds(r.accepted) && WellTimed(r.accepted)
  }

  lemma BoundaryIsDue(p: Profile, r: Run, now: nat)
    requires RunOk(p, r) && Legal(p, r, Physical(now))
    ensures Due(p, r, now) && now in r.state.boundaries
  {
    hide LogsOk, ResultsOk, HistoryOk, ActiveOk, ReadoutsOk, BoundariesOk, DueAt, NothingBetween, AllOk, Compatible,
      Matched;
    FirstBoundary(r.state, r.accepted, r.readouts, now);
    NoneEndBetween(r.accepted, r.readouts, Past(r.state), now);
    RefsAgree(r.readouts, r.accepted, now);
    CompatibleIds(r.accepted);
  }

  lemma EndingIsActive(accepted: seq<Scheduled>, active: seq<Scheduled>, past: nat, now: nat, i: nat)
    requires ActiveOk(active, accepted, past) && past <= now && NothingBetween(accepted, past, now) && WellTimed(accepted)
    requires i < |accepted| && accepted[i].end == now
    ensures accepted[i] in active
  {
    assert accepted[i] in accepted && accepted[i].start < accepted[i].end;
  }

  /** The actions that end are active, and the acquisitions among them have different targets. */
  lemma SamplesFound(p: Profile, r: Run, now: nat)
    requires RunOk(p, r) && Due(p, r, now)
    ensures Samples(r.state.active, EndsAt(r.accepted, now)) == Ok(RefsAt(r.accepted, now)) && DistinctTargets(RefsAt(r.accepted, now))
  {
    hide LogsOk, ResultsOk, HistoryOk, ReadoutsOk, BoundariesOk, NothingBetween, Compatible, Matched, ActionOk,
      Referenced, WellTimed, DueAt, LedgerOk;
    forall i | 0 <= i < |r.accepted|
      ensures Referenced(r.accepted[i]) && (r.accepted[i].end == now ==> r.accepted[i] in r.state.active)
    {
      if r.accepted[i].end == now {
        EndingIsActive(r.accepted, r.state.active, Past(r.state), now, i);
      }
    }
    SamplesAreDue(r.state.active, r.accepted, now);
    SampledOnce(p, r.accepted, now);
  }

  /** The starting actions are valid, and none is a gate on a sampled target. */
  lemma StartsValid(p: Profile, r: Run, now: nat)
    requires RunOk(p, r) && Due(p, r, now)
    ensures
      var starts := StartsAt(r.accepted, now);
      StartingOk(p, now, starts) && CheckStarts(p, RefsAt(r.accepted, now), starts) == Ok(())
  {
    hide LogsOk, ResultsOk, HistoryOk, StateOk, NothingBetween, Compatible, Matched, WellTimed, DueAt, LedgerOk,
      ActionOk, CheckStart, RefsAt;
    var starts := StartsAt(r.accepted, now);
    StartsMembers(r.accepted, now);
    hide StartsAt;
    forall i | 0 <= i < |starts|
      ensures CheckStart(p, RefsAt(r.accepted, now), starts[i]).Ok?
    {
      assert starts[i] in starts;
      StartPasses(p, r.accepted, starts[i], now);
    }
    forall a | a in starts
      ensures ActionOk(p, a) && a.start == now
    {
      var k :| 0 <= k < |r.accepted| && r.accepted[k] == a;
      assert ActionOk(p, r.accepted[k]);
    }
    StartsPass(p, RefsAt(r.accepted, now), starts);
  }

  /** Every two-qubit gate whose outputs start now has exactly one output on each of its inputs. */
  ghost predicate GatesReady(p: Profile, r: Run, now: nat) {
    forall k | 0 <= k < |p.gates| :: ReadyGate(p, StartsAt(r.accepted, now), k)
  }

  /** A boundary is refused before the backend is touched exactly when a two-qubit gate is incomplete. */
  lemma BoundaryChecks(p: Profile, r: Run, now: nat)
    requires RunOk(p, r) && Due(p, r, now)
    ensures
      var c := CheckBoundary(p, r.state, now);
      && (!GatesReady(p, r, now) ==> c == Err(GateInputMismatch))
      && (GatesReady(p, r, now) ==> c.Ok? && c.value.samples == RefsAt(r.accepted, now) && ProperGates(p, c.value.gates))
      && DistinctTargets(RefsAt(r.accepted, now))
  {
    hide RunOk, Samples, StartingOk, CheckStarts, PairedGates, IdealGates, DistinctTargets, ProperGates, RefsAt,
      StartsAt, EndsAt, ReadyAt, ReadyGate, Compatible, WellTimed, Fresh, NoneBetween, NothingBetween,
      DistinctIds, RefsEnding;
    SamplesFound(p, r, now);
    StartsValid(p, r, now);
    var starts := StartsAt(r.accepted, now);
    GatesPair(p, now, starts, 0);
    IdealGatesProper(p, now, starts);
    var paired := PairedGates(p, now, starts, 0);
    if paired.Ok? {
      ProperAppends(p, IdealGates(starts), paired.value);
    }
  }

  // ---- What a processed boundary leaves ----

  lemma ProcessParts(p: Profile, s: State, now: nat)
    requires now in s.boundaries && s.lastTick <= now && (s.processed.Some? ==> s.processed.value < now)
    ensures
      var c := CheckBoundary(p, s, now);
      c.Err? ==> Process(p, s, now) == Err(c.error)
  {
    hide CheckBoundary, MeasureWork, SampleAll, ApplyGates, DeliverAll, StartAll, RemoveAll, Kept;
  }

  /** When all but the backend is in order, a boundary does what its parts do. */
  lemma ProcessDone(p: Profile, s: State, now: nat, active: seq<Scheduled>)
    requires now in s.boundaries && s.lastTick <= now && (s.processed.Some? ==> s.processed.value < now) && CheckBoundary(p, s, now).Ok?
    requires
      var w := CheckBoundary(p, s, now).value;
      var m := MeasureWork(p, s, now, w);
      && StartAll(RemoveAll(s.active, s.boundaries[now].ends), s.boundaries[now].starts) == Ok(active)
      && (m.Ok? ==> |w.samples| == |m.value.outcomes| && SampleAll(s.readouts, w.samples, m.value.outcomes).Ok?
                    && DeliverAll(SampleAll(s.readouts, w.samples, m.value.outcomes).value, s.boundaries[now].ready).Ok?)
    ensures
      var w := CheckBoundary(p, s, now).value;
      var e := ExecuteWork(p, s, now, w);
      && (e.Err? ==> Process(p, s, now) == Err(e.error))
      && (e.Ok? ==>
            && MeasureWork(p, s, now, w).Ok? && e.value.outcomes == MeasureWork(p, s, now, w).value.outcomes
            && var d := DeliverAll(SampleAll(s.readouts, w.samples, e.value.outcomes).value, s.boundaries[now].ready).value;
               Process(p, s, now)
               == Ok(Some(Processed(State(Kept(s.table, now), s.boundaries - {now}, active, d.readouts, now, Some(now), e.value.execution),
                                    w, e.value.outcomes, d.delivered))))
  {
    hide CheckBoundary, MeasureWork, ApplyGates, SampleAll, DeliverAll, StartAll, RemoveAll, Kept;
  }

  /** The state and the logged work of a boundary, in terms of what was accepted. */
  ghost predicate DoneOk(p: Profile, r: Run, now: nat, done: Processed) {
    var m := if |done.work.samples| == |done.outcomes| then Measured(r.outcomes, done.work.samples, done.outcomes) else r.outcomes;
    && done.work.samples == RefsEnding(r.readouts, now) && |done.work.samples| == |done.outcomes|
    && DistinctTargets(done.work.samples) && ProperGates(p, done.work.gates)
    && ExecuteWork(p, r.state, now, done.work).Ok? && done.state.execution == ExecuteWork(p, r.state, now, done.work).value.execution
    && done.state.execution.committed == now
    && done.state.table == Kept(r.state.table, now) && done.state.boundaries == r.state.boundaries - {now}
    && done.state.lastTick == now && done.state.processed == Some(now)
    && ActiveOk(done.state.active, r.accepted, now + 1)
    && ReadoutsOk(done.state.readouts, r.readouts, now + 1, m)
    && ResultIds(done.delivered) == ReadyAt(r.readouts, now) && ResultsCome(r.readouts, done.delivered)
    && (forall k | 0 <= k < |done.delivered| ::
          var id := done.delivered[k].reference.measurement; id in m && done.delivered[k].value == m[id])
    && (forall i | 0 <= i < |r.readouts| && r.readouts[i].end < Past(r.state) && r.readouts[i].reference.measurement in r.outcomes ::
          r.readouts[i].reference.measurement in m && m[r.readouts[i].reference.measurement] == r.outcomes[r.readouts[i].reference.measurement])
  }

  /** The readouts of a boundary: all it samples are pending, all it delivers are sampled. */
  lemma BoundaryReadouts(p: Profile, r: Run, now: nat, values: seq<bool>)
    requires RunOk(p, r) && Due(p, r, now) && |values| == |RefsEnding(r.readouts, now)|
    ensures
      var refs, ready := RefsEnding(r.readouts, now), ReadyAt(r.readouts, now);
      var sampled, m := SampleAll(r.state.readouts, refs, values), Measured(r.outcomes, refs, values);
      && sampled.Ok? && DeliverAll(sampled.value, ready).Ok?
      && ReadoutsOk(DeliverAll(sampled.value, ready).value.readouts, r.readouts, now + 1, m)
      && |DeliverAll(sampled.value, ready).value.delivered| == |ready|
      && (forall k | 0 <= k < |ready| ::
            var c := DeliverAll(sampled.value, ready).value.delivered[k];
            ready[k] in m && c.reference.measurement == ready[k] && c.value == m[ready[k]] && Comes(r.readouts, c.reference))
      && (forall i | 0 <= i < |r.readouts| && r.readouts[i].end < Past(r.state) && r.readouts[i].reference.measurement in r.outcomes ::
            r.readouts[i].reference.measurement in m && m[r.readouts[i].reference.measurement] == r.outcomes[r.readouts[i].reference.measurement])
  {
    hide LogsOk, ResultsOk, HistoryOk, ActiveOk, BoundariesOk, LedgerOk, AllOk, Matched, NothingBetween, Compatible,
      DueAt, WellTimed, DistinctIds, RefsAt, SampleAll, DeliverAll, Measured, DistinctReadouts, Held, Fresh,
      NoneBetween, Comes, ResultsCome, DeliveryOrder;
    SampleKeeps(r.state.readouts, r.readouts, Past(r.state), now, r.outcomes, values);
    var refs := RefsEnding(r.readouts, now);
    var sampled, m := SampleAll(r.state.readouts, refs, values).value, Measured(r.outcomes, refs, values);
    DeliverKeeps(sampled, r.readouts, Past(r.state), now, m);
  }

  lemma BoundaryActive(p: Profile, r: Run, now: nat)
    requires RunOk(p, r) && Due(p, r, now)
    ensures
      var a := StartAll(RemoveAll(r.state.active, EndsAt(r.accepted, now)), StartsAt(r.accepted, now));
      a.Ok? && ActiveOk(a.value, r.accepted, now + 1)
  {
    hide LogsOk, ResultsOk, HistoryOk, ActiveOk, BoundariesOk, ReadoutsOk, AcceptedOk, NothingBetween, Compatible,
      DueAt, WellTimed, DistinctIds, RefsAt, RefsEnding, NoneBetween, Fresh, StartAll, RemoveAll;
    BoundaryKeepsActive(r.state.active, r.accepted, Past(r.state), now);
  }

  /** No guard of a boundary fires, except an incomplete two-qubit gate's or the backend's own. */
  lemma BoundaryProcesses(p: Profile, r: Run, now: nat)
    requires RunOk(p, r) && Due(p, r, now)
    ensures
      var d := Process(p, r.state, now);
      && (!GatesReady(p, r, now) ==> d == Err(GateInputMismatch))
      && (GatesReady(p, r, now) ==> d == Err(BackendFailure) || (d.Ok? && d.value.Some? && DoneOk(p, r, now, d.value.value)))
      && (GatesReady(p, r, now) && Answers(p.backend) ==> d.Ok?)
  {
    hide RunOk, CheckBoundary, ExecuteWork, MeasureWork, Process, GatesReady, DistinctTargets, ProperGates,
      NothingBetween, Compatible, WellTimed, DistinctIds, RefsAt, RefsEnding, NoneBetween, Fresh, StartAll,
      RemoveAll, SampleAll, DeliverAll, ActiveOk, ReadoutsOk, StartsAt, EndsAt, ReadyAt, Measured, Comes, Answers;
    BoundaryChecks(p, r, now);
    TimesFollow(p, r);
    ProcessParts(p, r.state, now);
    if GatesReady(p, r, now) {
      var w := CheckBoundary(p, r.state, now).value;
      var m := MeasureWork(p, r.state, now, w);
      ExecutionFaults(p, r.state, now, w);
      if Answers(p.backend) {
        AnsweredWork(p, r.state, now, w);
      }
      if m.Ok? {
        BoundaryReadouts(p, r, now, m.value.outcomes);
      }
      BoundaryActive(p, r, now);
      ProcessDone(p, r.state, now, StartAll(RemoveAll(r.state.active, EndsAt(r.accepted, now)), StartsAt(r.accepted, now)).value);
      if ExecuteWork(p, r.state, now, w).Ok? {
        var done := Process(p, r.state, now).value.value;
        assert ResultIds(done.delivered) == ReadyAt(r.readouts, now);
      }
    }
  }

  lemma TimesFollow(p: Profile, r: Run)
    requires RunOk(p, r)
    ensures r.state.execution.committed == r.state.lastTick <= Past(r.state)
    ensures r.state.processed.Some? ==> r.state.lastTick == r.state.processed.value
    ensures r.state.processed.None? ==> r.state.lastTick == 0
    ensures r.backend.state == r.state.execution
  {
    hide AcceptedOk, LogsOk, ResultsOk, HistoryOk, ActiveOk, ReadoutsOk, BoundariesOk;
  }

  lemma CallsProper(p: Profile, r: Run, now: nat, w: Work)
    requires RunOk(p, r) && Due(p, r, now) && ProperGates(p, w.gates)
    requires w.samples == RefsEnding(r.readouts, now) && DistinctTargets(w.samples)
    ensures forall i | 0 <= i < |CallsOf(r.state, now, w)| :: ProperCall(p.backend, CallsOf(r.state, now, w)[i])
  {
    GatesAreProper(p, now, w.gates);
    AcceptedAllOk(p, r);
    SampledInRegister(p, r.accepted, now);
    hide AcceptedOk, LogsOk, ResultsOk, HistoryOk, ActiveOk, ReadoutsOk, BoundariesOk, ProperCall, ProperGates,
      DistinctTargets, NothingBetween, Compatible, WellTimed, DistinctIds, RefsAt, RefsEnding, NoneBetween, Fresh,
      ActivitiesOf, AllOk, DueAt;
    MeasurementIsProper(p, now, w.samples);
    if r.state.lastTick < now {
      ActiveSpan(p, r.state.active, r.accepted, r.state, now);
      EvolutionIsProper(p, r.state.active, r.state.lastTick, now);
    }
  }

  lemma AcceptedAllOk(p: Profile, r: Run)
    requires RunOk(p, r)
    ensures AllOk(p, r.accepted) && LedgerOk(Ledger(r.state.table, r.accepted, r.state.lastTick)) && DistinctReadouts(r.readouts)
    ensures Matched(r.readouts, Acquired(r.accepted))
  {
    hide AllOk, LedgerOk, Matched, DistinctReadouts, StateOk, LogsOk, ResultsOk, HistoryOk;
  }

  /** The active actions cover the whole interval since the last boundary. */
  lemma ActiveSpan(p: Profile, active: seq<Scheduled>, accepted: seq<Scheduled>, s: State, now: nat)
    requires ActiveOk(active, accepted, Past(s)) && AllOk(p, accepted) && NothingBetween(accepted, Past(s), now)
    requires (s.processed.None? ==> s.lastTick == 0) && (s.processed.Some? ==> s.lastTick == s.processed.value) && Past(s) <= now
    ensures forall a | a in active :: ActionOk(p, a) && a.start <= s.lastTick && now <= a.end
  {
    hide ActionOk, Referenced;
    forall a | a in active
      ensures ActionOk(p, a) && a.start <= s.lastTick && now <= a.end
    {
      var k :| 0 <= k < |accepted| && accepted[k] == a;
      assert ActionOk(p, accepted[k]);
    }
  }

  /** The backend's history stays one that every receiver accepts. */
  lemma BackendFollows(p: Profile, r: Run, now: nat, done: Processed)
    requires 0 < p.limit && RunOk(p, r) && Due(p, r, now) && DoneOk(p, r, now, done)
    ensures
      var h := RunCalls(p.backend, p.limit, r.backend, CallsOf(r.state, now, done.work));
      h.Ok? && HistoryOk(p.backend, p.limit, h.value) && h.value.state == done.state.execution
      && h.value.calls == r.backend.calls + CallsOf(r.state, now, done.work)
  {
    CallsProper(p, r, now, done.work);
    TimesFollow(p, r);
    hide AcceptedOk, StateOk, LogsOk, ResultsOk, HistoryOk, ProperCall, ProperGates, DistinctTargets, Due, CallsOf,
      ExecuteWork, ActiveOk, ReadoutsOk, RefsEnding, Measured, ReadyAt, RunCalls;
    WorkIsCalls(p, r.state, now, done.work, r.backend);
    RunsKeepHistory(p.backend, p.limit, r.backend, CallsOf(r.state, now, done.work));
  }

  // ---- The logs follow ----

  lemma StartedMarks(starts: seq<Scheduled>, now: nat)
    requires forall a | a in starts :: a.start == now
    ensures IdMarks(EventIds(starts), now) == StartMarks(starts)
  {
    forall i | 0 <= i < |starts|
      ensures starts[i].start == now
    {
      assert starts[i] in starts;
    }
  }

  lemma MarksOfActions(accepted: seq<Scheduled>, past: nat, now: nat)
    requires DistinctIds(accepted) && NothingBetween(accepted, past, now)
    ensures DistinctMarks(StartMarks(accepted)) && DistinctMarks(EndMarks(accepted))
    ensures forall m | m in StartMarks(accepted) :: !(past <= m.tick < now)
    ensures forall m | m in EndMarks(accepted) :: !(past <= m.tick < now)
  {
    forall m | m in StartMarks(accepted)
      ensures !(past <= m.tick < now)
    {
      var i :| 0 <= i < |accepted| && StartMarks(accepted)[i] == m;
      assert accepted[i] in accepted;
    }
    forall m | m in EndMarks(accepted)
      ensures !(past <= m.tick < now)
    {
      var i :| 0 <= i < |accepted| && EndMarks(accepted)[i] == m;
      assert accepted[i] in accepted;
    }
  }

  lemma MarksOfReadouts(readouts: seq<Readout>, past: nat, now: nat)
    requires DistinctReadouts(readouts) && NoneBetween(readouts, past, now)
    ensures DistinctMarks(SampleMarks(readouts)) && DistinctMarks(ReadyMarks(readouts))
    ensures forall m | m in SampleMarks(readouts) :: !(past <= m.tick < now)
    ensures forall m | m in ReadyMarks(readouts) :: !(past <= m.tick < now)
  {
  }

  lemma ActionLogsFollow(accepted: seq<Scheduled>, started: seq<Mark>, ended: seq<Mark>, past: nat, now: nat)
    requires DistinctIds(accepted) && NothingBetween(accepted, past, now) && past <= now
    requires LogOk(StartMarks(accepted), started, past) && LogOk(EndMarks(accepted), ended, past)
    ensures LogOk(StartMarks(accepted), started + IdMarks(EventIds(StartsAt(accepted, now)), now), now + 1)
    ensures LogOk(EndMarks(accepted), ended + IdMarks(EndsAt(accepted, now), now), now + 1)
  {
    MarksOfActions(accepted, past, now);
    StartsAreMarks(accepted, now);
    StartsMembers(accepted, now);
    hide StartsAt, EndsAt, LogOk, At, StartMarks, EndMarks, DistinctMarks, DistinctIds, NothingBetween;
    StartedMarks(StartsAt(accepted, now), now);
    LogAdvances(StartMarks(accepted), started, past, now);
    LogAdvances(EndMarks(accepted), ended, past, now);
  }

  lemma ReadoutLogsFollow(readouts: seq<Readout>, sampled: seq<Mark>, delivered: seq<Mark>, past: nat, now: nat)
    requires DistinctReadouts(readouts) && NoneBetween(readouts, past, now) && past <= now
    requires LogOk(SampleMarks(readouts), sampled, past) && LogOk(ReadyMarks(readouts), delivered, past)
    ensures LogOk(SampleMarks(readouts), sampled + IdMarks(IdsOf(RefsEnding(readouts, now)), now), now + 1)
    ensures LogOk(ReadyMarks(readouts), delivered + IdMarks(ReadyAt(readouts, now), now), now + 1)
  {
    MarksOfReadouts(readouts, past, now);
    RefsAreMarks(readouts, now);
    ReadyAreMarks(readouts, now);
    hide RefsEnding, ReadyAt, LogOk, At, SampleMarks, ReadyMarks, DistinctMarks, DistinctReadouts, NoneBetween;
    LogAdvances(SampleMarks(readouts), sampled, past, now);
    LogAdvances(ReadyMarks(readouts), delivered, past, now);
  }

  /** Delivered values stay the outcomes measured. */
  lemma ResultsFollow(results: seq<Completion>, delivered: seq<Mark>, readouts: seq<Readout>, past: nat, outcomes: map<nat, bool>,
                      m: map<nat, bool>, more: seq<Completion>, now: nat)
    requires ResultsOk(results, delivered, outcomes) && LogOk(ReadyMarks(readouts), delivered, past) && Fresh(readouts)
    requires forall i | 0 <= i < |readouts| && readouts[i].end < past && readouts[i].reference.measurement in outcomes ::
               readouts[i].reference.measurement in m && m[readouts[i].reference.measurement] == outcomes[readouts[i].reference.measurement]
    requires forall k | 0 <= k < |more| :: var id := more[k].reference.measurement; id in m && more[k].value == m[id]
    ensures ResultsOk(results + more, delivered + IdMarks(ResultIds(more), now), m)
  {
    hide Fresh;
    var all, marks := results + more, delivered + IdMarks(ResultIds(more), now);
    forall k | 0 <= k < |all|
      ensures var id := all[k].reference.measurement; marks[k].id == id && id in m && all[k].value == m[id]
    {
      if k < |results| {
        assert delivered[k] in delivered;
        var i :| 0 <= i < |readouts| && ReadyMarks(readouts)[i] == delivered[k];
        EndedBefore(readouts, i, past);
        assert readouts[i].reference.measurement == results[k].reference.measurement;
      } else {
        assert all[k] == more[k - |results|];
      }
    }
  }

  lemma EndedBefore(readouts: seq<Readout>, i: nat, past: nat)
    requires Fresh(readouts) && i < |readouts| && readouts[i].ready < past
    ensures readouts[i].end < past
  {
  }

  lemma BoundariesAdvance(boundaries: map<nat, Boundary>, accepted: seq<Scheduled>, readouts: seq<Readout>, past: nat, now: nat)
    requires BoundariesOk(boundaries, accepted, readouts, past) && past <= now && forall t | t in boundaries :: now <= t
    ensures BoundariesOk(boundaries - {now}, accepted, readouts, now + 1)
  {
    hide DueAt;
    var left: map<nat, Boundary> := boundaries - {now};
    forall t | now + 1 <= t
      ensures BoundaryAt(left, t) == DueAt(accepted, readouts, t)
    {
      assert BoundaryAt(boundaries, t) == DueAt(accepted, readouts, t);
    }
  }

  lemma LedgerPrunes(table: seq<Scheduled>, accepted: seq<Scheduled>, before: nat, now: nat)
    requires LedgerOk(Ledger(table, accepted, before)) && before <= now
    ensures LedgerOk(Ledger(Kept(table, now), accepted, now))
  {
    hide LedgerOk, Kept;
    OpKeepsLedger(Ledger(table, accepted, before), Discard(now));
  }

  lemma PhysicalKeepsAccepted(p: Profile, r: Run, now: nat, done: Processed)
    requires RunOk(p, r) && Due(p, r, now) && DoneOk(p, r, now, done)
    ensures AcceptedOk(p, r.accepted, r.readouts, done.state.table, done.state.lastTick)
  {
    hide StateOk, LogsOk, ResultsOk, HistoryOk, ActiveOk, ReadoutsOk, BoundariesOk, LedgerOk, AllOk, Matched,
      DistinctReadouts, ProperGates, DistinctTargets, Kept, NothingBetween, Compatible, WellTimed, DistinctIds,
      RefsAt, RefsEnding, NoneBetween, Fresh, Measured, ReadyAt, ExecuteWork, DueAt;
    AcceptedAllOk(p, r);
    TimesFollow(p, r);
    LedgerPrunes(r.state.table, r.accepted, r.state.lastTick, now);
  }

  lemma PhysicalKeepsState(p: Profile, r: Run, now: nat, done: Processed)
    requires RunOk(p, r) && Legal(p, r, Physical(now)) && Due(p, r, now) && DoneOk(p, r, now, done)
    ensures StateOk(done.state, r.accepted, r.readouts, Measured(r.outcomes, done.work.samples, done.outcomes))
  {
    hide AcceptedOk, LogsOk, ResultsOk, HistoryOk, ActiveOk, ReadoutsOk, BoundariesOk, LedgerOk, AllOk, Matched,
      DistinctReadouts, ProperGates, DistinctTargets, Kept, NothingBetween, Compatible, WellTimed, DistinctIds,
      RefsAt, RefsEnding, NoneBetween, Fresh, Measured, ReadyAt, ExecuteWork, DueAt;
    BoundariesAdvance(r.state.boundaries, r.accepted, r.readouts, Past(r.state), now);
  }

  lemma PhysicalKeepsLogs(p: Profile, r: Run, now: nat, done: Processed)
    requires RunOk(p, r) && Due(p, r, now) && DoneOk(p, r, now, done)
    ensures LogOk(StartMarks(r.accepted), r.started + IdMarks(EventIds(r.state.boundaries[now].starts), now), now + 1)
    ensures LogOk(EndMarks(r.accepted), r.ended + IdMarks(r.state.boundaries[now].ends, now), now + 1)
    ensures LogOk(SampleMarks(r.readouts), r.sampled + IdMarks(IdsOf(done.work.samples), now), now + 1)
    ensures LogOk(ReadyMarks(r.readouts), r.delivered + IdMarks(ResultIds(done.delivered), now), now + 1)
    ensures ResultsOk(r.results + done.delivered, r.delivered + IdMarks(ResultIds(done.delivered), now),
                      Measured(r.outcomes, done.work.samples, done.outcomes))
    ensures ResultsCome(r.readouts, r.results + done.delivered)
    ensures DeliveryOrder(r.readouts, r.delivered + IdMarks(ResultIds(done.delivered), now))
  {
    AcceptedAllOk(p, r);
    hide AcceptedOk, StateOk, ResultsOk, HistoryOk, LogOk, ActiveOk, ReadoutsOk, ProperGates, DistinctTargets, Kept,
      NothingBetween, Compatible, WellTimed, DistinctIds, RefsAt, RefsEnding, NoneBetween, Fresh, Measured,
      ReadyAt, StartsAt, EndsAt, ExecuteWork, DistinctReadouts, Matched, AllOk, LedgerOk, DeliveryOrder, ResultsCome;
    OrderFollows(r.readouts, r.delivered, Past(r.state), now);
    MoreResultsCome(r.readouts, r.results, done.delivered);
    ActionLogsFollow(r.accepted, r.started, r.ended, Past(r.state), now);
    ReadoutLogsFollow(r.readouts, r.sampled, r.delivered, Past(r.state), now);
    ResultsFollow(r.results, r.delivered, r.readouts, Past(r.state), r.outcomes, Measured(r.outcomes, done.work.samples, done.outcomes), done.delivered, now);
  }

  lemma PhysicalKeeps(p: Profile, r: Run, now: nat)
    requires 0 < p.limit && RunOk(p, r) && Legal(p, r, Physical(now)) && Next(p, r, Physical(now)).Ok?
    ensures RunOk(p, Next(p, r, Physical(now)).value)
  {
    hide Process, Due, DoneOk, Legal, RunOk, AcceptedOk, StateOk, LogOk, ResultsOk, HistoryOk, GatesReady, Measured,
      RunCalls, CallsOf, Next, Logged, Past, DeliveryOrder, ResultsCome;
    BoundaryIsDue(p, r, now);
    BoundaryProcesses(p, r, now);
    PhysicalIsLogged(p, r, now);
    var done := Process(p, r.state, now).value.value;
    BackendFollows(p, r, now, done);
    PhysicalKeepsAccepted(p, r, now, done);
    PhysicalKeepsState(p, r, now, done);
    PhysicalKeepsLogs(p, r, now, done);
    DoneTimes(p, r, now, done);
    LoggedIsOk(p, r, now, done);
  }

  lemma PhysicalIsLogged(p: Profile, r: Run, now: nat)
    requires Process(p, r.state, now).Ok? ==> Process(p, r.state, now).value.Some?
    requires Next(p, r, Physical(now)).Ok?
    ensures Process(p, r.state, now).Ok? && Process(p, r.state, now).value.Some?
    ensures
      var done := Process(p, r.state, now).value.value;
      |done.work.samples| == |done.outcomes| && Next(p, r, Physical(now)) == Logged(p, r, now, done)
  {
    hide Process, Logged;
  }

  lemma LoggedIsOk(p: Profile, r: Run, now: nat, done: Processed)
    requires |done.work.samples| == |done.outcomes| && Logged(p, r, now, done).Ok? && now in r.state.boundaries
    requires AcceptedOk(p, r.accepted, r.readouts, done.state.table, done.state.lastTick)
    requires StateOk(done.state, r.accepted, r.readouts, Measured(r.outcomes, done.work.samples, done.outcomes))
    requires LogOk(StartMarks(r.accepted), r.started + IdMarks(EventIds(r.state.boundaries[now].starts), now), Past(done.state))
    requires LogOk(EndMarks(r.accepted), r.ended + IdMarks(r.state.boundaries[now].ends, now), Past(done.state))
    requires LogOk(SampleMarks(r.readouts), r.sampled + IdMarks(IdsOf(done.work.samples), now), Past(done.state))
    requires LogOk(ReadyMarks(r.readouts), r.delivered + IdMarks(ResultIds(done.delivered), now), Past(done.state))
    requires ResultsOk(r.results + done.delivered, r.delivered + IdMarks(ResultIds(done.delivered), now),
                       Measured(r.outcomes, done.work.samples, done.outcomes))
    requires ResultsCome(r.readouts, r.results + done.delivered)
    requires DeliveryOrder(r.readouts, r.delivered + IdMarks(ResultIds(done.delivered), now))
    requires
      var h := RunCalls(p.backend, p.limit, r.backend, CallsOf(r.state, now, done.work));
      h.Ok? && HistoryOk(p.backend, p.limit, h.value) && h.value.state == done.state.execution
    ensures RunOk(p, Logged(p, r, now, done).value)
  {
    hide AcceptedOk, StateOk, LogOk, ResultsOk, HistoryOk, Measured, RunCalls, CallsOf, Past, IdMarks, EventIds,
      IdsOf, ResultIds, StartMarks, EndMarks, SampleMarks, ReadyMarks, DeliveryOrder, ResultsCome;
  }

  lemma DoneTimes(p: Profile, r: Run, now: nat, done: Processed)
    requires DoneOk(p, r, now, done)
    ensures |done.work.samples| == |done.outcomes| && Past(done.state) == now + 1
  {
    hide ActiveOk, ReadoutsOk, ProperGates, DistinctTargets, Measured, ExecuteWork;
  }

  // ---- Whole runs ----

  function RunDevice(p: Profile, r: Run, ops: seq<Op>): Result<Run>
    decreases |ops|
  {
    if ops == [] then Ok(r)
    else
      var next :- Next(p, r, ops[0]);
      RunDevice(p, next, ops[1..])
  }

  ghost predicate LegalRun(p: Profile, r: Run, ops: seq<Op>)
    decreases |ops|
  {
    ops != [] ==> Legal(p, r, ops[0]) && (Next(p, r, ops[0]).Ok? ==> LegalRun(p, Next(p, r, ops[0]).value, ops[1..]))
  }

  lemma {:induction false} RunsKeep(p: Profile, r: Run, ops: seq<Op>)
    requires 0 < p.limit && RunOk(p, r) && LegalRun(p, r, ops) && RunDevice(p, r, ops).Ok?
    ensures RunOk(p, RunDevice(p, r, ops).value)
    decreases |ops|
  {
    hide RunOk, Legal, Next;
    if ops != [] {
      match ops[0] {
        case Submit(l) => SubmitKeeps(p, r, l);
        case Physical(now) => PhysicalKeeps(p, r, now);
      }
      RunsKeep(p, Next(p, r, ops[0]).value, ops[1..]);
    }
  }

  ghost predicate Reachable(p: Profile, r: Run) {
    exists ops :: LegalRun(p, START, ops) && RunDevice(p, START, ops) == Ok(r)
  }

  lemma ReachableIsOk(p: Profile, r: Run)
    requires 0 < p.limit && Reachable(p, r)
    ensures RunOk(p, r)
  {
    hide RunOk, LegalRun, RunDevice;
    var ops :| LegalRun(p, START, ops) && RunDevice(p, START, ops) == Ok(r);
    StartIsOk(p);
    RunsKeep(p, START, ops);
  }

  /**
   * In every run each accepted action starts exactly once, at its start, and ends exactly once, at its end;
   * each acquisition is sampled exactly once, at its end, and delivered exactly once, when it is ready.
   */
  lemma EverythingHappensOnce(p: Profile, r: Run)
    requires 0 < p.limit && Reachable(p, r)
    ensures LogOk(StartMarks(r.accepted), r.started, Past(r.state)) && LogOk(EndMarks(r.accepted), r.ended, Past(r.state))
    ensures LogOk(SampleMarks(r.readouts), r.sampled, Past(r.state)) && LogOk(ReadyMarks(r.readouts), r.delivered, Past(r.state))
    ensures Matched(r.readouts, Acquired(r.accepted)) && DistinctIds(r.accepted) && DistinctReadouts(r.readouts)
  {
    hide Reachable, StateOk, AllOk, LedgerOk, Matched, DistinctReadouts, LogOk, HistoryOk, ResultsOk, DistinctIds,
      Compatible;
    ReachableIsOk(p, r);
    AcceptedAllOk(p, r);
    CompatibleLedger(p, r);
    CompatibleIds(r.accepted);
  }

  lemma CompatibleLedger(p: Profile, r: Run)
    requires RunOk(p, r)
    ensures Compatible(r.accepted)
  {
    AcceptedAllOk(p, r);
    hide RunOk, Compatible, WellTimed, Kept;
  }

  /** Every delivered value is the outcome that the backend measured for it, whatever else was measured since. */
  lemma DeliveredIsMeasured(p: Profile, r: Run, k: nat)
    requires 0 < p.limit && Reachable(p, r) && k < |r.results|
    ensures |r.delivered| == |r.results|
    ensures
      var id := r.results[k].reference.measurement;
      r.delivered[k].id == id && id in r.outcomes && r.results[k].value == r.outcomes[id]
    ensures exists i :: 0 <= i < |r.readouts| && r.delivered[k] == Mark(r.readouts[i].reference.measurement, r.readouts[i].ready)
  {
    hide Reachable, AcceptedOk, StateOk, HistoryOk;
    ReachableIsOk(p, r);
    assert r.delivered[k] in r.delivered;
    var i :| 0 <= i < |r.readouts| && ReadyMarks(r.readouts)[i] == r.delivered[k];
  }

  /**
   * The guards on missing active actions, double starts, sampled targets, unsampled results, duplicate readouts, replayed
   * boundaries and backend times are unreachable. A boundary is refused exactly when a two-qubit gate does not have one
   * output for each of its inputs, before the backend is touched; otherwise only the backend itself can fail, and one
   * that answers every batch never does.
   */
  lemma BoundaryGuardsUnreachable(p: Profile, r: Run, now: nat)
    requires 0 < p.limit && Reachable(p, r) && Legal(p, r, Physical(now))
    ensures !GatesReady(p, r, now) ==> Process(p, r.state, now) == Err(GateInputMismatch)
    ensures GatesReady(p, r, now) && Process(p, r.state, now).Err? ==> Process(p, r.state, now) == Err(BackendFailure)
    ensures Process(p, r.state, now).Ok? ==> Process(p, r.state, now).value.Some?
    ensures GatesReady(p, r, now) && Answers(p.backend) ==> Process(p, r.state, now).Ok?
  {
    hide Reachable, RunOk, Legal, Due, DoneOk, Process, GatesReady, Answers;
    ReachableIsOk(p, r);
    BoundaryIsDue(p, r, now);
    BoundaryProcesses(p, r, now);
  }

  /** In every run the backend is sent batches that carry the calls unchanged and that every receiver accepts. */
  lemma ReceiverAcceptsBatches(p: Profile, r: Run)
    requires 0 < p.limit && Reachable(p, r)
    ensures Concat(r.backend.batches) + r.state.execution.pending == Stream(r.backend.calls)
    ensures forall i | 0 <= i < |r.backend.batches| :: 0 < |r.backend.batches[i]| <= p.limit && ValidBatch(p.backend, r.backend.batches[i])
  {
    hide Reachable, AcceptedOk, StateOk, LogsOk, ResultsOk, ValidBatch, PendingOk, Concat, Stream;
    ReachableIsOk(p, r);
  }

  /** With no boundary left nothing is active and no readout is pending, and everything accepted has started, ended, been sampled and been delivered. */
  lemma DrainedMeansDone(p: Profile, r: Run)
    requires 0 < p.limit && Reachable(p, r)
    ensures Drained(r.state) <==> r.state.boundaries == map[]
    ensures Drained(r.state) ==>
              && (forall a | a in r.accepted :: Mark(a.event.id, a.start) in r.started && Mark(a.event.id, a.end) in r.ended)
              && (forall i | 0 <= i < |r.readouts| :: Mark(r.readouts[i].reference.measurement, r.readouts[i].ready) in r.delivered)
  {
    hide Reachable, RunOk;
    ReachableIsOk(p, r);
    if r.state.boundaries == map[] {
      NothingLeft(p, r);
      AllLogged(p, r);
    }
  }

  lemma LeftParts(p: Profile, r: Run)
    requires RunOk(p, r)
    ensures BoundariesOk(r.state.boundaries, r.accepted, r.readouts, Past(r.state)) && ActiveOk(r.state.active, r.accepted, Past(r.state))
    ensures ReadoutsOk(r.state.readouts, r.readouts, Past(r.state), r.outcomes) && LogsOk(r, Past(r.state)) && WellTimed(r.accepted)
  {
    AcceptedAllOk(p, r);
    hide AcceptedOk, LogsOk, HistoryOk, ResultsOk, BoundariesOk, ActiveOk, ReadoutsOk, Compatible, Kept, AllOk,
      Matched, DistinctReadouts;
  }

  lemma NothingLeft(p: Profile, r: Run)
    requires RunOk(p, r) && r.state.boundaries == map[]
    ensures r.state.active == [] && r.state.readouts == map[]
    ensures (forall a | a in r.accepted :: a.start < a.end < Past(r.state)) && forall i | 0 <= i < |r.readouts| :: r.readouts[i].ready < Past(r.state)
  {
    LeftParts(p, r);
    hide RunOk, BoundariesOk, StartsAt, EndsAt, ReadyAt, LogsOk, Past, DistinctActive, Held;
    var past := Past(r.state);
    forall a | a in r.accepted
      ensures a.start < a.end < past
    {
      var k :| 0 <= k < |r.accepted| && r.accepted[k] == a;
      StartsMembers(r.accepted, a.end);
      assert a.event.id in EndsAt(r.accepted, a.end);
      if past <= a.end {
        NothingEarlier(r.state, r.accepted, r.readouts, a.end + 1, a.end);
      }
    }
    forall i | 0 <= i < |r.readouts|
      ensures r.readouts[i].ready < past
    {
      ReadyMembers(r.readouts, r.readouts[i].ready);
      assert r.readouts[i].reference.measurement in ReadyAt(r.readouts, r.readouts[i].ready);
      if past <= r.readouts[i].ready {
        NothingEarlier(r.state, r.accepted, r.readouts, r.readouts[i].ready + 1, r.readouts[i].ready);
      }
    }
    NoMembers(r.state.active);
    assert forall id :: id !in r.state.readouts;
    assert r.state.readouts.Keys == {};
  }

  lemma NoMembers(active: seq<Scheduled>)
    ensures active == [] <==> forall a :: a !in active
  {
    if active != [] {
      assert active[0] in active;
    }
  }

  lemma AllLogged(p: Profile, r: Run)
    requires RunOk(p, r)
    requires (forall a | a in r.accepted :: a.start < a.end < Past(r.state)) && forall i | 0 <= i < |r.readouts| :: r.readouts[i].ready < Past(r.state)
    ensures forall a | a in r.accepted :: Mark(a.event.id, a.start) in r.started && Mark(a.event.id, a.end) in r.ended
    ensures forall i | 0 <= i < |r.readouts| :: Mark(r.readouts[i].reference.measurement, r.readouts[i].ready) in r.delivered
  {
    LeftParts(p, r);
    hide RunOk, BoundariesOk, ActiveOk, ReadoutsOk, DistinctMarks, WellTimed;
    forall a | a in r.accepted
      ensures Mark(a.event.id, a.start) in r.started && Mark(a.event.id, a.end) in r.ended
    {
      var k :| 0 <= k < |r.accepted| && r.accepted[k] == a;
      assert StartMarks(r.accepted)[k] == Mark(a.event.id, a.start) && EndMarks(r.accepted)[k] == Mark(a.event.id, a.end);
    }
    forall i | 0 <= i < |r.readouts|
      ensures Mark(r.readouts[i].reference.measurement, r.readouts[i].ready) in r.delivered
    {
      assert ReadyMarks(r.readouts)[i] == Mark(r.readouts[i].reference.measurement, r.readouts[i].ready);
    }
  }

  // ---- The end of a run ----

  /** The calls of a finalization: the evolution that remains. */
  function FinalCalls(lastTick: nat, now: nat): seq<Call> {
    if lastTick < now then [Evolves(lastTick, now, [], [])] else []
  }

  /** The backend's history through a finalization. */
  function Finish(p: Profile, s: State, h: History, now: nat): Result<History> {
    var last :- RunCalls(p.backend, p.limit, h, FinalCalls(s.lastTick, now));
    var flushed :- Flush(p.backend, last.state, 0);
    Ok(History(flushed.state, last.calls, if flushed.batch.Some? then last.batches + [flushed.batch.value] else last.batches))
  }

  lemma FinishIsFinalize(p: Profile, s: State, h: History, now: nat)
    requires Drained(s) && s.lastTick <= now && h.state == s.execution && s.execution.committed == s.lastTick
    ensures
      var f, g := Finalize(p, s, now), Finish(p, s, h, now);
      && (f.Ok? <==> g.Ok?) && (f.Ok? ==> f.value.execution == g.value.state) && (f.Err? ==> f.error == BackendFailure)
  {
    hide Flush, Evolve;
    if s.lastTick < now {
      OneCall(p.backend, p.limit, h, Evolves(s.lastTick, now, [], []));
      CommitFaults(p, s, now);
    }
    FlushFaults(p, s.execution);
  }

  lemma OneCall(b: Backend, limit: nat, h: History, call: Call)
    ensures
      var d := Do(b, limit, h.state, call);
      && (d.Ok? ==> RunCalls(b, limit, h, [call]) == Ok(Record(h, call, d.value)))
      && (d.Err? ==> RunCalls(b, limit, h, [call]) == Err(d.error))
  {
    hide Do;
    assert [call][1..] == [];
  }

  lemma FlushFaults(p: Profile, e: Execution)
    ensures forall state: Execution, expected: nat :: var r := Flush(p.backend, state, expected); r.Err? ==> r.error == BackendFailure
  {
  }

  lemma CommitFaults(p: Profile, s: State, now: nat)
    requires s.execution.committed == s.lastTick < now
    ensures var r := Evolve(p.backend, p.limit, s.execution, s.lastTick, now, [], []); r.Err? ==> r.error == BackendFailure
  {
  }

  lemma FinalCallsProper(p: Profile, lastTick: nat, now: nat)
    ensures forall i | 0 <= i < |FinalCalls(lastTick, now)| :: ProperCall(p.backend, FinalCalls(lastTick, now)[i])
  {
  }

  lemma FlushedIsStream(p: Profile, h: History)
    requires 0 < p.limit && HistoryOk(p.backend, p.limit, h) && Flush(p.backend, h.state, 0).Ok?
    ensures
      var f := Flush(p.backend, h.state, 0).value;
      var batches := if f.batch.Some? then h.batches + [f.batch.value] else h.batches;
      && f.state.pending == [] && Concat(batches) == Stream(h.calls)
      && forall i | 0 <= i < |batches| :: 0 < |batches[i]| <= p.limit && ValidBatch(p.backend, batches[i])
  {
    hide ValidBatch, Concat, Stream;
    assert Concat(h.batches) + [] == Concat(h.batches);
    ConcatAppends(h.batches, h.state.pending);
  }

  /**
   * A drained device finalizes unless the backend itself fails, and then the executed batches are the whole stream of
   * calls: nothing stays pending, and every batch is one that the receiver accepts.
   */
  lemma FinalizeExecutesAll(p: Profile, r: Run, now: nat)
    requires 0 < p.limit && Reachable(p, r) && Drained(r.state) && r.state.lastTick <= now
    ensures Finalize(p, r.state, now).Err? ==> Finalize(p, r.state, now).error == BackendFailure
    ensures Finalize(p, r.state, now).Ok? <==> Finish(p, r.state, r.backend, now).Ok?
    ensures
      Finalize(p, r.state, now).Ok? ==>
        var h := Finish(p, r.state, r.backend, now).value;
        && h.state == Finalize(p, r.state, now).value.execution && h.state.pending == []
        && h.calls == r.backend.calls + FinalCalls(r.state.lastTick, now)
        && Concat(h.batches) == Stream(h.calls)
        && forall i | 0 <= i < |h.batches| :: 0 < |h.batches[i]| <= p.limit && ValidBatch(p.backend, h.batches[i])
  {
    hide Reachable, RunOk, HistoryOk, Drained, Finalize, ValidBatch, Concat, Stream, RunCalls, Flush, ProperCall,
      FinalCalls;
    ReachableIsOk(p, r);
    TimesFollow(p, r);
    HistoryFollows(p, r);
    FinishIsFinalize(p, r.state, r.backend, now);
    FinalCallsProper(p, r.state.lastTick, now);
    if Finish(p, r.state, r.backend, now).Ok? {
      RunsKeepHistory(p.backend, p.limit, r.backend, FinalCalls(r.state.lastTick, now));
      FlushedIsStream(p, RunCalls(p.backend, p.limit, r.backend, FinalCalls(r.state.lastTick, now)).value);
    }
  }

  lemma HistoryFollows(p: Profile, r: Run)
    requires RunOk(p, r)
    ensures HistoryOk(p.backend, p.limit, r.backend)
  {
    hide HistoryOk, AcceptedOk, StateOk, LogsOk, ResultsOk;
  }
}
