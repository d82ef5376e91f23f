/** The work of one boundary: which guards cannot fire, what is sampled and delivered, and what the backend is asked. */
module BoundaryWork {
  import opened Errors
  import opened Time
  import opened Protocol
  import opened Resources
  import opened Backend
  import opened Electronics
  import opened Boundaries
  import opened Launches

  // ---- Samples ----

  /** The references of the acquisitions that end at t, in the order of acceptance. */
  function RefsAt(accepted: seq<Scheduled>, t: nat): seq<Reference> {
    if accepted == [] then []
    else
      (if accepted[0].event.action.kind == Acquire && accepted[0].end == t && accepted[0].event.reference.Some?
       then [accepted[0].event.reference.value] else [])
      + RefsAt(accepted[1..], t)
  }

  ghost predicate AcquiredAt(a: Scheduled, t: nat, ref: Reference) {
    a.event.action.kind == Acquire && a.end == t && a.event.reference == Some(ref)
  }

  lemma {:induction false} RefsMembers(accepted: seq<Scheduled>, t: nat, ref: Reference)
    requires ref in RefsAt(accepted, t)
    ensures exists i :: 0 <= i < |accepted| && AcquiredAt(accepted[i], t, ref)
    decreases |accepted|
  {
    if ref in RefsAt(accepted[1..], t) {
      RefsMembers(accepted[1..], t, ref);
      var i :| 0 <= i < |accepted| - 1 && AcquiredAt(accepted[1..][i], t, ref);
      assert accepted[i + 1] == accepted[1..][i];
    } else {
      assert AcquiredAt(accepted[0], t, ref);
    }
  }

  /** Every action that ends now is found among the active ones. */
  lemma {:induction false} SamplesAreDue(active: seq<Scheduled>, accepted: seq<Scheduled>, t: nat)
    requires DistinctActive(active)
    requires forall i | 0 <= i < |accepted| :: Referenced(accepted[i]) && (accepted[i].end == t ==> accepted[i] in active)
    ensures Samples(active, EndsAt(accepted, t)) == Ok(RefsAt(accepted, t))
    decreases |accepted|
  {
    if accepted != [] {
      var a, rest := accepted[0], accepted[1..];
      assert forall i | 0 <= i < |rest| :: rest[i] == accepted[i + 1];
      SamplesAreDue(active, rest, t);
      assert [] + EndsAt(rest, t) == EndsAt(rest, t) && [] + RefsAt(rest, t) == RefsAt(rest, t);
      if a.end == t {
        FindMember(active, a);
        assert ([a.event.id] + EndsAt(rest, t))[1..] == EndsAt(rest, t);
        hide Find;
      }
    }
  }

  /** Two acquisitions of one target cannot end together: their intervals overlap. */
  lemma TwoAcquisitionsConflict(p: Profile, a: Scheduled, b: Scheduled, t: nat, x: Reference, y: Reference)
    requires ActionOk(p, a) && Referenced(a) && ActionOk(p, b) && Referenced(b)
    requires AcquiredAt(a, t, x) && AcquiredAt(b, t, y) && x.target == y.target
    ensures Pair(a, b).Err?
  {
    hide Electronics.Validate, Clash;
    assert x.target in a.resolved.targets && x.target in b.resolved.targets;
    assert Overlaps(a, b);
  }

  lemma {:induction false} SampledOnce(p: Profile, accepted: seq<Scheduled>, t: nat)
    requires Compatible(accepted) && AllOk(p, accepted)
    ensures DistinctTargets(RefsAt(accepted, t))
    decreases |accepted|
  {
    if accepted != [] {
      hide Pair, ActionOk, Referenced;
      var a, rest := accepted[0], accepted[1..];
      assert forall i | 0 <= i < |rest| :: rest[i] == accepted[i + 1];
      SampledOnce(p, rest, t);
      var refs := RefsAt(rest, t);
      if a.event.action.kind == Acquire && a.end == t && a.event.reference.Some? {
        forall j | 0 <= j < |refs|
          ensures refs[j].target != a.event.reference.value.target
        {
          RefsMembers(rest, t, refs[j]);
          var i :| 0 <= i < |rest| && AcquiredAt(rest[i], t, refs[j]);
          if refs[j].target == a.event.reference.value.target {
            TwoAcquisitionsConflict(p, accepted[i + 1], accepted[0], t, refs[j], a.event.reference.value);
          }
        }
      }
      assert [] + refs == refs;
    }
  }

  // ---- Starts ----

  /** A gate cannot start on a target that is sampled at that tick. */
  lemma SampledGateConflicts(p: Profile, a: Scheduled, b: Scheduled, now: nat, ref: Reference)
    requires ActionOk(p, a) && ActionOk(p, b) && Referenced(b) && a.start == now && AcquiredAt(b, now, ref)
    requires IsGate(a.event.action) && ref.target in a.resolved.targets
    ensures Pair(a, b).Err? && Pair(b, a).Err? && a != b
  {
    PairIsSymmetric(a, b);
    hide Clash;
    assert ref.target in b.resolved.targets;
    GateResolves(p, a);
    hide Electronics.Validate, ActionOk;
    assert SampleMeetsGate(a, b);
    assert !Overlaps(a, b);
  }

  lemma GateResolves(p: Profile, a: Scheduled)
    requires ActionOk(p, a)
    ensures a.event.action.kind != GateOutput ==> a.resolved == a.event.action
    ensures a.event.action.kind == GateOutput ==> a.resolved.kind == IdealGate
    ensures a.start < a.end
  {
    hide Electronics.Validate;
  }

  lemma CompatibleEither(accepted: seq<Scheduled>, j: nat, k: nat)
    requires Compatible(accepted) && j < |accepted| && k < |accepted| && j != k
    ensures Pair(accepted[j], accepted[k]).Ok? || Pair(accepted[k], accepted[j]).Ok?
  {
    hide Pair;
  }

  lemma SampledElsewhere(p: Profile, accepted: seq<Scheduled>, now: nat, k: nat, j: nat, ref: Reference)
    requires Compatible(accepted) && AllOk(p, accepted) && k < |accepted| && j < |accepted|
    requires accepted[k].start == now && IsGate(accepted[k].event.action) && AcquiredAt(accepted[j], now, ref)
    ensures ref.target !in accepted[k].resolved.targets
  {
    hide Compatible, Pair, ActionOk, Referenced, AcquiredAt, IsGate;
    assert ActionOk(p, accepted[k]) && ActionOk(p, accepted[j]) && Referenced(accepted[j]);
    if ref.target in accepted[k].resolved.targets {
      SampledGateConflicts(p, accepted[k], accepted[j], now, ref);
      CompatibleEither(accepted, j, k);
    }
  }

  lemma StartPasses(p: Profile, accepted: seq<Scheduled>, a: Scheduled, now: nat)
    requires Compatible(accepted) && AllOk(p, accepted) && a in accepted && a.start == now
    ensures CheckStart(p, RefsAt(accepted, now), a).Ok?
  {
    var k :| 0 <= k < |accepted| && accepted[k] == a;
    assert ActionOk(p, accepted[k]);
    assert Electronics.Validate(p, a.event.action).Ok?;
    if IsGate(a.event.action) {
      forall q | q in a.resolved.targets
        ensures !Sampled(RefsAt(accepted, now), q)
      {
        hide Pair, ActionOk, Electronics.Validate, Compatible, AllOk;
        var samples := RefsAt(accepted, now);
        if Sampled(samples, q) {
          var i :| 0 <= i < |samples| && samples[i].target == q;
          RefsMembers(accepted, now, samples[i]);
          var j :| 0 <= j < |accepted| && AcquiredAt(accepted[j], now, samples[i]);
          SampledElsewhere(p, accepted, now, k, j, samples[i]);
        }
      }
    }
  }

  lemma {:induction false} StartsPass(p: Profile, samples: seq<Reference>, starts: seq<Scheduled>)
    requires forall i | 0 <= i < |starts| :: CheckStart(p, samples, starts[i]).Ok?
    ensures CheckStarts(p, samples, starts) == Ok(())
    decreases |starts|
  {
    if starts != [] {
      hide CheckStart;
      assert forall i | 0 <= i < |starts| - 1 :: starts[1..][i] == starts[i + 1];
      StartsPass(p, samples, starts[1..]);
    }
  }

  // ---- Gates ----

  /** The outputs on an input that end at this tick. */
  function Matching(outputs: seq<Scheduled>, input: GateInput, end: nat): nat {
    if outputs == [] then 0
    else (if InputOf(outputs[0]) == input && outputs[0].end == end then 1 else 0) + Matching(outputs[1..], input, end)
  }

  lemma {:induction false} CountsMatching(outputs: seq<Scheduled>, input: GateInput, now: nat, duration: nat)
    requires CheckedAdd(now, duration).Ok?
    ensures CountInput(outputs, input, now, duration) == Ok(Matching(outputs, input, now + duration))
    decreases |outputs|
  {
    if outputs != [] {
      CountsMatching(outputs[1..], input, now, duration);
    }
  }

  lemma {:induction false} InputsChecked(outputs: seq<Scheduled>, inputs: seq<GateInput>, now: nat, duration: nat)
    requires CheckedAdd(now, duration).Ok?
    ensures
      CheckInputs(outputs, inputs, now, duration)
      == if exists i :: 0 <= i < |inputs| && Matching(outputs, inputs[i], now + duration) != 1 then Err(GateInputMismatch) else Ok(())
    decreases |inputs|
  {
    if inputs != [] {
      CountsMatching(outputs, inputs[0], now, duration);
      InputsChecked(outputs, inputs[1..], now, duration);
      hide CountInput, Matching;
      if exists i :: 0 <= i < |inputs| && Matching(outputs, inputs[i], now + duration) != 1 {
        var i :| 0 <= i < |inputs| && Matching(outputs, inputs[i], now + duration) != 1;
        if 0 < i {
          assert inputs[1..][i - 1] == inputs[i];
        }
      } else {
        assert Matching(outputs, inputs[0], now + duration) == 1;
        assert forall i | 0 <= i < |inputs| - 1 :: inputs[1..][i] == inputs[i + 1];
      }
    }
  }

  /** Exactly one of the outputs is on this input. */
  ghost predicate OneOutput(outputs: seq<Scheduled>, input: GateInput) {
    exists k :: 0 <= k < |outputs| && InputOf(outputs[k]) == input && forall j | 0 <= j < |outputs| && InputOf(outputs[j]) == input :: j == k
  }

  /** The outputs of a two-qubit gate are one for each of its inputs. */
  ghost predicate Complete(outputs: seq<Scheduled>, g: Gate) {
    |outputs| == |g.inputs| && forall i | 0 <= i < |g.inputs| :: OneOutput(outputs, g.inputs[i])
  }

  lemma {:induction false} NoneMatches(outputs: seq<Scheduled>, input: GateInput, end: nat)
    requires forall k | 0 <= k < |outputs| :: outputs[k].end == end
    ensures Matching(outputs, input, end) == 0 <==> forall k | 0 <= k < |outputs| :: InputOf(outputs[k]) != input
    decreases |outputs|
  {
    if outputs != [] {
      assert forall k | 0 <= k < |outputs| - 1 :: outputs[1..][k] == outputs[k + 1];
      NoneMatches(outputs[1..], input, end);
      if Matching(outputs, input, end) == 0 {
        forall k | 0 <= k < |outputs|
          ensures InputOf(outputs[k]) != input
        {
          if 0 < k {
            assert outputs[1..][k - 1] == outputs[k];
          }
        }
      } else if InputOf(outputs[0]) != input {
        var k :| 0 <= k < |outputs| - 1 && InputOf(outputs[1..][k]) == input;
        assert InputOf(outputs[k + 1]) == input;
      }
    }
  }

  lemma {:induction false} OneMatches(outputs: seq<Scheduled>, input: GateInput, end: nat)
    requires forall k | 0 <= k < |outputs| :: outputs[k].end == end
    ensures Matching(outputs, input, end) == 1 <==> OneOutput(outputs, input)
    decreases |outputs|
  {
    if outputs != [] {
      var rest := outputs[1..];
      assert forall k | 0 <= k < |rest| :: rest[k] == outputs[k + 1];
      if InputOf(outputs[0]) == input {
        NoneMatches(rest, input, end);
        OnlyFirst(outputs, input);
      } else {
        OneMatches(rest, input, end);
        NotFirst(outputs, input);
      }
    }
  }

  lemma OnlyFirst(outputs: seq<Scheduled>, input: GateInput)
    requires outputs != [] && InputOf(outputs[0]) == input
    ensures OneOutput(outputs, input) <==> forall k | 0 <= k < |outputs| - 1 :: InputOf(outputs[1..][k]) != input
  {
    if OneOutput(outputs, input) {
      forall k | 0 <= k < |outputs| - 1
        ensures InputOf(outputs[1..][k]) != input
      {
        assert outputs[1..][k] == outputs[k + 1];
      }
    } else {
      var j :| 0 < j < |outputs| && InputOf(outputs[j]) == input;
      assert InputOf(outputs[1..][j - 1]) == input;
    }
  }

  lemma NotFirst(outputs: seq<Scheduled>, input: GateInput)
    requires outputs != [] && InputOf(outputs[0]) != input
    ensures OneOutput(outputs, input) <==> OneOutput(outputs[1..], input)
  {
    hide InputOf;
    var rest := outputs[1..];
    assert forall k | 0 <= k < |rest| :: rest[k] == outputs[k + 1];
    if OneOutput(outputs, input) {
      var k :| 0 <= k < |outputs| && InputOf(outputs[k]) == input && forall j | 0 <= j < |outputs| && InputOf(outputs[j]) == input :: j == k;
      assert InputOf(rest[k - 1]) == input;
    }
    if OneOutput(rest, input) {
      var k :| 0 <= k < |rest| && InputOf(rest[k]) == input && forall j | 0 <= j < |rest| && InputOf(rest[j]) == input :: j == k;
      assert InputOf(outputs[k + 1]) == input;
      forall j | 0 <= j < |outputs| && InputOf(outputs[j]) == input
        ensures j == k + 1
      {
        assert InputOf(rest[j - 1]) == input;
      }
    }
  }

  lemma {:induction false} OutputsMembers(starts: seq<Scheduled>, gate: nat)
    ensures forall a | a in OutputsOf(starts, gate) :: a in starts && a.event.action.kind == GateOutput && a.event.action.gate == gate
    decreases |starts|
  {
    if starts != [] {
      OutputsMembers(starts[1..], gate);
      assert starts == [starts[0]] + starts[1..];
    }
  }

  ghost predicate StartingOk(p: Profile, now: nat, starts: seq<Scheduled>) {
    forall a | a in starts :: ActionOk(p, a) && a.start == now
  }

  lemma OutputFacts(p: Profile, now: nat, starts: seq<Scheduled>, gate: nat)
    requires StartingOk(p, now, starts) && gate < |p.gates| && OutputsOf(starts, gate) != []
    ensures
      var outputs := OutputsOf(starts, gate);
      var end := now + p.gates[gate].duration;
      && CheckedAdd(now, p.gates[gate].duration) == Ok(end) && (forall k | 0 <= k < |outputs| :: outputs[k].end == end)
      && GateAction(p, gate).Ok? && GateAction(p, gate).value.kind == IdealGate && p.backend.validate(GateAction(p, gate).value).Ok?
  {
    OutputsMembers(starts, gate);
    var outputs := OutputsOf(starts, gate);
    hide OutputsOf;
    forall k | 0 <= k < |outputs|
      ensures outputs[k].end == now + p.gates[gate].duration <= MAX_TICK && outputs[k].event.action.gate == gate
    {
      assert outputs[k] in outputs;
    }
    assert outputs[0] in outputs && ActionOk(p, outputs[0]);
    assert Electronics.Validate(p, outputs[0].event.action).Ok?;
  }

  ghost predicate ReadyGate(p: Profile, starts: seq<Scheduled>, gate: nat) {
    gate < |p.gates| ==> OutputsOf(starts, gate) == [] || Complete(OutputsOf(starts, gate), p.gates[gate])
  }

  ghost predicate ProperGates(p: Profile, gates: seq<Action>) {
    forall i | 0 <= i < |gates| :: gates[i].kind == IdealGate && p.backend.validate(gates[i]).Ok?
  }

  lemma CompleteIsMatched(outputs: seq<Scheduled>, g: Gate, end: nat)
    requires forall k | 0 <= k < |outputs| :: outputs[k].end == end
    ensures Complete(outputs, g) <==> |outputs| == |g.inputs| && !exists i :: 0 <= i < |g.inputs| && Matching(outputs, g.inputs[i], end) != 1
  {
    forall i | 0 <= i < |g.inputs|
      ensures Matching(outputs, g.inputs[i], end) == 1 <==> OneOutput(outputs, g.inputs[i])
    {
      OneMatches(outputs, g.inputs[i], end);
    }
    hide Matching, OneOutput;
  }

  /** One gate's contribution: missing or repeated outputs are the only fault. */
  lemma GateStep(p: Profile, now: nat, starts: seq<Scheduled>, gate: nat)
    requires StartingOk(p, now, starts) && gate < |p.gates|
    ensures
      var rest := PairedGates(p, now, starts, gate + 1);
      PairedGates(p, now, starts, gate)
      == if !ReadyGate(p, starts, gate) then Err(GateInputMismatch)
         else if OutputsOf(starts, gate) == [] || rest.Err? then rest
         else Ok([GateAction(p, gate).value] + rest.value)
  {
    hide OutputsOf, Complete, Matching, ActionOk, GateAction, CheckInputs, PairedGates, StartingOk;
    GateUnfolds(p, now, starts, gate);
    var outputs, g := OutputsOf(starts, gate), p.gates[gate];
    if outputs != [] {
      OutputFacts(p, now, starts, gate);
      CompleteIsMatched(outputs, g, now + g.duration);
      InputsChecked(outputs, g.inputs, now, g.duration);
    }
  }

  lemma GateUnfolds(p: Profile, now: nat, starts: seq<Scheduled>, gate: nat)
    requires gate < |p.gates|
    ensures
      var outputs, g, rest := OutputsOf(starts, gate), p.gates[gate], PairedGates(p, now, starts, gate + 1);
      PairedGates(p, now, starts, gate)
      == if outputs == [] then rest
         else if |outputs| != |g.inputs| then Err(GateInputMismatch)
         else if CheckInputs(outputs, g.inputs, now, g.duration).Err? then Err(CheckInputs(outputs, g.inputs, now, g.duration).error)
         else if GateAction(p, gate).Err? then Err(GateAction(p, gate).error)
         else if rest.Err? then rest else Ok([GateAction(p, gate).value] + rest.value)
  {
    hide OutputsOf, CheckInputs, GateAction;
  }

  lemma NoGates(p: Profile, now: nat, starts: seq<Scheduled>, gate: nat)
    requires |p.gates| <= gate
    ensures PairedGates(p, now, starts, gate) == Ok([]) && ProperGates(p, [])
  {
  }

  lemma ProperAdds(p: Profile, gate: Action, gates: seq<Action>)
    requires gate.kind == IdealGate && p.backend.validate(gate).Ok? && ProperGates(p, gates)
    ensures ProperGates(p, [gate] + gates)
  {
  }

  lemma {:induction false} GatesPair(p: Profile, now: nat, starts: seq<Scheduled>, gate: nat)
    requires StartingOk(p, now, starts)
    ensures
      var r := PairedGates(p, now, starts, gate);
      && (r.Ok? <==> forall k | gate <= k < |p.gates| :: ReadyGate(p, starts, k))
      && (r.Err? ==> r.error == GateInputMismatch)
      && (r.Ok? ==> ProperGates(p, r.value))
    decreases |p.gates| - gate
  {
    hide PairedGates, ReadyGate, StartingOk, GateAction, OutputsOf, ActionOk, ProperGates;
    if gate < |p.gates| {
      GateStep(p, now, starts, gate);
      GatesPair(p, now, starts, gate + 1);
      var rest := PairedGates(p, now, starts, gate + 1);
      if OutputsOf(starts, gate) != [] {
        OutputFacts(p, now, starts, gate);
        if rest.Ok? {
          ProperAdds(p, GateAction(p, gate).value, rest.value);
        }
      }
    } else {
      NoGates(p, now, starts, gate);
    }
  }

  lemma {:induction false} IdealGatesProper(p: Profile, now: nat, starts: seq<Scheduled>)
    requires StartingOk(p, now, starts)
    ensures ProperGates(p, IdealGates(starts))
    decreases |starts|
  {
    if starts != [] {
      assert starts == [starts[0]] + starts[1..];
      IdealGatesProper(p, now, starts[1..]);
      assert starts[0] in starts && ActionOk(p, starts[0]);
    }
  }

  lemma ProperAppends(p: Profile, xs: seq<Action>, ys: seq<Action>)
    requires ProperGates(p, xs) && ProperGates(p, ys)
    ensures ProperGates(p, xs + ys)
  {
  }

  lemma {:induction false} ProperValidates(p: Profile, gates: seq<Action>)
    requires ProperGates(p, gates)
    ensures ValidateAll(p.backend, gates).Ok?
    decreases |gates|
  {
    if gates != [] {
      assert gates[0].kind == IdealGate;
      assert forall i | 0 <= i < |gates| - 1 :: gates[1..][i] == gates[i + 1];
      ProperValidates(p, gates[1..]);
    }
  }

  // ---- The backend ----

  /** The backend work of a boundary: evolution, measurement, gates. */
  function ExecuteWork(p: Profile, s: State, now: nat, w: Work): Result<Executed> {
    var measured :- MeasureWork(p, s, now, w);
    var applied :- ApplyGates(p.backend, p.limit, measured.execution, now, w.gates);
    Ok(Executed(applied.state, measured.outcomes))
  }

  /** The only fault of a boundary's backend work is the backend's own; the committed time follows the device. */
  /** How many outcomes a batch asks for: those of its measurement, which is the last operation. */
  function OutcomeCount(operations: seq<Operation>): nat {
    if operations != [] && operations[|operations| - 1].Measurement? then |operations[|operations| - 1].references| else 0
  }

  /** A backend that executes every batch and returns as many outcomes as it asks for. */
  ghost predicate Answers(b: Backend) {
    forall operations :: b.execute(operations).Ok? && |b.execute(operations).value| == OutcomeCount(operations)
  }

  lemma AnsweredFlush(b: Backend, s: Execution, expected: nat)
    requires Answers(b) && (s.pending != [] ==> OutcomeCount(s.pending) == expected)
    ensures Flush(b, s, expected).Ok?
  {
    assert b.execute(s.pending).Ok? && |b.execute(s.pending).value| == OutcomeCount(s.pending);
    hide Answers, OutcomeCount;
  }

  lemma AnsweredCommit(b: Backend, limit: nat, s: Execution, op: Operation)
    requires Answers(b) && !op.Measurement? && s.committed <= op.tick
    ensures Commit(b, limit, s, op).Ok?
  {
    var pending := s.pending + [op];
    assert pending[|pending| - 1] == op;
    AnsweredFlush(b, Execution(pending, op.tick), 0);
    hide Answers, Flush;
  }

  lemma AnsweredMeasure(b: Backend, s: Execution, now: nat, references: seq<Reference>)
    requires Answers(b) && s.committed <= now && DistinctTargets(references)
    ensures Measure(b, s, now, references).Ok?
  {
    var pending := s.pending + [Measurement(now, references)];
    assert pending[|pending| - 1] == Measurement(now, references);
    AnsweredFlush(b, Execution(pending, now), |references|);
    hide Answers, Flush, DistinctTargets;
  }

  lemma AnsweredEvolution(b: Backend, limit: nat, s: Execution, now: nat, drives: seq<Activity>, acquisitions: seq<Activity>)
    requires Answers(b) && s.committed <= now
    ensures var e := Evolve(b, limit, s, s.committed, now, drives, acquisitions); e.Ok? && e.value.state.committed == now
  {
    hide Answers;
    if s.committed < now {
      AnsweredCommit(b, limit, s, Evolution(s.committed, now, drives, acquisitions));
    }
  }

  lemma MeasuredAt(b: Backend, s: Execution, now: nat, references: seq<Reference>)
    requires s.committed == now && Measure(b, s, now, references).Ok?
    ensures Measure(b, s, now, references).value.state.committed == now
  {
    hide DistinctTargets;
  }

  lemma AnsweredGates(p: Profile, e: Execution, now: nat, gates: seq<Action>)
    requires Answers(p.backend) && e.committed <= now && ValidateAll(p.backend, gates).Ok?
    ensures ApplyGates(p.backend, p.limit, e, now, gates).Ok?
  {
    hide Answers, ValidateAll, Commit;
    AnsweredCommit(p.backend, p.limit, e, Gates(now, gates));
  }

  /** The work of a boundary never fails with such a backend. */
  lemma AnsweredWork(p: Profile, s: State, now: nat, w: Work)
    requires Answers(p.backend) && s.execution.committed == s.lastTick <= now && DistinctTargets(w.samples) && ProperGates(p, w.gates)
    ensures ExecuteWork(p, s, now, w).Ok?
  {
    ProperValidates(p, w.gates);
    hide Answers, ValidateAll, DistinctTargets, ActivitiesOf, ProperGates, ApplyGates, Evolve, Measure;
    AnsweredEvolution(p.backend, p.limit, s.execution, now, ActivitiesOf(s.active, Pulse), ActivitiesOf(s.active, Acquire));
    var evolved := Evolve(p.backend, p.limit, s.execution, s.lastTick, now, ActivitiesOf(s.active, Pulse), ActivitiesOf(s.active, Acquire));
    var e := if s.lastTick < now then evolved.value.state else s.execution;
    AnsweredMeasure(p.backend, e, now, w.samples);
    MeasuredAt(p.backend, e, now, w.samples);
    AnsweredGates(p, Measure(p.backend, e, now, w.samples).value.state, now, w.gates);
  }

  lemma ExecutionFaults(p: Profile, s: State, now: nat, w: Work)
    requires s.execution.committed == s.lastTick <= now && DistinctTargets(w.samples) && ProperGates(p, w.gates)
    ensures
      var r := ExecuteWork(p, s, now, w);
      && (r.Err? ==> r.error == BackendFailure)
      && (r.Ok? ==> |r.value.outcomes| == |w.samples| && r.value.execution.committed == now)
      && (MeasureWork(p, s, now, w).Ok? ==> |MeasureWork(p, s, now, w).value.outcomes| == |w.samples|)
  {
    ProperValidates(p, w.gates);
    hide ValidateAll, DistinctTargets, ActivitiesOf, ProperGates;
  }

  /** A boundary's work is its calls, one after the other. */
  lemma WorkIsCalls(p: Profile, s: State, now: nat, w: Work, h: History)
    requires h.state == s.execution && ExecuteWork(p, s, now, w).Ok?
    ensures
      var r := RunCalls(p.backend, p.limit, h, CallsOf(s, now, w));
      r.Ok? && r.value.state == ExecuteWork(p, s, now, w).value.execution && r.value.calls == h.calls + CallsOf(s, now, w)
  {
    hide Evolve, Measure, ApplyGates, ActivitiesOf;
    var b, limit := p.backend, p.limit;
    var measures, applies := Measures(now, w.samples), Applies(now, w.gates);
    if s.lastTick < now {
      var evolves := Evolves(s.lastTick, now, ActivitiesOf(s.active, Pulse), ActivitiesOf(s.active, Acquire));
      assert CallsOf(s, now, w) == [evolves, measures, applies];
      var h1 := Record(h, evolves, Do(b, limit, h.state, evolves).value);
      TwoCalls(b, limit, h1, measures, applies);
      assert [evolves, measures, applies][1..] == [measures, applies];
      assert h.calls + [evolves] + [measures, applies] == h.calls + [evolves, measures, applies];
    } else {
      assert CallsOf(s, now, w) == [measures, applies];
      TwoCalls(b, limit, h, measures, applies);
    }
  }

  lemma TwoCalls(b: Backend, limit: nat, h: History, x: Call, y: Call)
    requires Do(b, limit, h.state, x).Ok? && Do(b, limit, Do(b, limit, h.state, x).value.state, y).Ok?
    ensures
      var r := RunCalls(b, limit, h, [x, y]);
      && r.Ok? && r.value.calls == h.calls + [x, y]
      && r.value.state == Do(b, limit, Do(b, limit, h.state, x).value.state, y).value.state
  {
    hide Do;
    var h1 := Record(h, x, Do(b, limit, h.state, x).value);
    assert [x, y][1..] == [y] && [y][1..] == [];
    var h2 := Record(h1, y, Do(b, limit, h1.state, y).value);
    assert RunCalls(b, limit, h1, [y]) == Ok(h2);
    assert h.calls + [x] + [y] == h.calls + [x, y];
  }

  ghost predicate ProperActivity(p: Profile, x: Activity, kind: ActionKind, from: nat, to: nat) {
    x.action.kind == kind && p.backend.validate(x.action).Ok? && Contains(x, from, to)
  }

  /** Every active action of this kind gives an activity that contains the interval. */
  lemma {:induction false} ActivitiesContain(p: Profile, active: seq<Scheduled>, kind: ActionKind, from: nat, to: nat)
    requires kind == Pulse || kind == Acquire
    requires from < to && forall a | a in active :: ActionOk(p, a) && a.start <= from && to <= a.end
    ensures forall x | x in ActivitiesOf(active, kind) :: ProperActivity(p, x, kind, from, to)
    decreases |active|
  {
    if active != [] {
      assert active == [active[0]] + active[1..];
      ActivitiesContain(p, active[1..], kind, from, to);
      assert active[0] in active && Electronics.Validate(p, active[0].event.action).Ok?;
      hide ActionOk;
    }
  }

  lemma EvolutionIsProper(p: Profile, active: seq<Scheduled>, from: nat, to: nat)
    requires from < to && forall a | a in active :: ActionOk(p, a) && a.start <= from && to <= a.end
    ensures ProperCall(p.backend, Evolves(from, to, ActivitiesOf(active, Pulse), ActivitiesOf(active, Acquire)))
  {
    hide ActivitiesOf, ActionOk;
    ActivitiesContain(p, active, Pulse, from, to);
    ActivitiesContain(p, active, Acquire, from, to);
    EvolutionIsValid(p, from, to, ActivitiesOf(active, Pulse), ActivitiesOf(active, Acquire));
  }

  lemma EvolutionIsValid(p: Profile, from: nat, to: nat, drives: seq<Activity>, acquisitions: seq<Activity>)
    requires from < to && (forall x | x in drives :: ProperActivity(p, x, Pulse, from, to))
    requires forall x | x in acquisitions :: ProperActivity(p, x, Acquire, from, to)
    ensures ProperCall(p.backend, Evolves(from, to, drives, acquisitions))
  {
    forall i | 0 <= i < |drives|
      ensures ProperActivity(p, drives[i], Pulse, from, to)
    {
      assert drives[i] in drives;
    }
    forall i | 0 <= i < |acquisitions|
      ensures ProperActivity(p, acquisitions[i], Acquire, from, to)
    {
      assert acquisitions[i] in acquisitions;
    }
  }

  lemma GatesAreProper(p: Profile, now: nat, gates: seq<Action>)
    requires ProperGates(p, gates)
    ensures ProperCall(p.backend, Applies(now, gates))
  {
  }

  lemma MeasurementIsProper(p: Profile, now: nat, samples: seq<Reference>)
    requires DistinctTargets(samples) && forall i | 0 <= i < |samples| :: samples[i].target < p.backend.qubits
    ensures ProperCall(p.backend, Measures(now, samples))
  {
  }

  /** Samples come from acquisitions of the register. */
  lemma SampledInRegister(p: Profile, accepted: seq<Scheduled>, t: nat)
    requires AllOk(p, accepted)
    ensures forall i | 0 <= i < |RefsAt(accepted, t)| :: RefsAt(accepted, t)[i].target < p.backend.qubits
  {
    var refs := RefsAt(accepted, t);
    forall i | 0 <= i < |refs|
      ensures refs[i].target < p.backend.qubits
    {
      RefsMembers(accepted, t, refs[i]);
      hide RefsAt, Electronics.Validate;
      var k :| 0 <= k < |accepted| && AcquiredAt(accepted[k], t, refs[i]);
      assert ActionOk(p, accepted[k]) && Referenced(accepted[k]);
      assert refs[i].target in accepted[k].event.action.targets;
    }
  }
}
