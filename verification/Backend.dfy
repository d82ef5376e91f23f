/** Batching of backend operations: the batches carry the committed stream unchanged, in a form every receiver accepts. */
module Backend {
  import opened Errors
  import opened Protocol

  datatype Activity = Activity(id: nat, start: nat, end: nat, action: Action, reference: Option<Reference>)

  datatype Operation =
    | Evolution(start: nat, tick: nat, drives: seq<Activity>, acquisitions: seq<Activity>)
    | Gates(tick: nat, gates: seq<Action>)
    | Measurement(tick: nat, references: seq<Reference>)

  /** The backend: what it refuses, and what it returns for a batch. */
  datatype Backend = Backend(qubits: nat, validate: Action -> Result<()>, execute: seq<Operation> -> Result<seq<bool>>)

  datatype Execution = Execution(pending: seq<Operation>, committed: nat)

  /** A call: the new state, the outcomes it returns, and the batch it executed, if any. */
  datatype Called = Called(state: Execution, outcomes: seq<bool>, batch: Option<seq<Operation>>)

  function Flush(b: Backend, s: Execution, expected: nat): Result<Called> {
    if s.pending == [] then Ok(Called(s, [], None))
    else
      var results := b.execute(s.pending);
      if results.Err? || |results.value| != expected then Err(BackendFailure)
      else Ok(Called(s.(pending := []), results.value, Some(s.pending)))
  }

  function Commit(b: Backend, limit: nat, s: Execution, op: Operation): Result<Called> {
    if op.tick < s.committed then Err(ErrorCode.Protocol)
    else
      var s1 := Execution(s.pending + [op], op.tick);
      if |s1.pending| == limit then Flush(b, s1, 0) else Ok(Called(s1, [], None))
  }

  function Evolve(b: Backend, limit: nat, s: Execution, from: nat, to: nat, drives: seq<Activity>, acquisitions: seq<Activity>): Result<Called> {
    if from != s.committed || to < from then Err(ErrorCode.Protocol)
    else if from < to then Commit(b, limit, s, Evolution(from, to, drives, acquisitions))
    else Ok(Called(s, [], None))
  }

  function ValidateAll(b: Backend, gates: seq<Action>): Result<()> {
    if gates == [] then Ok(())
    else
      var _ :- b.validate(gates[0]);
      ValidateAll(b, gates[1..])
  }

  function ApplyGates(b: Backend, limit: nat, s: Execution, now: nat, gates: seq<Action>): Result<Called> {
    var valid := ValidateAll(b, gates);
    if valid.Err? then Err(valid.error)
    else if gates == [] then Ok(Called(s, [], None))
    else Commit(b, limit, s, Gates(now, gates))
  }

  predicate DistinctTargets(references: seq<Reference>) {
    forall i, j | 0 <= i < j < |references| :: references[i].target != references[j].target
  }

  function Measure(b: Backend, s: Execution, now: nat, references: seq<Reference>): Result<Called> {
    if references == [] then Ok(Called(s, [], None))
    else if now < s.committed || !DistinctTargets(references) then Err(ErrorCode.Protocol)
    else Flush(b, Execution(s.pending + [Measurement(now, references)], now), |references|)
  }

  // ---- The receiver's rules ----

  predicate Contains(a: Activity, start: nat, tick: nat) {
    a.start <= start < tick <= a.end
  }

  predicate ValidOperation(b: Backend, op: Operation, last: bool) {
    match op
    case Evolution(start, tick, drives, acquisitions) =>
      && start <= tick
      && (forall i | 0 <= i < |drives| :: drives[i].action.kind == Pulse && b.validate(drives[i].action).Ok? && Contains(drives[i], start, tick))
      && (forall i | 0 <= i < |acquisitions| ::
            acquisitions[i].action.kind == Acquire && b.validate(acquisitions[i].action).Ok? && Contains(acquisitions[i], start, tick))
    case Gates(_, gates) => forall i | 0 <= i < |gates| :: gates[i].kind == IdealGate && b.validate(gates[i]).Ok?
    case Measurement(_, references) => last && DistinctTargets(references) && forall i | 0 <= i < |references| :: references[i].target < b.qubits
  }

  /** The receiver's structural rules for a batch whose first operation follows `previous`. */
  predicate ValidFrom(b: Backend, operations: seq<Operation>, previous: Option<nat>)
    decreases |operations|
  {
    operations != [] ==>
      && ValidOperation(b, operations[0], |operations| == 1)
      && (previous.Some? ==> previous.value <= operations[0].tick && (operations[0].Evolution? ==> operations[0].start == previous.value))
      && ValidFrom(b, operations[1..], Some(operations[0].tick))
  }

  predicate ValidBatch(b: Backend, operations: seq<Operation>) {
    ValidFrom(b, operations, None)
  }

  /** The receiver's check as it runs: one pass that remembers the previous tick. */
  method ValidateBatch(b: Backend, operations: seq<Operation>) returns (valid: bool)
    ensures valid == ValidBatch(b, operations)
  {
    hide ValidOperation;
    var previous: Option<nat> := None;
    assert operations[0..] == operations;
    for i := 0 to |operations|
      invariant ValidFrom(b, operations[i..], previous) == ValidBatch(b, operations)
    {
      var op := operations[i];
      assert operations[i..][0] == op && operations[i..][1..] == operations[i + 1..];
      if previous.Some? && op.tick < previous.value {
        return false;
      }
      if op.Evolution? && previous.Some? && op.start != previous.value {
        return false;
      }
      if !ValidOperation(b, op, i == |operations| - 1) {
        return false;
      }
      previous := Some(op.tick);
    }
    return true;
  }

  // ---- Streams and batches ----

  /** A call of the device: an interval of evolution, gates, or a measurement. */
  datatype Call =
    | Evolves(from: nat, to: nat, drives: seq<Activity>, acquisitions: seq<Activity>)
    | Applies(now: nat, gates: seq<Action>)
    | Measures(now: nat, references: seq<Reference>)

  function Do(b: Backend, limit: nat, s: Execution, call: Call): Result<Called> {
    match call
    case Evolves(from, to, drives, acquisitions) => Evolve(b, limit, s, from, to, drives, acquisitions)
    case Applies(now, gates) => ApplyGates(b, limit, s, now, gates)
    case Measures(now, references) => Measure(b, s, now, references)
  }

  /** The operation that a call adds to the stream. */
  function Adds(call: Call): seq<Operation> {
    match call
    case Evolves(from, to, drives, acquisitions) => if from < to then [Evolution(from, to, drives, acquisitions)] else []
    case Applies(now, gates) => if gates == [] then [] else [Gates(now, gates)]
    case Measures(now, references) => if references == [] then [] else [Measurement(now, references)]
  }

  function Stream(calls: seq<Call>): seq<Operation> {
    if calls == [] then [] else Stream(calls[..|calls| - 1]) + Adds(calls[|calls| - 1])
  }

  function Concat(batches: seq<seq<Operation>>): seq<Operation> {
    if batches == [] then [] else Concat(batches[..|batches| - 1]) + batches[|batches| - 1]
  }

  /** The execution with its history: the calls so far, and the executed batches. */
  datatype History = History(state: Execution, calls: seq<Call>, batches: seq<seq<Operation>>)

  function Record(h: History, call: Call, r: Called): History {
    History(r.state, h.calls + [call], if r.batch.Some? then h.batches + [r.batch.value] else h.batches)
  }

  function RunCalls(b: Backend, limit: nat, h: History, calls: seq<Call>): Result<History>
    decreases |calls|
  {
    if calls == [] then Ok(h)
    else
      var r :- Do(b, limit, h.state, calls[0]);
      RunCalls(b, limit, Record(h, calls[0], r), calls[1..])
  }

  /** Calls whose operations the receiver would accept one by one. */
  predicate ProperCall(b: Backend, call: Call) {
    forall i | 0 <= i < |Adds(call)| :: ValidOperation(b, Adds(call)[i], true)
  }

  ghost predicate HistoryOk(b: Backend, limit: nat, h: History) {
    && Concat(h.batches) + h.state.pending == Stream(h.calls)
    && |h.state.pending| < limit
    && (forall i | 0 <= i < |h.batches| :: 0 < |h.batches[i]| <= limit && ValidBatch(b, h.batches[i]))
    && PendingOk(b, h.state)
  }

  /** The pending operations hold no measurement and end at the committed tick. */
  ghost predicate PendingOk(b: Backend, s: Execution) {
    && (forall i | 0 <= i < |s.pending| :: !s.pending[i].Measurement?)
    && ValidBatch(b, s.pending)
    && (s.pending != [] ==> s.pending[|s.pending| - 1].tick == s.committed)
  }

  lemma {:induction false} ValidAppends(b: Backend, operations: seq<Operation>, op: Operation, previous: Option<nat>)
    requires ValidFrom(b, operations, previous) && (forall i | 0 <= i < |operations| :: !operations[i].Measurement?)
    requires ValidOperation(b, op, true)
    requires
      var before := if operations == [] then previous else Some(operations[|operations| - 1].tick);
      before.Some? ==> before.value <= op.tick && (op.Evolution? ==> op.start == before.value)
    ensures ValidFrom(b, operations + [op], previous)
    decreases |operations|
  {
    var more := operations + [op];
    if operations == [] {
      assert more[1..] == [];
    } else {
      assert more[0] == operations[0] && more[1..] == operations[1..] + [op];
      assert forall i | 0 <= i < |operations| - 1 :: operations[1..][i] == operations[i + 1];
      ValidAppends(b, operations[1..], op, Some(operations[0].tick));
      NotLast(b, operations[0], |operations| == 1);
      hide ValidOperation;
    }
  }

  lemma NotLast(b: Backend, op: Operation, last: bool)
    requires !op.Measurement? && ValidOperation(b, op, last)
    ensures ValidOperation(b, op, false) && ValidOperation(b, op, true)
  {
  }

  lemma ConcatAppends(batches: seq<seq<Operation>>, batch: seq<Operation>)
    ensures Concat(batches + [batch]) == Concat(batches) + batch
  {
    assert (batches + [batch])[..|batches|] == batches;
  }

  lemma StreamAppends(calls: seq<Call>, call: Call)
    ensures Stream(calls + [call]) == Stream(calls) + Adds(call)
  {
    assert (calls + [call])[..|calls|] == calls;
  }

  /** What a call does to the pending operations: it adds its own, and may execute them all. */
  lemma CallShape(b: Backend, limit: nat, s: Execution, call: Call)
    requires Do(b, limit, s, call).Ok?
    ensures
      var r := Do(b, limit, s, call).value;
      var all := s.pending + Adds(call);
      && (if r.batch.Some? then r.batch.value == all && r.state.pending == [] && all != [] else r.state.pending == all)
      && (Adds(call) == [] ==> r.state == s && r.batch.None?)
      && (Adds(call) != [] ==>
            && s.committed <= Adds(call)[0].tick == r.state.committed
            && (Adds(call)[0].Evolution? ==> Adds(call)[0].start == s.committed)
            && (Adds(call)[0].Measurement? ==> r.batch.Some?)
            && (r.batch.None? ==> |all| != limit))
  {
    hide ValidateAll, DistinctTargets;
    assert s.pending + [] == s.pending;
  }

  lemma PendingAccepts(b: Backend, s: Execution, op: Operation)
    requires PendingOk(b, s) && ValidOperation(b, op, true) && s.committed <= op.tick && (op.Evolution? ==> op.start == s.committed)
    ensures ValidBatch(b, s.pending + [op])
    ensures !op.Measurement? ==> PendingOk(b, Execution(s.pending + [op], op.tick))
  {
    ValidAppends(b, s.pending, op, None);
    hide ValidOperation, ValidFrom;
  }

  lemma ProperOperation(b: Backend, call: Call)
    requires ProperCall(b, call)
    ensures Adds(call) == [] || (|Adds(call)| == 1 && Adds(call) == [Adds(call)[0]] && ValidOperation(b, Adds(call)[0], true))
  {
    hide ValidOperation;
  }

  lemma CallKeepsHistory(b: Backend, limit: nat, h: History, call: Call)
    requires 0 < limit && HistoryOk(b, limit, h) && ProperCall(b, call) && Do(b, limit, h.state, call).Ok?
    ensures HistoryOk(b, limit, Record(h, call, Do(b, limit, h.state, call).value))
  {
    hide Do, Stream, Concat, ValidOperation, ValidFrom, ValidBatch, ProperCall, Adds, PendingOk;
    CallShape(b, limit, h.state, call);
    StreamAppends(h.calls, call);
    ProperOperation(b, call);
    var r := Do(b, limit, h.state, call).value;
    var all := h.state.pending + Adds(call);
    assert Concat(h.batches) + h.state.pending + Adds(call) == Concat(h.batches) + all;
    if Adds(call) == [] {
      assert all == h.state.pending;
    } else {
      PendingAccepts(b, h.state, Adds(call)[0]);
      if r.batch.Some? {
        ConcatAppends(h.batches, all);
        assert Concat(h.batches) + all + [] == Concat(h.batches) + all;
        EmptyIsPending(b, r.state);
      } else {
        assert r.state == Execution(all, Adds(call)[0].tick);
      }
    }
  }

  lemma EmptyIsPending(b: Backend, s: Execution)
    requires s.pending == []
    ensures PendingOk(b, s)
  {
  }

  lemma {:induction false} RunsKeepHistory(b: Backend, limit: nat, h: History, calls: seq<Call>)
    requires 0 < limit && HistoryOk(b, limit, h) && (forall i | 0 <= i < |calls| :: ProperCall(b, calls[i]))
    requires RunCalls(b, limit, h, calls).Ok?
    ensures HistoryOk(b, limit, RunCalls(b, limit, h, calls).value)
    ensures RunCalls(b, limit, h, calls).value.calls == h.calls + calls
    decreases |calls|
  {
    hide HistoryOk, Do, ProperCall;
    if calls == [] {
      assert h.calls + calls == h.calls;
    } else {
      CallKeepsHistory(b, limit, h, calls[0]);
      var r := Do(b, limit, h.state, calls[0]).value;
      assert forall i | 0 <= i < |calls| - 1 :: calls[1..][i] == calls[i + 1];
      RunsKeepHistory(b, limit, Record(h, calls[0], r), calls[1..]);
      assert h.calls + [calls[0]] + calls[1..] == h.calls + calls;
    }
  }

  /**
   * For any batch limit the executed batches and the pending operations concatenate to the stream that the
   * calls alone determine; every batch is non-empty, within the limit, and satisfies the receiver's rules:
   * contiguous evolution in order of time, intervals inside every listed activity, a measurement last.
   */
  lemma BatchesCarryTheStream(b: Backend, limit: nat, origin: nat, calls: seq<Call>)
    requires 0 < limit && (forall i | 0 <= i < |calls| :: ProperCall(b, calls[i]))
    requires RunCalls(b, limit, History(Execution([], origin), [], []), calls).Ok?
    ensures
      var h := RunCalls(b, limit, History(Execution([], origin), [], []), calls).value;
      && Concat(h.batches) + h.state.pending == Stream(calls)
      && forall i | 0 <= i < |h.batches| :: 0 < |h.batches[i]| <= limit && ValidBatch(b, h.batches[i])
  {
    var start := History(Execution([], origin), [], []);
    assert Concat(start.batches) + start.state.pending == Stream(start.calls);
    RunsKeepHistory(b, limit, start, calls);
    assert [] + calls == calls;
    hide ValidBatch, Concat, Stream, PendingOk, RunCalls;
  }

  /** The limit does not change what is executed: after a flush, any two limits have executed the same stream. */
  lemma LimitsAgree(b: Backend, limit: nat, other: nat, origin: nat, calls: seq<Call>)
    requires 0 < limit && 0 < other && (forall i | 0 <= i < |calls| :: ProperCall(b, calls[i]))
    requires RunCalls(b, limit, History(Execution([], origin), [], []), calls).Ok?
    requires RunCalls(b, other, History(Execution([], origin), [], []), calls).Ok?
    ensures
      var h := RunCalls(b, limit, History(Execution([], origin), [], []), calls).value;
      var g := RunCalls(b, other, History(Execution([], origin), [], []), calls).value;
      Concat(h.batches) + h.state.pending == Concat(g.batches) + g.state.pending
  {
    hide RunCalls, Concat, Stream, ProperCall, ValidBatch;
    BatchesCarryTheStream(b, limit, origin, calls);
    BatchesCarryTheStream(b, other, origin, calls);
  }

  // ---- The execution as the object the source runs ----

  method Distinct(references: seq<Reference>) returns (distinct: bool)
    ensures distinct == DistinctTargets(references)
  {
    var targets: set<nat> := {};
    for i := 0 to |references|
      invariant targets == set k | 0 <= k < i :: references[k].target
      invariant forall j, k | 0 <= j < k < i :: references[j].target != references[k].target
    {
      if references[i].target in targets {
        return false;
      }
      targets := targets + {references[i].target};
    }
    return true;
  }

  class BackendExecution {
    const backend: Backend
    const limit: nat
    var pending: seq<Operation>
    var committed: nat

    ghost function View(): Execution reads this { Execution(pending, committed) }

    constructor (backend: Backend, limit: nat)
      requires 0 < limit
      ensures this.backend == backend && this.limit == limit && View() == Execution([], 0)
    {
      this.backend, this.limit, pending, committed := backend, limit, [], 0;
    }

    method Reset(now: nat)
      modifies this
      ensures View() == Execution([], now)
    {
      pending, committed := [], now;
    }

    /** Sends the pending operations; the backend must return the expected number of outcomes. */
    method ExecutePending(expected: nat) returns (outcomes: Result<seq<bool>>, batch: Option<seq<Operation>>)
      modifies this
      ensures
        var r := Flush(backend, old(View()), expected);
        if r.Ok? then outcomes == Ok(r.value.outcomes) && batch == r.value.batch && View() == r.value.state else outcomes == Err(r.error)
    {
      if pending == [] {
        return Ok([]), None;
      }
      var results := backend.execute(pending);
      if results.Err? || |results.value| != expected {
        pending := [];
        return Err(BackendFailure), None;
      }
      batch := Some(pending);
      pending := [];
      return Ok(results.value), batch;
    }

    method CommitOperation(op: Operation) returns (outcome: Result<seq<bool>>, batch: Option<seq<Operation>>)
      modifies this
      ensures
        var r := Commit(backend, limit, old(View()), op);
        if r.Ok? then outcome == Ok(r.value.outcomes) && batch == r.value.batch && View() == r.value.state else outcome == Err(r.error)
    {
      hide Flush;
      if op.tick < committed {
        return Err(ErrorCode.Protocol), None;
      }
      committed := op.tick;
      pending := pending + [op];
      if |pending| == limit {
        outcome, batch := ExecutePending(0);
      } else {
        return Ok([]), None;
      }
    }

    method EvolveTo(from: nat, to: nat, drives: seq<Activity>, acquisitions: seq<Activity>)
      returns (outcome: Result<seq<bool>>, batch: Option<seq<Operation>>)
      modifies this
      ensures
        var r := Evolve(backend, limit, old(View()), from, to, drives, acquisitions);
        if r.Ok? then outcome == Ok(r.value.outcomes) && batch == r.value.batch && View() == r.value.state else outcome == Err(r.error)
    {
      hide Commit;
      if from != committed || to < from {
        return Err(ErrorCode.Protocol), None;
      }
      if from < to {
        outcome, batch := CommitOperation(Evolution(from, to, drives, acquisitions));
      } else {
        return Ok([]), None;
      }
    }

    method Apply(now: nat, gates: seq<Action>) returns (outcome: Result<seq<bool>>, batch: Option<seq<Operation>>)
      modifies this
      ensures
        var r := ApplyGates(backend, limit, old(View()), now, gates);
        if r.Ok? then outcome == Ok(r.value.outcomes) && batch == r.value.batch && View() == r.value.state else outcome == Err(r.error)
    {
      hide Commit;
      assert gates[0..] == gates;
      for i := 0 to |gates|
        modifies {}
        invariant ValidateAll(backend, gates[i..]) == ValidateAll(backend, gates)
      {
        assert gates[i..][0] == gates[i] && gates[i..][1..] == gates[i + 1..];
        var valid := backend.validate(gates[i]);
        if valid.Err? {
          return Err(valid.error), None;
        }
      }
      if gates == [] {
        return Ok([]), None;
      }
      outcome, batch := CommitOperation(Gates(now, gates));
    }

    method MeasureNow(now: nat, references: seq<Reference>) returns (outcome: Result<seq<bool>>, batch: Option<seq<Operation>>)
      modifies this
      ensures
        var r := Measure(backend, old(View()), now, references);
        if r.Ok? then outcome == Ok(r.value.outcomes) && batch == r.value.batch && View() == r.value.state else outcome == Err(r.error)
    {
      hide Flush, DistinctTargets;
      if references == [] {
        return Ok([]), None;
      }
      if now < committed {
        return Err(ErrorCode.Protocol), None;
      }
      var distinct := Distinct(references);
      if !distinct {
        return Err(ErrorCode.Protocol), None;
      }
      committed := now;
      pending := pending + [Measurement(now, references)];
      outcome, batch := ExecutePending(|references|);
    }
  }
}
