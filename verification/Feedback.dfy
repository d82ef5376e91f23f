/** Measurement reservations, deliveries and register reads. */
module Feedback {
  import opened Errors
  import opened Time
  import opened Protocol

  datatype FeedbackConfig = FeedbackConfig(qubits: nat, resultCapacity: nat, fastFeedback: bool)
  datatype Register = Register(pending: nat, value: bool)
  datatype Registers = Registers(registers: seq<Register>, pending: map<nat, Reference>, fastPending: map<nat, Reference>, next: nat)

  const MAX_PENDING: nat := 0xFFFF_FFFF

  function Fresh(cfg: FeedbackConfig): Registers {
    Registers(seq(cfg.qubits, _ => Register(0, false)), map[], map[], 1)
  }

  predicate HasCapacity(cfg: FeedbackConfig, r: Registers, count: nat) {
    && |r.pending| + count <= cfg.resultCapacity
    && (cfg.fastFeedback ==> |r.fastPending| + count <= cfg.resultCapacity)
  }

  function Occurrences(targets: seq<nat>, target: nat): nat {
    if targets == [] then 0 else (if targets[0] == target then 1 else 0) + Occurrences(targets[1..], target)
  }

  function CheckTarget(r: Registers, targets: seq<nat>, target: nat): Result<()> {
    if |r.registers| <= target then Err(InvalidOperand)
    else Require(Occurrences(targets, target) + r.registers[target].pending <= MAX_PENDING, TimeOverflow)
  }

  function CheckTargets(r: Registers, targets: seq<nat>, i: nat): Result<()>
    decreases |targets| - i
  {
    if |targets| <= i then Ok(())
    else
      var _ :- CheckTarget(r, targets, targets[i]);
      CheckTargets(r, targets, i + 1)
  }

  /** Consecutive references for the targets, if they can all be reserved. */
  function PrepareReservation(cfg: FeedbackConfig, r: Registers, targets: seq<nat>): Result<seq<Reference>> {
    if !HasCapacity(cfg, r, |targets|) then Err(Capacity)
    else
      var _ :- CheckedAdd(r.next, |targets|);
      var _ :- CheckTargets(r, targets, 0);
      Ok(Consecutive(r.next, targets))
  }

  function Consecutive(first: nat, targets: seq<nat>): (references: seq<Reference>)
    ensures |references| == |targets|
  {
    seq(|targets|, i requires 0 <= i < |targets| => Reference(first + i, targets[i]))
  }

  function TargetsOf(references: seq<Reference>): (targets: seq<nat>)
    ensures |targets| == |references|
  {
    seq(|references|, i requires 0 <= i < |references| => references[i].target)
  }

  function AddReferences(pending: map<nat, Reference>, references: seq<Reference>): map<nat, Reference>
    decreases |references|
  {
    if references == [] then pending
    else
      var ref := references[0];
      AddReferences(if ref.measurement in pending then pending else pending[ref.measurement := ref], references[1..])
  }

  function AddPending(registers: seq<Register>, targets: seq<nat>): (more: seq<Register>)
    ensures |more| == |registers|
    decreases |targets|
  {
    if targets == [] then registers
    else
      var t := targets[0];
      AddPending(if t < |registers| then registers[t := registers[t].(pending := registers[t].pending + 1)] else registers,
                 targets[1..])
  }

  function CommitReservation(cfg: FeedbackConfig, r: Registers, references: seq<Reference>): Result<Registers> {
    if references == [] then Ok(r)
    else
      var targets := TargetsOf(references);
      var expected :- PrepareReservation(cfg, r, targets);
      if expected != references then Err(ErrorCode.Protocol)
      else
        Ok(Registers(AddPending(r.registers, targets), AddReferences(r.pending, references),
                     if cfg.fastFeedback then AddReferences(r.fastPending, references) else r.fastPending,
                     r.next + |references|))
  }

  /** Records an outcome; the oldest pending measurement of each target is delivered first. */
  function Deliver(r: Registers, c: Completion): Result<Registers> {
    var id, target := c.reference.measurement, c.reference.target;
    if id !in r.pending then Err(DuplicateResult)
    else if r.pending[id] != c.reference then Err(InvalidMeasurement)
    else if exists other :: other in r.pending && other < id && r.pending[other].target == target then Err(ErrorCode.Protocol)
    else if |r.registers| <= target || r.registers[target].pending == 0 then Err(InvalidOperand)
    else
      Ok(r.(registers := r.registers[target := Register(r.registers[target].pending - 1, c.value)],
            pending := r.pending - {id}))
  }

  function AcknowledgeFast(r: Registers, reference: Reference): Result<Registers> {
    if reference.measurement !in r.fastPending || r.fastPending[reference.measurement] != reference then Err(InvalidMeasurement)
    else Ok(r.(fastPending := r.fastPending - {reference.measurement}))
  }

  function Read(r: Registers, target: nat): Result<Option<bool>> {
    if |r.registers| <= target then Err(InvalidOperand)
    else Ok(if r.registers[target].pending != 0 then None else Some(r.registers[target].value))
  }

  class MeasurementRegisters {
    const cfg: FeedbackConfig
    var registers: seq<Register>
    var pending: map<nat, Reference>
    var fastPending: map<nat, Reference>
    var next: nat

    ghost function View(): Registers reads this { Registers(registers, pending, fastPending, next) }

    constructor (cfg: FeedbackConfig)
      ensures this.cfg == cfg && View() == Fresh(cfg)
    {
      this.cfg := cfg;
      registers, pending, fastPending, next := seq(cfg.qubits, _ => Register(0, false)), map[], map[], 1;
    }

    method Reset()
      modifies this
      ensures View() == Fresh(cfg)
    {
      registers, pending, fastPending, next := seq(cfg.qubits, _ => Register(0, false)), map[], map[], 1;
    }

    method Prepare(targets: seq<nat>) returns (references: Result<seq<Reference>>)
      ensures references == PrepareReservation(cfg, View(), targets)
    {
      if !(|pending| + |targets| <= cfg.resultCapacity
           && (cfg.fastFeedback ==> |fastPending| + |targets| <= cfg.resultCapacity)) {
        return Err(Capacity);
      }
      var _ :- CheckedAdd(next, |targets|);
      var made: seq<Reference> := [];
      for i := 0 to |targets|
        invariant CheckTargets(View(), targets, i) == CheckTargets(View(), targets, 0)
        invariant |made| == i && forall k | 0 <= k < i :: made[k] == Reference(next + k, targets[k])
      {
        if |registers| <= targets[i] {
          return Err(InvalidOperand);
        }
        var count := Occurrences(targets, targets[i]);
        if MAX_PENDING < count + registers[targets[i]].pending {
          return Err(TimeOverflow);
        }
        made := made + [Reference(next + i, targets[i])];
      }
      assert made == Consecutive(next, targets);
      return Ok(made);
    }

    /** Builds the whole reservation before changing any field. */
    method Commit(references: seq<Reference>) returns (outcome: Result<()>)
      modifies this
      ensures
        var r := CommitReservation(cfg, old(View()), references);
        if r.Ok? then outcome.Ok? && View() == r.value else outcome == Err(r.error) && View() == old(View())
    {
      if references == [] {
        return Ok(());
      }
      var targets := TargetsOf(references);
      var expected :- Prepare(targets);
      if expected != references {
        return Err(ErrorCode.Protocol);
      }
      var morePending: map<nat, Reference>, moreFast: map<nat, Reference>, counted := pending, fastPending, registers;
      assert references[0..] == references && targets[0..] == targets;
      for i := 0 to |references|
        modifies {}
        invariant AddReferences(morePending, references[i..]) == AddReferences(pending, references)
        invariant cfg.fastFeedback ==> AddReferences(moreFast, references[i..]) == AddReferences(fastPending, references)
        invariant !cfg.fastFeedback ==> moreFast == fastPending
      {
        var ref := references[i];
        assert references[i..][0] == ref && references[i..][1..] == references[i + 1..];
        morePending := if ref.measurement in morePending then morePending else morePending[ref.measurement := ref];
        if cfg.fastFeedback {
          moreFast := if ref.measurement in moreFast then moreFast else moreFast[ref.measurement := ref];
        }
      }
      for i := 0 to |targets|
        modifies {}
        invariant |counted| == |registers| && AddPending(counted, targets[i..]) == AddPending(registers, targets)
      {
        var t := targets[i];
        assert targets[i..][0] == t && targets[i..][1..] == targets[i + 1..];
        if t < |counted| {
          counted := counted[t := counted[t].(pending := counted[t].pending + 1)];
        }
      }
      pending, fastPending, registers := morePending, moreFast, counted;
      next := next + |references|;
      return Ok(());
    }

    method DeliverResult(c: Completion) returns (outcome: Result<()>)
      modifies this
      ensures
        var r := Deliver(old(View()), c);
        if r.Ok? then outcome.Ok? && View() == r.value else outcome == Err(r.error) && View() == old(View())
    {
      var id, target := c.reference.measurement, c.reference.target;
      if id !in pending {
        return Err(DuplicateResult);
      }
      if pending[id] != c.reference {
        return Err(InvalidMeasurement);
      }
      if exists other :: other in pending && other < id && pending[other].target == target {
        return Err(ErrorCode.Protocol);
      }
      if |registers| <= target || registers[target].pending == 0 {
        return Err(InvalidOperand);
      }
      registers := registers[target := Register(registers[target].pending - 1, c.value)];
      pending := pending - {id};
      return Ok(());
    }

    method Acknowledge(reference: Reference) returns (outcome: Result<()>)
      modifies this
      ensures
        var r := AcknowledgeFast(old(View()), reference);
        if r.Ok? then outcome.Ok? && View() == r.value else outcome == Err(r.error) && View() == old(View())
    {
      if reference.measurement !in fastPending || fastPending[reference.measurement] != reference {
        return Err(InvalidMeasurement);
      }
      fastPending := fastPending - {reference.measurement};
      return Ok(());
    }
  }
}
