/** Measurement results on their way from the device to the registers and the execution flags, and back as credits. */
module FeedbackRuns {
  import opened Errors
  import opened Time
  import opened Mailboxes
  import opened Protocol
  import opened Feedback

  datatype Channels = Channels(results: Link, fastResults: Link, credits: Link) {
    predicate Valid(cfg: FeedbackConfig) {
      && results.Valid() && fastResults.Valid() && credits.Valid()
      && results.capacity == fastResults.capacity == credits.capacity == cfg.resultCapacity
    }
  }

  /**
   * Registers, flags and mailboxes, with the history: the reserved targets (measurement i + 1 is the
   * i-th), the results the device has delivered, how many of them the registers have received, the TCU
   * has taken and the credits have acknowledged, and the measurements the device still holds.
   */
  datatype Run = Run(
    regs: Registers, flags: seq<FlagRegister>,
    results: seq<Envelope<Completion>>, fastResults: seq<Envelope<Completion>>, credits: seq<Envelope<Reference>>,
    reserved: seq<nat>, delivered: seq<Completion>, received: nat, taken: nat, acknowledged: nat,
    outstanding: map<nat, Reference>, now: nat)

  datatype Op = Reserve(targets: seq<nat>) | Result(completion: Completion) | CpuEdge | TcuEdge

  // ---- One operation ----

  /** How many messages are readable: `while (take(now))`. */
  function TakeCount<T>(entries: seq<Envelope<T>>, now: nat): (n: nat)
    ensures n <= |entries|
  {
    if entries == [] || now < entries[0].eligible then 0 else 1 + TakeCount(entries[1..], now)
  }

  /** The readable messages, oldest first. */
  function Readables<T>(entries: seq<Envelope<T>>, now: nat): (values: seq<T>)
    ensures |values| == TakeCount(entries, now)
  {
    Values(entries)[..TakeCount(entries, now)]
  }

  function DeliverAll(r: Registers, cs: seq<Completion>): Errors.Result<Registers>
    decreases |cs|
  {
    if cs == [] then Ok(r)
    else
      var first :- Deliver(r, cs[0]);
      DeliverAll(first, cs[1..])
  }

  function AcknowledgeAll(r: Registers, refs: seq<Reference>): Errors.Result<Registers>
    decreases |refs|
  {
    if refs == [] then Ok(r)
    else
      var first :- AcknowledgeFast(r, refs[0]);
      AcknowledgeAll(first, refs[1..])
  }

  function PublishAll<T>(link: Link, entries: seq<Envelope<T>>, now: nat, values: seq<T>): Errors.Result<seq<Envelope<T>>>
    requires link.Valid()
    decreases |values|
  {
    if values == [] then Ok(entries)
    else
      var first :- link.Publish(entries, now, values[0]);
      PublishAll(link, first, now, values[1..])
  }

  function ReferencesOf(cs: seq<Completion>): (refs: seq<Reference>)
    ensures |refs| == |cs|
  {
    seq(|cs|, i requires 0 <= i < |cs| => cs[i].reference)
  }

  function DoReserve(cfg: FeedbackConfig, r: Run, targets: seq<nat>): Errors.Result<Run> {
    var references := PrepareReservation(cfg, r.regs, targets);
    if references.Err? then Err(references.error)
    else
      var regs :- CommitReservation(cfg, r.regs, references.value);
      Ok(r.(regs := regs, reserved := r.reserved + targets, outstanding := AddReferences(r.outstanding, references.value)))
  }

  function DoResult(cfg: FeedbackConfig, ch: Channels, r: Run, now: nat, c: Completion): Errors.Result<Run>
    requires ch.Valid(cfg)
  {
    var results := ch.results.Publish(r.results, now, c);
    if results.Err? then Err(results.error)
    else
      var fast :- if cfg.fastFeedback then ch.fastResults.Publish(r.fastResults, now, c) else Ok(r.fastResults);
      Ok(r.(results := results.value, fastResults := fast, delivered := r.delivered + [c],
            outstanding := r.outstanding - {c.reference.measurement}, now := now))
  }

  function DoCpu(r: Run, now: nat): Errors.Result<Run> {
    var n, m := TakeCount(r.results, now), TakeCount(r.credits, now);
    var regs :- DeliverAll(r.regs, Readables(r.results, now));
    var regs2 :- AcknowledgeAll(regs, Readables(r.credits, now));
    Ok(r.(regs := regs2, results := r.results[n..], credits := r.credits[m..],
          received := r.received + n, acknowledged := r.acknowledged + m, now := now))
  }

  function DoTcu(cfg: FeedbackConfig, ch: Channels, r: Run, now: nat): Errors.Result<Run>
    requires ch.Valid(cfg)
  {
    var n := TakeCount(r.fastResults, now);
    var cs := Readables(r.fastResults, now);
    var flags :- CommitAll(r.flags, cs);
    var credits :- PublishAll(ch.credits, r.credits, now, ReferencesOf(cs));
    Ok(r.(flags := flags, fastResults := r.fastResults[n..], credits := credits, taken := r.taken + n, now := now))
  }

  function Step(cfg: FeedbackConfig, ch: Channels, r: Run, now: nat, op: Op): Errors.Result<Run>
    requires ch.Valid(cfg)
  {
    match op
    case Reserve(targets) => DoReserve(cfg, r, targets)
    case Result(c) => DoResult(cfg, ch, r, now, c)
    case CpuEdge => DoCpu(r, now)
    case TcuEdge => DoTcu(cfg, ch, r, now)
  }

  /** The device delivers what it holds, each measurement once; nothing is assumed of the order. */
  ghost predicate DeviceMay(outstanding: map<nat, Reference>, c: Completion) {
    c.reference.measurement in outstanding && outstanding[c.reference.measurement] == c.reference
  }

  // ---- The invariant ----

  function IdsOf(cs: seq<Completion>): set<nat> {
    set c | c in cs :: c.reference.measurement
  }

  /** The map holds exactly the reserved measurements that are not done. */
  ghost predicate Holds(m: map<nat, Reference>, reserved: seq<nat>, done: seq<Completion>) {
    && (forall id | id in m :: 1 <= id <= |reserved| && id !in IdsOf(done) && m[id] == Reference(id, reserved[id - 1]))
    && (forall id | 1 <= id <= |reserved| :: id in m || id in IdsOf(done))
    && |m| == |reserved| - |done|
  }

  /** The deliveries are of reserved measurements, each once. */
  ghost predicate DeliveredOk(reserved: seq<nat>, delivered: seq<Completion>) {
    && (forall k | 0 <= k < |delivered| :: Reserved(reserved, delivered[k].reference))
    && (forall j, k | 0 <= j < k < |delivered| :: delivered[j].reference.measurement != delivered[k].reference.measurement)
  }

  /** An older measurement of the same target has not been delivered before the k-th delivery. */
  ghost predicate OlderMissing(reserved: seq<nat>, delivered: seq<Completion>, k: nat)
    requires k < |delivered|
  {
    var ref := delivered[k].reference;
    exists o :: 1 <= o < ref.measurement && o <= |reserved| && reserved[o - 1] == ref.target && o !in IdsOf(delivered[..k])
  }

  /** Each of the first n deliveries is of its target's oldest measurement at that time. */
  ghost predicate InOrder(reserved: seq<nat>, delivered: seq<Completion>, n: nat)
    requires n <= |delivered|
  {
    forall k | 0 <= k < n :: !OlderMissing(reserved, delivered, k)
  }

  /** A measurement of the same target that is not older was delivered before the k-th delivery. */
  ghost predicate Stale(delivered: seq<Completion>, k: nat)
    requires k < |delivered|
  {
    exists j :: 0 <= j < k && delivered[j].reference.target == delivered[k].reference.target
                && delivered[k].reference.measurement <= delivered[j].reference.measurement
  }

  ghost predicate Rising(delivered: seq<Completion>, n: nat)
    requires n <= |delivered|
  {
    forall k | 0 <= k < n :: !Stale(delivered, k)
  }

  predicate Reserved(reserved: seq<nat>, ref: Reference) {
    1 <= ref.measurement <= |reserved| && reserved[ref.measurement - 1] == ref.target
  }

  function PendingOf(m: map<nat, Reference>, target: nat): set<nat> {
    set id | id in m && m[id].target == target
  }

  function LastValue(cs: seq<Completion>, target: nat): bool {
    if cs == [] then false
    else
      var last := cs[|cs| - 1];
      if last.reference.target == target then last.value else LastValue(cs[..|cs| - 1], target)
  }

  function LastId(cs: seq<Completion>, target: nat): nat {
    if cs == [] then 0
    else
      var last := cs[|cs| - 1];
      if last.reference.target == target then last.reference.measurement else LastId(cs[..|cs| - 1], target)
  }

  ghost predicate RegistersHold(registers: seq<Register>, m: map<nat, Reference>, done: seq<Completion>) {
    forall t | 0 <= t < |registers| ::
      registers[t].pending == |PendingOf(m, t)| && registers[t].value == LastValue(done, t)
  }

  ghost predicate FlagsHold(flags: seq<FlagRegister>, done: seq<Completion>) {
    forall t | 0 <= t < |flags| :: flags[t].lastMeasurement == LastId(done, t)
  }

  /** Publications are in order and not in the future. */
  ghost predicate Timely<T>(entries: seq<Envelope<T>>, now: nat) {
    entries != [] ==> entries[|entries| - 1].published <= now
  }

  ghost predicate CountsOk(cfg: FeedbackConfig, r: Run) {
    && r.received <= |r.delivered| <= |r.reserved|
    && r.acknowledged <= r.taken <= |r.delivered|
    && r.regs.next == |r.reserved| + 1
    && |r.reserved| - r.received <= cfg.resultCapacity
    && (cfg.fastFeedback ==> |r.reserved| - r.acknowledged <= cfg.resultCapacity)
    && (forall t | t in r.reserved :: t < cfg.qubits)
    && |r.regs.registers| == cfg.qubits == |r.flags|
  }

  ghost predicate MailOk(cfg: FeedbackConfig, r: Run)
    requires r.received <= |r.delivered| && r.acknowledged <= r.taken <= |r.delivered|
  {
    && Values(r.results) == r.delivered[r.received..]
    && Timely(r.results, r.now) && Timely(r.fastResults, r.now) && Timely(r.credits, r.now)
    && (cfg.fastFeedback ==> Values(r.fastResults) == r.delivered[r.taken..])
    && (cfg.fastFeedback ==> Values(r.credits) == ReferencesOf(r.delivered[r.acknowledged..r.taken]))
    && (!cfg.fastFeedback ==> r.fastResults == [] && r.credits == [])
  }

  ghost predicate RunOk(cfg: FeedbackConfig, r: Run) {
    && CountsOk(cfg, r)
    && MailOk(cfg, r)
    && DeliveredOk(r.reserved, r.delivered) && InOrder(r.reserved, r.delivered, r.received)
    && Holds(r.outstanding, r.reserved, r.delivered)
    && Holds(r.regs.pending, r.reserved, r.delivered[..r.received])
    && (cfg.fastFeedback ==> Holds(r.regs.fastPending, r.reserved, r.delivered[..r.acknowledged]))
    && RegistersHold(r.regs.registers, r.regs.pending, r.delivered[..r.received])
    && (cfg.fastFeedback ==> FlagsHold(r.flags, r.delivered[..r.taken]) && Rising(r.delivered, r.taken))
  }

  function Begin(cfg: FeedbackConfig, now: nat): Run {
    Run(Fresh(cfg), seq(cfg.qubits, _ => CLEAR_FLAGS), [], [], [], [], [], 0, 0, 0, map[], now)
  }

  lemma BeginIsOk(cfg: FeedbackConfig, now: nat)
    ensures RunOk(cfg, Begin(cfg, now))
  {
    var r := Begin(cfg, now);
    assert forall t: nat :: PendingOf(r.regs.pending, t) == {};
    assert r.delivered[..0] == [];
  }

  // ---- Reservations ----

  lemma {:induction false} ReserveKeepsHolds(m: map<nat, Reference>, reserved: seq<nat>, done: seq<Completion>, targets: seq<nat>)
    requires Holds(m, reserved, done) && forall id | id in IdsOf(done) :: id <= |reserved|
    ensures Holds(AddReferences(m, Consecutive(|reserved| + 1, targets)), reserved + targets, done)
    decreases |targets|
  {
    hide IdsOf, Holds;
    if targets == [] {
      assert reserved + targets == reserved;
    } else {
      var refs := Consecutive(|reserved| + 1, targets);
      var ref := refs[0];
      assert refs[1..] == Consecutive(|reserved + [targets[0]]| + 1, targets[1..]);
      OneReservation(m, reserved, done, targets[0]);
      assert |reserved + [targets[0]]| == |reserved| + 1;
      ReserveKeepsHolds(m[ref.measurement := ref], reserved + [targets[0]], done, targets[1..]);
      assert reserved + [targets[0]] + targets[1..] == reserved + targets;
    }
  }

  lemma OneReservation(m: map<nat, Reference>, reserved: seq<nat>, done: seq<Completion>, target: nat)
    requires Holds(m, reserved, done) && forall id | id in IdsOf(done) :: id <= |reserved|
    ensures |reserved| + 1 !in m
    ensures Holds(m[|reserved| + 1 := Reference(|reserved| + 1, target)], reserved + [target], done)
  {
    var id := |reserved| + 1;
    var more := m[id := Reference(id, target)];
    assert more.Keys == m.Keys + {id};
    hide IdsOf;
  }

  lemma {:induction false} ReserveKeepsRegisters(m: map<nat, Reference>, first: nat, registers: seq<Register>, done: seq<Completion>, targets: seq<nat>)
    requires RegistersHold(registers, m, done) && forall id | id in m :: id < first
    requires forall t | t in targets :: t < |registers|
    ensures RegistersHold(AddPending(registers, targets), AddReferences(m, Consecutive(first, targets)), done)
    decreases |targets|
  {
    if targets != [] {
      hide LastValue;
      var t := targets[0];
      assert t in targets && forall u | u in targets[1..] :: u in targets;
      var refs := Consecutive(first, targets);
      assert refs[1..] == Consecutive(first + 1, targets[1..]);
      var m' := m[first := Reference(first, t)];
      var more := registers[t := registers[t].(pending := registers[t].pending + 1)];
      assert PendingOf(m', t) == PendingOf(m, t) + {first};
      forall u | 0 <= u < |registers| && u != t
        ensures PendingOf(m', u) == PendingOf(m, u)
      {
      }
      ReserveKeepsRegisters(m', first + 1, more, done, targets[1..]);
    }
  }

  lemma DeliveredIds(reserved: seq<nat>, delivered: seq<Completion>, n: nat)
    requires DeliveredOk(reserved, delivered) && n <= |delivered|
    ensures forall id | id in IdsOf(delivered[..n]) :: id <= |reserved|
  {
    forall id | id in IdsOf(delivered[..n])
      ensures id <= |reserved|
    {
      var c :| c in delivered[..n] && c.reference.measurement == id;
      var k :| 0 <= k < n && delivered[k] == c;
    }
  }

  lemma ReserveKeepsDelivered(reserved: seq<nat>, delivered: seq<Completion>, targets: seq<nat>, n: nat)
    requires DeliveredOk(reserved, delivered) && n <= |delivered| && InOrder(reserved, delivered, n)
    ensures DeliveredOk(reserved + targets, delivered) && InOrder(reserved + targets, delivered, n)
  {
    hide IdsOf;
    forall k | 0 <= k < n
      ensures !OlderMissing(reserved + targets, delivered, k)
    {
      assert Reserved(reserved, delivered[k].reference) && !OlderMissing(reserved, delivered, k);
    }
  }

  lemma {:induction false} AddedReferences(m: map<nat, Reference>, refs: seq<Reference>)
    ensures
      var more := AddReferences(m, refs);
      forall id | id in more :: (id in m && more[id] == m[id]) || (more[id] in refs && more[id].measurement == id)
    decreases |refs|
  {
    if refs != [] {
      var m' := if refs[0].measurement in m then m else m[refs[0].measurement := refs[0]];
      AddedReferences(m', refs[1..]);
    }
  }

  lemma {:induction false} CheckedTargets(r: Registers, targets: seq<nat>, i: nat)
    requires CheckTargets(r, targets, i).Ok?
    ensures forall k | i <= k < |targets| :: targets[k] < |r.registers|
    decreases |targets| - i
  {
    if i < |targets| {
      CheckedTargets(r, targets, i + 1);
    }
  }

  /** Reserving fails only for want of capacity, identifiers or a valid target. */
  lemma ReserveIsCommitted(cfg: FeedbackConfig, r: Run, targets: seq<nat>)
    requires CountsOk(cfg, r)
    ensures
      var prepared := PrepareReservation(cfg, r.regs, targets);
      && (prepared.Ok? ==> prepared.value == Consecutive(|r.reserved| + 1, targets) && HasCapacity(cfg, r.regs, |targets|)
                           && forall t | t in targets :: t < cfg.qubits)
      && DoReserve(cfg, r, targets)
         == if prepared.Err? then Err(prepared.error)
            else
              Ok(r.(regs := Registers(AddPending(r.regs.registers, targets), AddReferences(r.regs.pending, prepared.value),
                                      if cfg.fastFeedback then AddReferences(r.regs.fastPending, prepared.value) else r.regs.fastPending,
                                      r.regs.next + |targets|),
                    reserved := r.reserved + targets, outstanding := AddReferences(r.outstanding, prepared.value)))
  {
    var prepared := PrepareReservation(cfg, r.regs, targets);
    if prepared.Ok? {
      CheckedTargets(r.regs, targets, 0);
      assert TargetsOf(prepared.value) == targets;
    }
    hide CheckTargets, HasCapacity;
  }

  lemma ReserveKeepsRun(cfg: FeedbackConfig, r: Run, targets: seq<nat>)
    requires RunOk(cfg, r) && DoReserve(cfg, r, targets).Ok?
    ensures RunOk(cfg, DoReserve(cfg, r, targets).value)
  {
    hide PrepareReservation, CommitReservation, DeliveredOk, InOrder, Rising, Holds, RegistersHold, FlagsHold, AddPending,
      AddReferences, MailOk;
    hide IdsOf;
    ReserveIsCommitted(cfg, r, targets);
    var r' := DoReserve(cfg, r, targets).value;
    hide DoReserve;
    var done, acked := r.delivered[..r.received], r.delivered[..r.acknowledged];
    assert r.delivered[..|r.delivered|] == r.delivered;
    DeliveredIds(r.reserved, r.delivered, |r.delivered|);
    DeliveredIds(r.reserved, r.delivered, r.received);
    DeliveredIds(r.reserved, r.delivered, r.acknowledged);
    ReserveKeepsHolds(r.outstanding, r.reserved, r.delivered, targets);
    ReserveKeepsHolds(r.regs.pending, r.reserved, done, targets);
    ReserveKeepsDelivered(r.reserved, r.delivered, targets, r.received);
    if cfg.fastFeedback {
      ReserveKeepsHolds(r.regs.fastPending, r.reserved, acked, targets);
    }
    HeldBelow(r.regs.pending, r.reserved, done);
    ReserveKeepsRegisters(r.regs.pending, |r.reserved| + 1, r.regs.registers, done, targets);
    HoldsSize(r.regs.pending, r.reserved, done);
    if cfg.fastFeedback {
      HoldsSize(r.regs.fastPending, r.reserved, acked);
    }
    MailAside(cfg, r, r');
  }

  lemma HeldBelow(m: map<nat, Reference>, reserved: seq<nat>, done: seq<Completion>)
    requires Holds(m, reserved, done)
    ensures forall id | id in m :: id < |reserved| + 1
  {
  }

  lemma HoldsSize(m: map<nat, Reference>, reserved: seq<nat>, done: seq<Completion>)
    requires Holds(m, reserved, done)
    ensures |m| == |reserved| - |done|
  {
  }

  lemma MailAside(cfg: FeedbackConfig, r: Run, r': Run)
    requires r.received <= |r.delivered| && r.acknowledged <= r.taken <= |r.delivered| && MailOk(cfg, r)
    requires r'.results == r.results && r'.fastResults == r.fastResults && r'.credits == r.credits
    requires r'.delivered == r.delivered && r'.received == r.received && r'.taken == r.taken
    requires r'.acknowledged == r.acknowledged && r.now <= r'.now
    ensures MailOk(cfg, r')
  {
  }

  // ---- Deliveries by the device ----

  lemma RemoveHeld(m: map<nat, Reference>, reserved: seq<nat>, done: seq<Completion>, c: Completion)
    requires Holds(m, reserved, done) && c.reference.measurement in m
    ensures Holds(m - {c.reference.measurement}, reserved, done + [c])
  {
    var id := c.reference.measurement;
    assert IdsOf(done + [c]) == IdsOf(done) + {id} by { assert forall x :: x in done + [c] <==> x in done || x == c; }
    assert (m - {id}).Keys == m.Keys - {id};
    hide IdsOf;
  }

  lemma DeliveryKeepsOrder(reserved: seq<nat>, delivered: seq<Completion>, outstanding: map<nat, Reference>, c: Completion)
    requires DeliveredOk(reserved, delivered) && Holds(outstanding, reserved, delivered) && DeviceMay(outstanding, c)
    ensures DeliveredOk(reserved, delivered + [c])
  {
    EarlierIds(delivered, |delivered|);
    assert delivered[..|delivered|] == delivered;
    hide IdsOf;
  }

  /** What was received before stays in order when something is delivered. */
  lemma PrefixStays(reserved: seq<nat>, delivered: seq<Completion>, c: Completion, n: nat)
    requires n <= |delivered|
    ensures InOrder(reserved, delivered, n) ==> InOrder(reserved, delivered + [c], n)
    ensures Rising(delivered, n) ==> Rising(delivered + [c], n)
  {
    hide IdsOf;
    var more := delivered + [c];
    forall k | 0 <= k < n
      ensures OlderMissing(reserved, more, k) ==> OlderMissing(reserved, delivered, k)
      ensures Stale(more, k) ==> Stale(delivered, k)
    {
      assert more[..k] == delivered[..k] && more[k] == delivered[k];
    }
  }

  /** The device's deliveries find room on every mailbox: only the tick range can refuse them. */
  lemma ResultHasRoom(cfg: FeedbackConfig, ch: Channels, r: Run, now: nat, c: Completion)
    requires ch.Valid(cfg) && RunOk(cfg, r) && r.now <= now && DeviceMay(r.outstanding, c)
    ensures |r.results| < cfg.resultCapacity && (cfg.fastFeedback ==> |r.fastResults| < cfg.resultCapacity)
    ensures DoResult(cfg, ch, r, now, c).Err? ==> DoResult(cfg, ch, r, now, c).error == TimeOverflow
  {
    HoldsSize(r.outstanding, r.reserved, r.delivered);
    assert r.outstanding.Keys != {};
    assert 0 < |r.outstanding.Keys| == |r.outstanding|;
    assert |r.results| == |Values(r.results)|;
    assert cfg.fastFeedback ==> |r.fastResults| == |Values(r.fastResults)|;
    hide Holds, DeliveredOk, InOrder, Rising, RegistersHold, FlagsHold, DeviceMay, Values;
    AfterErrors(ch.results, now);
    AfterErrors(ch.fastResults, now);
  }

  lemma Published<T>(link: Link, entries: seq<Envelope<T>>, now: nat, value: T)
    requires link.Valid() && link.Publish(entries, now, value).Ok?
    ensures Values(link.Publish(entries, now, value).value) == Values(entries) + [value]
    ensures Timely(link.Publish(entries, now, value).value, now)
  {
  }

  lemma ResultKeepsMail(cfg: FeedbackConfig, ch: Channels, r: Run, now: nat, c: Completion)
    requires ch.Valid(cfg) && CountsOk(cfg, r) && MailOk(cfg, r) && r.now <= now && DoResult(cfg, ch, r, now, c).Ok?
    ensures
      var r' := DoResult(cfg, ch, r, now, c).value;
      && r'.delivered == r.delivered + [c] && r'.received == r.received && r'.taken == r.taken
      && r'.acknowledged == r.acknowledged
      && Values(r'.results) == r'.delivered[r'.received..]
      && Timely(r'.results, now) && Timely(r'.fastResults, now)
      && (cfg.fastFeedback ==> Values(r'.fastResults) == r'.delivered[r'.taken..])
  {
    Published(ch.results, r.results, now, c);
    if cfg.fastFeedback {
      Published(ch.fastResults, r.fastResults, now, c);
    }
    hide Values;
  }

  lemma MayIsHeld(outstanding: map<nat, Reference>, c: Completion)
    requires DeviceMay(outstanding, c)
    ensures c.reference.measurement in outstanding
  {
  }

  lemma ResultKeepsRun(cfg: FeedbackConfig, ch: Channels, r: Run, now: nat, c: Completion)
    requires ch.Valid(cfg) && RunOk(cfg, r) && r.now <= now && DeviceMay(r.outstanding, c) && DoResult(cfg, ch, r, now, c).Ok?
    ensures RunOk(cfg, DoResult(cfg, ch, r, now, c).value)
  {
    hide Values, ReferencesOf, DeliveredOk, InOrder, Rising, Holds, RegistersHold, FlagsHold, Timely, DeviceMay;
    var r' := DoResult(cfg, ch, r, now, c).value;
    ResultKeepsMail(cfg, ch, r, now, c);
    assert r'.delivered[..r.received] == r.delivered[..r.received];
    assert r'.delivered[..r.acknowledged] == r.delivered[..r.acknowledged];
    assert r'.delivered[..r.taken] == r.delivered[..r.taken];
    assert r'.delivered[r.acknowledged..r.taken] == r.delivered[r.acknowledged..r.taken];
    MayIsHeld(r.outstanding, c);
    EarlierIsTimely(r.credits, r.now, now);
    RemoveHeld(r.outstanding, r.reserved, r.delivered, c);
    DeliveryKeepsOrder(r.reserved, r.delivered, r.outstanding, c);
    PrefixStays(r.reserved, r.delivered, c, r.received);
    PrefixStays(r.reserved, r.delivered, c, r.taken);
    HoldsSize(r.outstanding - {c.reference.measurement}, r.reserved, r.delivered + [c]);
  }

  // ---- The CPU's edge ----

  lemma LastDelivered(delivered: seq<Completion>, n: nat, target: nat)
    requires n < |delivered|
    ensures LastValue(delivered[..n + 1], target)
         == if delivered[n].reference.target == target then delivered[n].value else LastValue(delivered[..n], target)
    ensures LastId(delivered[..n + 1], target)
         == if delivered[n].reference.target == target then delivered[n].reference.measurement else LastId(delivered[..n], target)
  {
    assert delivered[..n + 1][..n] == delivered[..n];
  }

  lemma DeliveriesDiffer(reserved: seq<nat>, delivered: seq<Completion>, j: nat, n: nat)
    requires DeliveredOk(reserved, delivered) && j < |delivered| && n < |delivered| && j != n
    ensures delivered[j].reference.measurement != delivered[n].reference.measurement
  {
    assert j < n || n < j;
  }

  lemma IdPosition(cs: seq<Completion>, id: nat) returns (j: nat)
    requires id in IdsOf(cs)
    ensures j < |cs| && cs[j].reference.measurement == id
  {
    var c :| c in cs && c.reference.measurement == id;
    j :| 0 <= j < |cs| && cs[j] == c;
  }

  lemma NextIsHeld(reserved: seq<nat>, delivered: seq<Completion>, m: map<nat, Reference>, n: nat)
    requires DeliveredOk(reserved, delivered) && n < |delivered| && Holds(m, reserved, delivered[..n])
    ensures delivered[n].reference.measurement in m && m[delivered[n].reference.measurement] == delivered[n].reference
  {
    var ref := delivered[n].reference;
    assert Reserved(reserved, ref);
    NotBefore(reserved, delivered, n, n);
    hide IdsOf;
  }

  /** The guard on the order of deliveries sees exactly the older measurements that are missing. */
  lemma OlderIsPending(reserved: seq<nat>, delivered: seq<Completion>, m: map<nat, Reference>, n: nat)
    requires DeliveredOk(reserved, delivered) && n < |delivered| && Holds(m, reserved, delivered[..n])
    ensures
      var ref := delivered[n].reference;
      (exists other :: other in m && other < ref.measurement && m[other].target == ref.target) <==> OlderMissing(reserved, delivered, n)
  {
    hide IdsOf;
    var ref := delivered[n].reference;
    assert Reserved(reserved, ref);
    if OlderMissing(reserved, delivered, n) {
      var o :| 1 <= o < ref.measurement && o <= |reserved| && reserved[o - 1] == ref.target && o !in IdsOf(delivered[..n]);
      assert o in m;
    }
  }

  lemma EarlierIds(cs: seq<Completion>, n: nat)
    requires n <= |cs|
    ensures forall j | 0 <= j < n :: cs[j].reference.measurement in IdsOf(cs[..n])
  {
    forall j | 0 <= j < n
      ensures cs[j].reference.measurement in IdsOf(cs[..n])
    {
      assert cs[..n][j] in cs[..n];
    }
  }

  /** The registers after the first n deliveries. */
  ghost predicate Received(cfg: FeedbackConfig, regs: Registers, reserved: seq<nat>, delivered: seq<Completion>, n: nat)
    requires n <= |delivered|
  {
    && Holds(regs.pending, reserved, delivered[..n]) && RegistersHold(regs.registers, regs.pending, delivered[..n])
    && |regs.registers| == cfg.qubits && forall t | t in reserved :: t < cfg.qubits
  }

  /** The registers refuse a result exactly when an older one of its target is missing. */
  lemma DeliverDecides(cfg: FeedbackConfig, regs: Registers, reserved: seq<nat>, delivered: seq<Completion>, n: nat)
    requires DeliveredOk(reserved, delivered) && n < |delivered| && Received(cfg, regs, reserved, delivered, n)
    ensures
      var c := delivered[n];
      var id, t := c.reference.measurement, c.reference.target;
      && id in regs.pending && regs.pending[id] == c.reference
      && t < |regs.registers| && 0 < regs.registers[t].pending
      && Deliver(regs, c) == if OlderMissing(reserved, delivered, n) then Err(ErrorCode.Protocol)
                             else Ok(regs.(registers := regs.registers[t := Register(regs.registers[t].pending - 1, c.value)],
                                           pending := regs.pending - {id}))
  {
    var c := delivered[n];
    NextIsHeld(reserved, delivered, regs.pending, n);
    assert Reserved(reserved, c.reference) && reserved[c.reference.measurement - 1] in reserved;
    CountAfterRemoval(regs.pending, c.reference.measurement);
    assert regs.registers[c.reference.target].pending == |PendingOf(regs.pending, c.reference.target)|;
    OlderIsPending(reserved, delivered, regs.pending, n);
    hide DeliveredOk, Holds, Received, PendingOf, OlderMissing;
  }

  lemma RegistersAfter(registers: seq<Register>, m: map<nat, Reference>, delivered: seq<Completion>, n: nat)
    requires n < |delivered| && RegistersHold(registers, m, delivered[..n])
    requires
      var ref := delivered[n].reference;
      && ref.measurement in m && m[ref.measurement] == ref && ref.target < |registers| && 0 < registers[ref.target].pending
    ensures
      var c := delivered[n];
      RegistersHold(registers[c.reference.target := Register(registers[c.reference.target].pending - 1, c.value)],
                    m - {c.reference.measurement}, delivered[..n + 1])
  {
    var c := delivered[n];
    CountAfterRemoval(m, c.reference.measurement);
    forall u: nat
      ensures LastValue(delivered[..n + 1], u) == if c.reference.target == u then c.value else LastValue(delivered[..n], u)
    {
      LastDelivered(delivered, n, u);
    }
    hide LastValue, PendingOf;
  }

  lemma DeliverNext(cfg: FeedbackConfig, regs: Registers, reserved: seq<nat>, delivered: seq<Completion>, n: nat)
    requires DeliveredOk(reserved, delivered) && n < |delivered| && Received(cfg, regs, reserved, delivered, n)
    ensures
      var r := Deliver(regs, delivered[n]);
      if OlderMissing(reserved, delivered, n) then r == Err(ErrorCode.Protocol)
      else r.Ok? && Received(cfg, r.value, reserved, delivered, n + 1) && r.value.next == regs.next && r.value.fastPending == regs.fastPending
  {
    hide Deliver, DeliveredOk, RegistersHold, Holds, OlderMissing;
    DeliverDecides(cfg, regs, reserved, delivered, n);
    if !OlderMissing(reserved, delivered, n) {
      RegistersAfter(regs.registers, regs.pending, delivered, n);
      RemoveHeld(regs.pending, reserved, delivered[..n], delivered[n]);
      assert delivered[..n + 1] == delivered[..n] + [delivered[n]];
    }
  }

  lemma CountAfterRemoval(m: map<nat, Reference>, id: nat)
    requires id in m
    ensures forall t :: |PendingOf(m - {id}, t)| == |PendingOf(m, t)| - if m[id].target == t then 1 else 0
    ensures 0 < |PendingOf(m, m[id].target)|
  {
    forall t
      ensures |PendingOf(m - {id}, t)| == |PendingOf(m, t)| - if m[id].target == t then 1 else 0
    {
      if m[id].target == t {
        assert PendingOf(m - {id}, t) == PendingOf(m, t) - {id};
      } else {
        assert PendingOf(m - {id}, t) == PendingOf(m, t);
      }
    }
    assert id in PendingOf(m, m[id].target);
  }

  predicate NextUp(delivered: seq<Completion>, n: nat, todo: seq<Completion>) {
    n + |todo| <= |delivered| && todo == delivered[n..n + |todo|]
  }

  lemma NextUpShifts(delivered: seq<Completion>, n: nat, todo: seq<Completion>)
    requires NextUp(delivered, n, todo) && todo != []
    ensures todo[0] == delivered[n] && NextUp(delivered, n + 1, todo[1..]) && n + 1 + |todo[1..]| == n + |todo|
  {
  }

  /** One of the deliveries from n on comes before an older one of its target. */
  ghost predicate Misordered(reserved: seq<nat>, delivered: seq<Completion>, n: nat, count: nat)
    requires n + count <= |delivered|
  {
    exists k :: n <= k < n + count && OlderMissing(reserved, delivered, k)
  }

  lemma MisorderedFrom(reserved: seq<nat>, delivered: seq<Completion>, n: nat, count: nat)
    requires 0 < count && n + count <= |delivered|
    ensures Misordered(reserved, delivered, n, count) <==> OlderMissing(reserved, delivered, n) || Misordered(reserved, delivered, n + 1, count - 1)
  {
    hide OlderMissing;
  }

  /** Delivering the next results succeeds exactly when none of them comes before an older one of its target. */
  lemma {:induction false} DeliverPrefix(cfg: FeedbackConfig, regs: Registers, reserved: seq<nat>, delivered: seq<Completion>,
                                         n: nat, todo: seq<Completion>)
    requires DeliveredOk(reserved, delivered) && NextUp(delivered, n, todo) && Received(cfg, regs, reserved, delivered, n)
    ensures
      var r := DeliverAll(regs, todo);
      if Misordered(reserved, delivered, n, |todo|) then r == Err(ErrorCode.Protocol)
      else r.Ok? && Received(cfg, r.value, reserved, delivered, n + |todo|) && r.value.next == regs.next && r.value.fastPending == regs.fastPending
    decreases |todo|
  {
    hide Deliver, Holds, DeliveredOk, Received, OlderMissing;
    if todo != [] {
      NextUpShifts(delivered, n, todo);
      DeliverNext(cfg, regs, reserved, delivered, n);
      MisorderedFrom(reserved, delivered, n, |todo|);
      hide NextUp, Misordered;
      if !OlderMissing(reserved, delivered, n) {
        DeliverPrefix(cfg, Deliver(regs, todo[0]).value, reserved, delivered, n + 1, todo[1..]);
      }
    }
  }

  lemma AcknowledgeNext(regs: Registers, reserved: seq<nat>, delivered: seq<Completion>, n: nat)
    requires DeliveredOk(reserved, delivered) && n < |delivered| && Holds(regs.fastPending, reserved, delivered[..n])
    ensures
      var r := AcknowledgeFast(regs, delivered[n].reference);
      r.Ok? && Holds(r.value.fastPending, reserved, delivered[..n + 1]) && r.value == regs.(fastPending := r.value.fastPending)
  {
    NextIsHeld(reserved, delivered, regs.fastPending, n);
    RemoveHeld(regs.fastPending, reserved, delivered[..n], delivered[n]);
    assert delivered[..n + 1] == delivered[..n] + [delivered[n]];
    hide Holds, DeliveredOk;
  }

  lemma {:induction false} AcknowledgePrefix(regs: Registers, reserved: seq<nat>, delivered: seq<Completion>, n: nat, todo: seq<Completion>)
    requires DeliveredOk(reserved, delivered) && NextUp(delivered, n, todo)
    requires Holds(regs.fastPending, reserved, delivered[..n])
    ensures
      var r := AcknowledgeAll(regs, ReferencesOf(todo));
      && r.Ok? && Holds(r.value.fastPending, reserved, delivered[..n + |todo|])
      && r.value == regs.(fastPending := r.value.fastPending)
    decreases |todo|
  {
    hide Holds, DeliveredOk, AcknowledgeFast;
    if todo != [] {
      NextUpShifts(delivered, n, todo);
      AcknowledgeNext(regs, reserved, delivered, n);
      hide NextUp;
      var refs := ReferencesOf(todo);
      assert refs[0] == todo[0].reference && refs[1..] == ReferencesOf(todo[1..]);
      AcknowledgePrefix(AcknowledgeFast(regs, refs[0]).value, reserved, delivered, n + 1, todo[1..]);
    }
  }

  lemma ValuesSplit<T>(entries: seq<Envelope<T>>, n: nat)
    requires n <= |entries|
    ensures Values(entries)[..n] + Values(entries[n..]) == Values(entries) && Values(entries[n..]) == Values(entries)[n..]
    ensures forall now :: Timely(entries, now) ==> Timely(entries[n..], now)
  {
  }

  lemma CpuTakes(cfg: FeedbackConfig, r: Run, now: nat)
    requires CountsOk(cfg, r) && MailOk(cfg, r)
    ensures
      var cs := Readables(r.results, now);
      && NextUp(r.delivered, r.received, cs) && |cs| == TakeCount(r.results, now) && r.received + |cs| <= |r.delivered|
      && Values(r.results[|cs|..]) == r.delivered[r.received + |cs|..] && Timely(r.results[|cs|..], r.now)
  {
    var n := TakeCount(r.results, now);
    ValuesSplit(r.results, n);
    hide Values, TakeCount;
  }

  /** The results whose credits the CPU takes at this edge. */
  function Credited(r: Run, now: nat): seq<Completion>
    requires r.acknowledged + TakeCount(r.credits, now) <= |r.delivered|
  {
    r.delivered[r.acknowledged..r.acknowledged + TakeCount(r.credits, now)]
  }

  lemma CreditsTaken(cfg: FeedbackConfig, r: Run, now: nat)
    requires CountsOk(cfg, r) && MailOk(cfg, r)
    ensures
      var m := TakeCount(r.credits, now);
      && r.acknowledged + m <= r.taken
      && Timely(r.credits[m..], r.now) && NextUp(r.delivered, r.acknowledged, Credited(r, now))
      && (if cfg.fastFeedback then && Readables(r.credits, now) == ReferencesOf(Credited(r, now))
                                   && Values(r.credits[m..]) == ReferencesOf(r.delivered[r.acknowledged + m..r.taken])
          else m == 0 && r.credits[m..] == [] && Readables(r.credits, now) == [])
      && |Credited(r, now)| == m && r.taken <= |r.delivered|
  {
    var m := TakeCount(r.credits, now);
    ValuesSplit(r.credits, m);
    assert |Values(r.credits)| == |r.credits|;
    hide Values, TakeCount;
    if cfg.fastFeedback {
      var refs := ReferencesOf(r.delivered[r.acknowledged..r.taken]);
      assert refs[..m] == ReferencesOf(r.delivered[r.acknowledged..r.acknowledged + m]);
      assert refs[m..] == ReferencesOf(r.delivered[r.acknowledged + m..r.taken]);
    }
  }

  lemma RunParts(cfg: FeedbackConfig, r: Run)
    requires RunOk(cfg, r)
    ensures DeliveredOk(r.reserved, r.delivered) && InOrder(r.reserved, r.delivered, r.received) && Holds(r.outstanding, r.reserved, r.delivered)
    ensures Received(cfg, r.regs, r.reserved, r.delivered, r.received)
    ensures cfg.fastFeedback ==> Holds(r.regs.fastPending, r.reserved, r.delivered[..r.acknowledged])
    ensures CountsOk(cfg, r) && MailOk(cfg, r)
  {
    hide Holds, RegistersHold, MailOk, DeliveredOk, InOrder, Rising, FlagsHold;
  }

  lemma CpuShape(r: Run, now: nat, regs: Registers, regs2: Registers)
    requires DeliverAll(r.regs, Readables(r.results, now)) == Ok(regs)
    requires AcknowledgeAll(regs, Readables(r.credits, now)) == Ok(regs2)
    ensures DoCpu(r, now).Ok? && DoCpu(r, now).value.regs == regs2
  {
    hide DeliverAll, AcknowledgeAll, Readables, TakeCount;
  }

  lemma NothingCredited(regs: Registers)
    ensures AcknowledgeAll(regs, []) == Ok(regs)
  {
  }

  lemma CpuRefuses(r: Run, now: nat, error: ErrorCode)
    requires DeliverAll(r.regs, Readables(r.results, now)) == Err(error)
    ensures DoCpu(r, now) == Err(error)
  {
    hide DeliverAll, AcknowledgeAll, Readables, TakeCount;
  }

  /** The results that the processor's edge receives include one that comes before an older one of its target. */
  ghost predicate CpuMisordered(r: Run, now: nat)
    requires r.received + TakeCount(r.results, now) <= |r.delivered|
  {
    Misordered(r.reserved, r.delivered, r.received, TakeCount(r.results, now))
  }

  /**
   * When a processor's edge faults: exactly when it receives a result of a target of which an older measurement is
   * still pending. No result is unknown or repeated, and no credit is refused.
   */
  lemma CpuEdgeFaultsExactlyWhen(cfg: FeedbackConfig, r: Run, now: nat)
    requires RunOk(cfg, r)
    ensures
      var d := DoCpu(r, now);
      var n, m := TakeCount(r.results, now), TakeCount(r.credits, now);
      && r.received + n <= |r.delivered| && r.acknowledged + m <= r.taken <= |r.delivered|
      && (if CpuMisordered(r, now) then d == Err(ErrorCode.Protocol)
          else
            && d.Ok? && Received(cfg, d.value.regs, r.reserved, r.delivered, r.received + n)
            && d.value.regs.next == r.regs.next
            && (cfg.fastFeedback ==> Holds(d.value.regs.fastPending, r.reserved, r.delivered[..r.acknowledged + m])))
  {
    hide *;
    RunParts(cfg, r);
    CpuTakes(cfg, r, now);
    CreditsTaken(cfg, r, now);
    CpuMisorder(r, now);
    var cs, refs := Readables(r.results, now), Readables(r.credits, now);
    DeliverPrefix(cfg, r.regs, r.reserved, r.delivered, r.received, cs);
    if CpuMisordered(r, now) {
      CpuRefuses(r, now, ErrorCode.Protocol);
    } else {
      var regs := DeliverAll(r.regs, cs).value;
      if cfg.fastFeedback {
        AcknowledgePrefix(regs, r.reserved, r.delivered, r.acknowledged, Credited(r, now));
      } else {
        assert refs == [];
        NothingCredited(regs);
      }
      var regs2 := AcknowledgeAll(regs, refs).value;
      CpuShape(r, now, regs, regs2);
      PendingAside(cfg, regs, regs2, r.reserved, r.delivered, r.received + |cs|);
    }
  }

  lemma CpuMisorder(r: Run, now: nat)
    requires r.received + TakeCount(r.results, now) <= |r.delivered|
    ensures CpuMisordered(r, now) <==> Misordered(r.reserved, r.delivered, r.received, TakeCount(r.results, now))
  {
    hide Misordered;
  }

  lemma OrderExtends(reserved: seq<nat>, delivered: seq<Completion>, n: nat, count: nat)
    requires n + count <= |delivered| && InOrder(reserved, delivered, n) && !Misordered(reserved, delivered, n, count)
    ensures InOrder(reserved, delivered, n + count)
  {
    hide OlderMissing;
  }

  lemma PendingAside(cfg: FeedbackConfig, regs: Registers, regs': Registers, reserved: seq<nat>, delivered: seq<Completion>, n: nat)
    requires n <= |delivered| && Received(cfg, regs, reserved, delivered, n) && regs' == regs.(fastPending := regs'.fastPending)
    ensures Received(cfg, regs', reserved, delivered, n)
  {
    hide Holds, RegistersHold;
  }

  lemma CpuEdgeKeepsMail(cfg: FeedbackConfig, r: Run, now: nat)
    requires CountsOk(cfg, r) && MailOk(cfg, r) && r.now <= now && DoCpu(r, now).Ok?
    ensures
      var d := DoCpu(r, now).value;
      && d.received <= |d.delivered| && d.acknowledged <= d.taken <= |d.delivered| && MailOk(cfg, d)
  {
    CpuTakes(cfg, r, now);
    CreditsTaken(cfg, r, now);
    hide Values, TakeCount, NextUp, DeliverAll, AcknowledgeAll;
  }

  lemma CpuEdgeKeepsRun(cfg: FeedbackConfig, r: Run, now: nat)
    requires RunOk(cfg, r) && r.now <= now && DoCpu(r, now).Ok?
    ensures RunOk(cfg, DoCpu(r, now).value)
  {
    hide DeliveredOk, InOrder, Rising, Misordered, Holds, RegistersHold, FlagsHold, MailOk, DeliverAll, AcknowledgeAll;
    CpuEdgeFaultsExactlyWhen(cfg, r, now);
    CpuEdgeKeepsMail(cfg, r, now);
    OrderExtends(r.reserved, r.delivered, r.received, TakeCount(r.results, now));
  }

  // ---- The TCU's edge ----

  /** While the identifiers of a target rise, its last one is the greatest. */
  lemma {:induction false} LastIsGreatest(delivered: seq<Completion>, n: nat, target: nat)
    requires n <= |delivered| && Rising(delivered, n)
    ensures forall k | 0 <= k < n && delivered[k].reference.target == target :: delivered[k].reference.measurement <= LastId(delivered[..n], target)
    ensures LastId(delivered[..n], target) == 0
            || exists k :: 0 <= k < n && delivered[k].reference.target == target && delivered[k].reference.measurement == LastId(delivered[..n], target)
    decreases n
  {
    if 0 < n {
      LastDelivered(delivered, n - 1, target);
      LastIsGreatest(delivered, n - 1, target);
      assert !Stale(delivered, n - 1);
      hide LastId;
      if delivered[n - 1].reference.target == target {
        assert delivered[n - 1].reference.measurement == LastId(delivered[..n], target);
      }
    }
  }

  /** The flags refuse a result exactly when it is not newer than one already committed for its target. */
  lemma FlagsDecide(flags: seq<FlagRegister>, reserved: seq<nat>, delivered: seq<Completion>, n: nat)
    requires DeliveredOk(reserved, delivered) && n < |delivered| && Rising(delivered, n)
    requires FlagsHold(flags, delivered[..n]) && forall t | t in reserved :: t < |flags|
    ensures
      var r := CommitFlags(flags, delivered[n]);
      if Stale(delivered, n) then r == Err(ErrorCode.Protocol)
      else r.Ok? && FlagsHold(r.value, delivered[..n + 1]) && |r.value| == |flags| && Rising(delivered, n + 1)
  {
    var c := delivered[n];
    assert Reserved(reserved, c.reference) && reserved[c.reference.measurement - 1] in reserved;
    LastIsGreatest(delivered, n, c.reference.target);
    assert flags[c.reference.target].lastMeasurement == LastId(delivered[..n], c.reference.target);
    hide DeliveredOk;
    forall t: nat
      ensures LastId(delivered[..n + 1], t) == if c.reference.target == t then c.reference.measurement else LastId(delivered[..n], t)
    {
      LastDelivered(delivered, n, t);
    }
    hide LastId;
  }

  /** One of the deliveries from n on is not newer than one before it, of the same target. */
  ghost predicate SomeStale(delivered: seq<Completion>, n: nat, count: nat)
    requires n + count <= |delivered|
  {
    exists k :: n <= k < n + count && Stale(delivered, k)
  }

  lemma StaleFrom(delivered: seq<Completion>, n: nat, count: nat)
    requires 0 < count && n + count <= |delivered|
    ensures SomeStale(delivered, n, count) <==> Stale(delivered, n) || SomeStale(delivered, n + 1, count - 1)
  {
    hide Stale;
  }

  lemma {:induction false} FlagsAccept(flags: seq<FlagRegister>, reserved: seq<nat>, delivered: seq<Completion>, n: nat, todo: seq<Completion>)
    requires DeliveredOk(reserved, delivered) && NextUp(delivered, n, todo) && Rising(delivered, n)
    requires FlagsHold(flags, delivered[..n]) && forall t | t in reserved :: t < |flags|
    ensures
      var r := CommitAll(flags, todo);
      if SomeStale(delivered, n, |todo|) then r == Err(ErrorCode.Protocol)
      else r.Ok? && FlagsHold(r.value, delivered[..n + |todo|]) && |r.value| == |flags| && Rising(delivered, n + |todo|)
    decreases |todo|
  {
    hide DeliveredOk, FlagsHold, CommitFlags, Stale, Rising;
    if todo != [] {
      NextUpShifts(delivered, n, todo);
      FlagsDecide(flags, reserved, delivered, n);
      StaleFrom(delivered, n, |todo|);
      hide NextUp, SomeStale;
      if !Stale(delivered, n) {
        FlagsAccept(CommitFlags(flags, todo[0]).value, reserved, delivered, n + 1, todo[1..]);
      }
    }
  }

  /** Publishing within the capacity appends the values; only the tick range can refuse it. */
  lemma {:induction false} PublishAllFits<T>(link: Link, entries: seq<Envelope<T>>, now: nat, values: seq<T>)
    requires link.Valid() && Timely(entries, now) && |entries| + |values| <= link.capacity
    ensures
      var r := PublishAll(link, entries, now, values);
      && (r.Err? ==> r.error == TimeOverflow)
      && (r.Ok? ==> Values(r.value) == Values(entries) + values && Timely(r.value, now))
    decreases |values|
  {
    if values == [] {
      assert Values(entries) + values == Values(entries);
    } else {
      AfterErrors(link, now);
      var first := link.Publish(entries, now, values[0]);
      if first.Ok? {
        Published(link, entries, now, values[0]);
        assert |first.value| == |entries| + 1;
        hide Values;
        PublishAllFits(link, first.value, now, values[1..]);
        assert Values(entries) + [values[0]] + values[1..] == Values(entries) + values;
      }
    }
  }

  lemma TcuTakes(cfg: FeedbackConfig, r: Run, now: nat)
    requires CountsOk(cfg, r) && MailOk(cfg, r)
    ensures
      var cs := Readables(r.fastResults, now);
      && |cs| == TakeCount(r.fastResults, now) && |r.credits| + |cs| <= cfg.resultCapacity
      && Timely(r.fastResults[|cs|..], r.now) && Timely(r.credits, r.now)
      && (if cfg.fastFeedback then NextUp(r.delivered, r.taken, cs) && r.taken + |cs| <= |r.delivered|
                                   && Values(r.fastResults[|cs|..]) == r.delivered[r.taken + |cs|..]
          else cs == [] && r.fastResults[|cs|..] == [])
  {
    ValuesSplit(r.fastResults, TakeCount(r.fastResults, now));
    assert |Values(r.fastResults)| == |r.fastResults| && |Values(r.credits)| == |r.credits|;
    hide Values, TakeCount;
  }

  lemma CreditsFollow(delivered: seq<Completion>, a: nat, t: nat, cs: seq<Completion>)
    requires a <= t && NextUp(delivered, t, cs)
    ensures ReferencesOf(delivered[a..t]) + ReferencesOf(cs) == ReferencesOf(delivered[a..t + |cs|])
  {
  }

  lemma NothingCommitted(flags: seq<FlagRegister>)
    ensures CommitAll(flags, []) == Ok(flags)
  {
  }

  /** The results that the TCU's edge takes include one that is not newer than one taken before, of the same target. */
  ghost predicate TcuStale(cfg: FeedbackConfig, r: Run, now: nat) {
    && cfg.fastFeedback && r.taken + TakeCount(r.fastResults, now) <= |r.delivered|
    && SomeStale(r.delivered, r.taken, TakeCount(r.fastResults, now))
  }

  lemma TcuStaleness(cfg: FeedbackConfig, r: Run, now: nat)
    requires cfg.fastFeedback && r.taken + TakeCount(r.fastResults, now) <= |r.delivered|
    ensures TcuStale(cfg, r, now) <==> SomeStale(r.delivered, r.taken, TakeCount(r.fastResults, now))
  {
    hide SomeStale;
  }

  lemma TcuNotStale(cfg: FeedbackConfig, r: Run, now: nat)
    requires !cfg.fastFeedback
    ensures !TcuStale(cfg, r, now)
  {
  }

  /** The results of an edge on the flags, and their credits. */
  lemma TcuEdgeResults(cfg: FeedbackConfig, ch: Channels, r: Run, now: nat)
    requires ch.Valid(cfg) && CountsOk(cfg, r) && MailOk(cfg, r) && DeliveredOk(r.reserved, r.delivered) && r.now <= now
    requires cfg.fastFeedback ==> FlagsHold(r.flags, r.delivered[..r.taken]) && Rising(r.delivered, r.taken)
    ensures
      var cs := Readables(r.fastResults, now);
      var flags := CommitAll(r.flags, cs);
      var credits := PublishAll(ch.credits, r.credits, now, ReferencesOf(cs));
      && (if TcuStale(cfg, r, now) then flags == Err(ErrorCode.Protocol)
          else
            && flags.Ok? && |flags.value| == |r.flags|
            && (cfg.fastFeedback ==> && NextUp(r.delivered, r.taken, cs) && FlagsHold(flags.value, r.delivered[..r.taken + |cs|])
                                     && Rising(r.delivered, r.taken + |cs|)))
      && (if credits.Ok? then Timely(credits.value, now) && Values(credits.value) == Values(r.credits) + ReferencesOf(cs)
          else credits.error == TimeOverflow)
  {
    hide DeliveredOk, MailOk, FlagsHold, Readables, PublishAll, CommitAll, Values, ReferencesOf, Timely, TakeCount,
      NextUp, Rising, SomeStale, TcuStale;
    var cs := Readables(r.fastResults, now);
    TcuTakes(cfg, r, now);
    EarlierIsTimely(r.credits, r.now, now);
    if cfg.fastFeedback {
      TcuStaleness(cfg, r, now);
      FlagsAccept(r.flags, r.reserved, r.delivered, r.taken, cs);
    } else {
      TcuNotStale(cfg, r, now);
      NothingCommitted(r.flags);
    }
    PublishAllFits(ch.credits, r.credits, now, ReferencesOf(cs));
  }

  lemma EarlierIsTimely<T>(entries: seq<Envelope<T>>, now: nat, later: nat)
    requires Timely(entries, now) && now <= later
    ensures Timely(entries, later)
  {
  }

  lemma TcuEdgeKeepsMail(cfg: FeedbackConfig, ch: Channels, r: Run, now: nat)
    requires ch.Valid(cfg) && CountsOk(cfg, r) && MailOk(cfg, r) && r.now <= now && DoTcu(cfg, ch, r, now).Ok?
    requires
      var cs := Readables(r.fastResults, now);
      var credits := PublishAll(ch.credits, r.credits, now, ReferencesOf(cs));
      credits.Ok? ==> Timely(credits.value, now) && Values(credits.value) == Values(r.credits) + ReferencesOf(cs)
    ensures
      var d := DoTcu(cfg, ch, r, now).value;
      && (!cfg.fastFeedback ==> d.fastResults == [] && d.taken == r.taken && d.credits == [])
      && d.acknowledged <= d.taken <= |d.delivered| && MailOk(cfg, d)
  {
    var cs := Readables(r.fastResults, now);
    TcuTakes(cfg, r, now);
    if cfg.fastFeedback {
      CreditsFollow(r.delivered, r.acknowledged, r.taken, cs);
    } else {
      assert ReferencesOf(cs) == [];
      assert Values(r.credits) == [];
    }
    assert forall es: seq<Envelope<Reference>> :: |Values(es)| == |es|;
    hide Values, TakeCount, NextUp, CommitAll, PublishAll, ReferencesOf, Readables;
  }

  /**
   * When a TCU's edge faults: exactly when it takes a result that is not newer than one taken before of the same target,
   * or when the arrival of a credit does not fit a tick. A credit always finds room.
   */
  lemma TcuEdgeFaultsExactlyWhen(cfg: FeedbackConfig, ch: Channels, r: Run, now: nat)
    requires ch.Valid(cfg) && RunOk(cfg, r) && r.now <= now
    ensures
      var r' := DoTcu(cfg, ch, r, now);
      if TcuStale(cfg, r, now) then r' == Err(ErrorCode.Protocol)
      else if r'.Ok? then RunOk(cfg, r'.value) else r'.error == TimeOverflow
  {
    hide DeliveredOk, InOrder, Holds, RegistersHold, FlagsHold, MailOk, Values, TakeCount, CommitAll, PublishAll,
      ReferencesOf, Readables, NextUp, Timely, Rising, TcuStale;
    TcuEdgeResults(cfg, ch, r, now);
    if DoTcu(cfg, ch, r, now).Ok? {
      TcuEdgeKeepsMail(cfg, ch, r, now);
    }
  }

  // ---- Whole runs ----

  /** Operations in the order of time, each delivery one that the device may make. */
  ghost predicate Legal(r: Run, now: nat, op: Op) {
    r.now <= now && (op.Result? ==> DeviceMay(r.outstanding, op.completion))
  }

  datatype Timed = Timed(now: nat, op: Op)

  function RunAll(cfg: FeedbackConfig, ch: Channels, r: Run, ops: seq<Timed>): Errors.Result<Run>
    requires ch.Valid(cfg)
    decreases |ops|
  {
    if ops == [] then Ok(r)
    else
      var next :- Step(cfg, ch, r, ops[0].now, ops[0].op);
      RunAll(cfg, ch, next, ops[1..])
  }

  ghost predicate AllLegal(cfg: FeedbackConfig, ch: Channels, r: Run, ops: seq<Timed>)
    requires ch.Valid(cfg)
    decreases |ops|
  {
    ops != [] ==>
      && Legal(r, ops[0].now, ops[0].op)
      && (var next := Step(cfg, ch, r, ops[0].now, ops[0].op);
          next.Ok? ==> AllLegal(cfg, ch, next.value, ops[1..]))
  }

  /** The order faults of the two edges; no other operation has one. */
  ghost predicate OrderFault(cfg: FeedbackConfig, r: Run, now: nat, op: Op)
    requires r.received + TakeCount(r.results, now) <= |r.delivered|
  {
    (op.CpuEdge? && CpuMisordered(r, now)) || (op.TcuEdge? && TcuStale(cfg, r, now))
  }

  lemma ReceivedFits(cfg: FeedbackConfig, r: Run, now: nat)
    requires RunOk(cfg, r)
    ensures r.received + TakeCount(r.results, now) <= |r.delivered|
  {
    hide *;
    RunParts(cfg, r);
    CpuTakes(cfg, r, now);
  }

  lemma StepKeepsRun(cfg: FeedbackConfig, ch: Channels, r: Run, now: nat, op: Op)
    requires ch.Valid(cfg) && RunOk(cfg, r) && Legal(r, now, op)
    ensures r.received + TakeCount(r.results, now) <= |r.delivered|
    ensures
      var r' := Step(cfg, ch, r, now, op);
      if OrderFault(cfg, r, now, op) then r' == Err(ErrorCode.Protocol)
      else if r'.Ok? then RunOk(cfg, r'.value) else op.Reserve? || r'.error == TimeOverflow
  {
    hide RunOk, DoReserve, DoResult, DoCpu, DoTcu, DeviceMay, CpuMisordered, TcuStale, TakeCount;
    ReceivedFits(cfg, r, now);
    match op
    case Reserve(targets) =>
      if DoReserve(cfg, r, targets).Ok? {
        ReserveKeepsRun(cfg, r, targets);
      }
    case Result(c) =>
      ResultHasRoom(cfg, ch, r, now, c);
      if DoResult(cfg, ch, r, now, c).Ok? {
        ResultKeepsRun(cfg, ch, r, now, c);
      }
    case CpuEdge =>
      CpuEdgeFaultsExactlyWhen(cfg, r, now);
      if DoCpu(r, now).Ok? {
        CpuEdgeKeepsRun(cfg, r, now);
      }
    case TcuEdge => TcuEdgeFaultsExactlyWhen(cfg, ch, r, now);
  }

  lemma {:induction false} RunsKeepInvariant(cfg: FeedbackConfig, ch: Channels, r: Run, ops: seq<Timed>)
    requires ch.Valid(cfg) && RunOk(cfg, r) && AllLegal(cfg, ch, r, ops) && RunAll(cfg, ch, r, ops).Ok?
    ensures RunOk(cfg, RunAll(cfg, ch, r, ops).value)
    decreases |ops|
  {
    if ops != [] {
      hide RunOk, Step, Legal, OrderFault, TakeCount;
      StepKeepsRun(cfg, ch, r, ops[0].now, ops[0].op);
      RunsKeepInvariant(cfg, ch, Step(cfg, ch, r, ops[0].now, ops[0].op).value, ops[1..]);
    }
  }

  /**
   * In every run, whatever the order in which the device delivers, the undelivered measurements bound the result,
   * fast-result and credit mailboxes by the result capacity, so no mailbox is ever full when something is published.
   * An edge ends the run with a protocol fault exactly when it takes a result out of its target's order; apart from
   * that and from reservations, only the tick range ends a run.
   */
  lemma UndeliveredBoundMailboxes(cfg: FeedbackConfig, ch: Channels, origin: nat, ops: seq<Timed>, now: nat, op: Op)
    requires ch.Valid(cfg) && AllLegal(cfg, ch, Begin(cfg, origin), ops) && RunAll(cfg, ch, Begin(cfg, origin), ops).Ok?
    requires Legal(RunAll(cfg, ch, Begin(cfg, origin), ops).value, now, op)
    ensures
      var r := RunAll(cfg, ch, Begin(cfg, origin), ops).value;
      && |r.results| <= |r.regs.pending| <= cfg.resultCapacity
      && (cfg.fastFeedback ==> |r.fastResults| + |r.credits| <= |r.regs.fastPending| <= cfg.resultCapacity)
      && r.received + TakeCount(r.results, now) <= |r.delivered|
      && (OrderFault(cfg, r, now, op) ==> Step(cfg, ch, r, now, op) == Err(ErrorCode.Protocol))
      && (!OrderFault(cfg, r, now, op) && Step(cfg, ch, r, now, op).Err? ==> op.Reserve? || Step(cfg, ch, r, now, op).error == TimeOverflow)
  {
    hide RunAll, AllLegal, Begin, Legal, Step, OrderFault, TakeCount;
    BeginIsOk(cfg, origin);
    RunsKeepInvariant(cfg, ch, Begin(cfg, origin), ops);
    var r := RunAll(cfg, ch, Begin(cfg, origin), ops).value;
    StepKeepsRun(cfg, ch, r, now, op);
    MailBounds(cfg, r);
  }

  lemma MailBounds(cfg: FeedbackConfig, r: Run)
    requires RunOk(cfg, r)
    ensures |r.results| <= |r.regs.pending| <= cfg.resultCapacity
    ensures cfg.fastFeedback ==> |r.fastResults| + |r.credits| <= |r.regs.fastPending| <= cfg.resultCapacity
  {
    hide DeliveredOk, InOrder, Rising, RegistersHold, FlagsHold;
    HoldsSize(r.regs.pending, r.reserved, r.delivered[..r.received]);
    if cfg.fastFeedback {
      HoldsSize(r.regs.fastPending, r.reserved, r.delivered[..r.acknowledged]);
    }
    assert |r.results| == |Values(r.results)| && |r.fastResults| == |Values(r.fastResults)| && |r.credits| == |Values(r.credits)|;
    hide Holds, Values;
  }

  // ---- What a register reads ----

  /** Every reservation of the target has been received by the registers. */
  ghost predicate AllReceived(r: Run, target: nat)
    requires r.received <= |r.delivered|
  {
    forall i | 0 <= i < |r.reserved| && r.reserved[i] == target :: i + 1 in IdsOf(r.delivered[..r.received])
  }

  /** The last reservation of the target, counting from one, or zero. */
  function LastReservation(reserved: seq<nat>, target: nat): nat {
    if reserved == [] then 0
    else if reserved[|reserved| - 1] == target then |reserved|
    else LastReservation(reserved[..|reserved| - 1], target)
  }

  lemma {:induction false} LastReservationIsLast(reserved: seq<nat>, target: nat)
    ensures
      var l := LastReservation(reserved, target);
      && l <= |reserved| && (l != 0 ==> reserved[l - 1] == target)
      && forall i | 0 <= i < |reserved| && reserved[i] == target :: i < l
    decreases |reserved|
  {
    if reserved != [] && reserved[|reserved| - 1] != target {
      LastReservationIsLast(reserved[..|reserved| - 1], target);
    }
  }

  /** What is received in order rises. */
  lemma OrderRises(reserved: seq<nat>, delivered: seq<Completion>, n: nat)
    requires DeliveredOk(reserved, delivered) && n <= |delivered| && InOrder(reserved, delivered, n)
    ensures Rising(delivered, n)
  {
    forall k | 0 <= k < n
      ensures !Stale(delivered, k)
    {
      forall j | 0 <= j < k && delivered[j].reference.target == delivered[k].reference.target
        ensures delivered[j].reference.measurement < delivered[k].reference.measurement
      {
        NotOvertaken(reserved, delivered, j, k);
      }
    }
  }

  lemma NotOvertaken(reserved: seq<nat>, delivered: seq<Completion>, j: nat, k: nat)
    requires DeliveredOk(reserved, delivered) && j < k < |delivered| && !OlderMissing(reserved, delivered, j)
    requires delivered[j].reference.target == delivered[k].reference.target
    ensures delivered[j].reference.measurement < delivered[k].reference.measurement
  {
    hide IdsOf;
    var o := delivered[k].reference.measurement;
    assert Reserved(reserved, delivered[k].reference) && Reserved(reserved, delivered[j].reference);
    DeliveriesDiffer(reserved, delivered, j, k);
    NotBefore(reserved, delivered, j, k);
  }

  lemma NotBefore(reserved: seq<nat>, delivered: seq<Completion>, j: nat, k: nat)
    requires DeliveredOk(reserved, delivered) && j <= k < |delivered|
    ensures delivered[k].reference.measurement !in IdsOf(delivered[..j])
  {
    if delivered[k].reference.measurement in IdsOf(delivered[..j]) {
      var a := IdPosition(delivered[..j], delivered[k].reference.measurement);
      DeliveriesDiffer(reserved, delivered, a, k);
    }
  }

  lemma {:induction false} LastIsNewest(reserved: seq<nat>, delivered: seq<Completion>, n: nat, target: nat)
    requires DeliveredOk(reserved, delivered) && n <= |delivered|
    ensures
      var id := LastId(delivered[..n], target);
      && (id == 0 ==> !LastValue(delivered[..n], target))
      && (id != 0 ==> Completion(Reference(id, target), LastValue(delivered[..n], target)) in delivered[..n])
    decreases n
  {
    if 0 < n {
      LastDelivered(delivered, n - 1, target);
      LastIsNewest(reserved, delivered, n - 1, target);
      assert Reserved(reserved, delivered[n - 1].reference);
      assert delivered[..n] == delivered[..n - 1] + [delivered[n - 1]];
    }
  }

  lemma NoPendingMeansReceived(cfg: FeedbackConfig, r: Run, target: nat)
    requires RunOk(cfg, r) && target < cfg.qubits
    ensures Read(r.regs, target) == Ok(None) || Read(r.regs, target) == Ok(Some(LastValue(r.delivered[..r.received], target)))
    ensures Read(r.regs, target) == Ok(None) <==> !AllReceived(r, target)
  {
    hide DeliveredOk, InOrder, Rising, FlagsHold, MailOk, LastValue;
    var m := r.regs.pending;
    assert r.regs.registers[target].pending == |PendingOf(m, target)|;
    if PendingOf(m, target) != {} {
      var id :| id in PendingOf(m, target);
      assert r.reserved[id - 1] == target && id !in IdsOf(r.delivered[..r.received]);
    } else {
      forall i | 0 <= i < |r.reserved| && r.reserved[i] == target
        ensures i + 1 in IdsOf(r.delivered[..r.received])
      {
        assert i + 1 in m ==> i + 1 in PendingOf(m, target);
      }
    }
  }

  /**
   * In every run a register reads a value exactly when all its reservations are delivered, and the value
   * is the outcome of the latest reservation (false before the first).
   */
  lemma ReadIsLatestOutcome(cfg: FeedbackConfig, ch: Channels, origin: nat, ops: seq<Timed>, target: nat)
    requires ch.Valid(cfg) && AllLegal(cfg, ch, Begin(cfg, origin), ops) && RunAll(cfg, ch, Begin(cfg, origin), ops).Ok?
    requires target < cfg.qubits
    ensures
      var r := RunAll(cfg, ch, Begin(cfg, origin), ops).value;
      var latest := LastReservation(r.reserved, target);
      && r.received <= |r.delivered|
      && (Read(r.regs, target) == Ok(None) <==> !AllReceived(r, target))
      && (AllReceived(r, target) ==>
            exists v :: && Read(r.regs, target) == Ok(Some(v))
                        && if latest == 0 then !v else Completion(Reference(latest, target), v) in r.delivered[..r.received])
  {
    BeginIsOk(cfg, origin);
    RunsKeepInvariant(cfg, ch, Begin(cfg, origin), ops);
    hide RunAll, AllLegal, Begin;
    var r := RunAll(cfg, ch, Begin(cfg, origin), ops).value;
    NoPendingMeansReceived(cfg, r, target);
    if AllReceived(r, target) {
      LatestIsReceived(cfg, r, target);
    }
    hide RunOk, LastValue;
  }

  lemma LatestIsReceived(cfg: FeedbackConfig, r: Run, target: nat)
    requires RunOk(cfg, r) && target < cfg.qubits && AllReceived(r, target)
    ensures
      var latest := LastReservation(r.reserved, target);
      var v := LastValue(r.delivered[..r.received], target);
      if latest == 0 then !v else Completion(Reference(latest, target), v) in r.delivered[..r.received]
  {
    hide FlagsHold, MailOk, LastValue, LastId, Holds, RegistersHold, InOrder, Rising;
    LastReservationIsLast(r.reserved, target);
    LastIsNewest(r.reserved, r.delivered, r.received, target);
    OrderRises(r.reserved, r.delivered, r.received);
    LastIsGreatest(r.delivered, r.received, target);
    var latest, done := LastReservation(r.reserved, target), r.delivered[..r.received];
    var id := LastId(done, target);
    if id != 0 {
      DoneIsReserved(r.reserved, r.delivered, r.received, Reference(id, target));
    }
    if latest != 0 {
      assert (latest - 1) + 1 in IdsOf(done);
      var k := IdPosition(done, latest);
      assert Reserved(r.reserved, r.delivered[k].reference);
    }
  }

  lemma DoneIsReserved(reserved: seq<nat>, delivered: seq<Completion>, n: nat, ref: Reference)
    requires DeliveredOk(reserved, delivered) && n <= |delivered|
    requires exists c :: c in delivered[..n] && c.reference == ref
    ensures Reserved(reserved, ref)
  {
    var c :| c in delivered[..n] && c.reference == ref;
    var k :| 0 <= k < n && delivered[k] == c;
  }

  // ---- Results out of order ----

  const ONE_QUBIT := FeedbackConfig(1, 2, true)
  const EVERY_TICK := Link(2, Clock(1, 0), 1)
  const EVERY_CHANNEL := Channels(EVERY_TICK, EVERY_TICK, EVERY_TICK)

  /** Two measurements of one qubit are reserved, and the device delivers the younger one first. */
  function YoungerFirst(value: bool): seq<Timed> {
    [Timed(0, Reserve([0, 0])), Timed(0, Result(Completion(Reference(2, 0), value)))]
  }

  lemma TwoReserved()
    ensures
      var r := Step(ONE_QUBIT, EVERY_CHANNEL, Begin(ONE_QUBIT, 0), 0, Reserve([0, 0]));
      && r.Ok? && r.value.reserved == [0, 0] && r.value.delivered == [] && r.value.received == r.value.taken == 0 == r.value.now
      && r.value.results == [] == r.value.fastResults && r.value.outstanding == map[1 := Reference(1, 0), 2 := Reference(2, 0)]
  {
  }

  lemma FirstPublished(c: Completion)
    ensures EVERY_TICK.Publish([], 0, c) == Ok([Envelope(0, 1, c)])
  {
    assert EVERY_TICK.receiver.After(0, 1) == Ok(1);
    assert [] + [Envelope(0, 1, c)] == [Envelope(0, 1, c)];
  }

  lemma YoungerComes(r: Run, value: bool)
    requires r.delivered == [] && r.results == [] == r.fastResults && r.now == 0
    requires r.outstanding == map[1 := Reference(1, 0), 2 := Reference(2, 0)]
    ensures
      var c := Completion(Reference(2, 0), value);
      var r' := Step(ONE_QUBIT, EVERY_CHANNEL, r, 0, Result(c));
      && Legal(r, 0, Result(c)) && r'.Ok?
      && r'.value == r.(delivered := [c], results := [Envelope(0, 1, c)], fastResults := [Envelope(0, 1, c)], outstanding := map[1 := Reference(1, 0)])
  {
    var c := Completion(Reference(2, 0), value);
    FirstPublished(c);
    hide Link.Publish;
    assert r.delivered + [c] == [c];
    assert r.outstanding - {2} == map[1 := Reference(1, 0)];
  }

  lemma TwoSteps(cfg: FeedbackConfig, ch: Channels, r: Run, first: Timed, second: Timed)
    requires ch.Valid(cfg) && Legal(r, first.now, first.op) && Step(cfg, ch, r, first.now, first.op).Ok?
    requires Legal(Step(cfg, ch, r, first.now, first.op).value, second.now, second.op)
    ensures AllLegal(cfg, ch, r, [first, second])
    ensures RunAll(cfg, ch, r, [first, second]) == Step(cfg, ch, Step(cfg, ch, r, first.now, first.op).value, second.now, second.op)
  {
    hide Legal, Step;
    var ops := [first, second];
    assert ops[1..] == [second] && [second][1..] == [];
    var next := Step(cfg, ch, r, first.now, first.op).value;
    assert AllLegal(cfg, ch, next, [second]);
    assert RunAll(cfg, ch, next, [second]) == Step(cfg, ch, next, second.now, second.op);
  }

  lemma YoungerIsDelivered(value: bool)
    ensures ONE_QUBIT.qubits == 1 && EVERY_CHANNEL.Valid(ONE_QUBIT) && AllLegal(ONE_QUBIT, EVERY_CHANNEL, Begin(ONE_QUBIT, 0), YoungerFirst(value))
    ensures
      var r := RunAll(ONE_QUBIT, EVERY_CHANNEL, Begin(ONE_QUBIT, 0), YoungerFirst(value));
      && r.Ok? && r.value.reserved == [0, 0] && r.value.delivered == [Completion(Reference(2, 0), value)]
      && r.value.received == r.value.taken == 0 && r.value.now == 0
      && r.value.results == r.value.fastResults == [Envelope(0, 1, Completion(Reference(2, 0), value))]
      && r.value.outstanding == map[1 := Reference(1, 0)]
  {
    hide Step, RunAll, AllLegal;
    TwoReserved();
    var r := Begin(ONE_QUBIT, 0);
    assert Legal(r, 0, Reserve([0, 0]));
    hide Begin, Legal;
    YoungerComes(Step(ONE_QUBIT, EVERY_CHANNEL, r, 0, Reserve([0, 0])).value, value);
    TwoSteps(ONE_QUBIT, EVERY_CHANNEL, r, YoungerFirst(value)[0], YoungerFirst(value)[1]);
  }

  const OLDER := Completion(Reference(1, 0), false)

  /** The processor's next edge then faults, and so does the TCU's once the older result has followed. */
  lemma YoungerResultFaults(value: bool)
    ensures
      var r := RunAll(ONE_QUBIT, EVERY_CHANNEL, Begin(ONE_QUBIT, 0), YoungerFirst(value)).value;
      && Step(ONE_QUBIT, EVERY_CHANNEL, r, 1, CpuEdge) == Err(ErrorCode.Protocol)
      && Legal(r, 0, Result(OLDER))
      && var both := Step(ONE_QUBIT, EVERY_CHANNEL, r, 0, Result(OLDER));
         both.Ok? && Step(ONE_QUBIT, EVERY_CHANNEL, both.value, 1, TcuEdge) == Err(ErrorCode.Protocol)
  {
    hide RunAll, RunOk, AllLegal, Step, Begin, Legal;
    YoungerIsDelivered(value);
    BeginIsOk(ONE_QUBIT, 0);
    RunsKeepInvariant(ONE_QUBIT, EVERY_CHANNEL, Begin(ONE_QUBIT, 0), YoungerFirst(value));
    var r := RunAll(ONE_QUBIT, EVERY_CHANNEL, Begin(ONE_QUBIT, 0), YoungerFirst(value)).value;
    CpuRefusesYounger(r, value);
    OlderFollows(r, value);
    DeliveryKeepsRun(ONE_QUBIT, EVERY_CHANNEL, r, 0, OLDER);
    TcuRefusesOlder(Step(ONE_QUBIT, EVERY_CHANNEL, r, 0, Result(OLDER)).value, value);
  }

  lemma CpuRefusesYounger(r: Run, value: bool)
    requires RunOk(ONE_QUBIT, r) && r.reserved == [0, 0] && r.delivered == [Completion(Reference(2, 0), value)] && r.received == 0 == r.now
    requires r.results == [Envelope(0, 1, Completion(Reference(2, 0), value))]
    ensures Step(ONE_QUBIT, EVERY_CHANNEL, r, 1, CpuEdge) == Err(ErrorCode.Protocol)
  {
    assert 1 !in IdsOf(r.delivered[..0]) && r.reserved[1 - 1] == 0;
    assert OlderMissing(r.reserved, r.delivered, 0);
    assert CpuMisordered(r, 1);
    hide RunOk, DoCpu, CpuMisordered;
    CpuEdgeFaultsExactlyWhen(ONE_QUBIT, r, 1);
  }

  lemma OlderFollows(r: Run, value: bool)
    requires r.delivered == [Completion(Reference(2, 0), value)] && r.taken == 0 == r.now
    requires r.results == r.fastResults == [Envelope(0, 1, Completion(Reference(2, 0), value))] && r.outstanding == map[1 := Reference(1, 0)]
    ensures Legal(r, 0, Result(OLDER))
    ensures
      var both := Step(ONE_QUBIT, EVERY_CHANNEL, r, 0, Result(OLDER));
      && both.Ok? && both.value.delivered == [Completion(Reference(2, 0), value), OLDER]
      && both.value.taken == 0 == both.value.now && |both.value.fastResults| == 2
      && both.value.fastResults[0].eligible == both.value.fastResults[1].eligible == 1
  {
    assert EVERY_TICK.Publish(r.results, 0, OLDER) == Ok(r.results + [Envelope(0, 1, OLDER)]);
  }

  lemma DeliveryKeepsRun(cfg: FeedbackConfig, ch: Channels, r: Run, now: nat, c: Completion)
    requires ch.Valid(cfg) && RunOk(cfg, r) && Legal(r, now, Result(c)) && Step(cfg, ch, r, now, Result(c)).Ok?
    ensures RunOk(cfg, Step(cfg, ch, r, now, Result(c)).value)
  {
    hide RunOk, DoResult;
    ResultKeepsRun(cfg, ch, r, now, c);
  }

  lemma TcuRefusesOlder(r: Run, value: bool)
    requires RunOk(ONE_QUBIT, r) && r.delivered == [Completion(Reference(2, 0), value), OLDER] && r.taken == 0 == r.now
    requires |r.fastResults| == 2 && r.fastResults[0].eligible == r.fastResults[1].eligible == 1
    ensures Step(ONE_QUBIT, EVERY_CHANNEL, r, 1, TcuEdge) == Err(ErrorCode.Protocol)
  {
    assert r.fastResults[1..][1..] == [];
    assert TakeCount(r.fastResults, 1) == 2;
    assert r.delivered[1].reference.measurement <= r.delivered[0].reference.measurement;
    assert Stale(r.delivered, 1);
    assert TcuStale(ONE_QUBIT, r, 1);
    hide RunOk, DoTcu, TcuStale;
    TcuEdgeFaultsExactlyWhen(ONE_QUBIT, EVERY_CHANNEL, r, 1);
  }
}
