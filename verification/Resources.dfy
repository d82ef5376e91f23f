/** Conflict checks for output intervals, and why dropping expired reservations is sound. */
module Resources {
  import opened Errors
  import opened Protocol

  /** An event with the interval it occupies, and its action with gate outputs resolved. */
  datatype Scheduled = Scheduled(event: Event, core: nat, start: nat, end: nat, resolved: Action)

  predicate IsArm(a: Action) { a.kind == DiscriminatorArm }
  predicate IsGate(a: Action) { a.kind == IdealGate || a.kind == GateOutput }

  predicate CommonTarget(a: Action, b: Action) {
    exists q :: q in a.targets && q in b.targets
  }

  predicate Overlaps(a: Scheduled, b: Scheduled) { a.start < b.end && b.start < a.end }

  /** Two resources that must not be used at the same time. */
  predicate Clash(x: Action, y: Action) {
    exists i, j :: 0 <= i < |x.resources| && 0 <= j < |y.resources|
                   && x.resources[i].id == y.resources[j].id && (x.resources[i].exclusive || y.resources[j].exclusive)
  }

  predicate SameGate(a: Scheduled, b: Scheduled) {
    a.event.action.kind == GateOutput && b.event.action.kind == GateOutput && a.event.action.gate == b.event.action.gate
  }

  /** A measurement's sample and an ideal gate at the same tick. */
  predicate SampleMeetsGate(a: Scheduled, b: Scheduled) {
    || (a.resolved.kind == Acquire && IsGate(b.resolved) && a.end == b.start)
    || (b.resolved.kind == Acquire && IsGate(a.resolved) && b.end == a.start)
  }

  function PairOverlap(a: Scheduled, b: Scheduled): Result<()> {
    var x, y := a.resolved, b.resolved;
    if Clash(x, y) then Err(ResourceConflict)
    else if !IsArm(x) && !IsArm(y) && CommonTarget(x, y) && !(x.kind == Pulse && y.kind == Pulse) then Err(ResourceConflict)
    else Ok(())
  }

  function PairSample(a: Scheduled, b: Scheduled): Result<()> {
    Require(!(CommonTarget(a.resolved, b.resolved) && SampleMeetsGate(a, b)), ResourceConflict)
  }

  function Pair(a: Scheduled, b: Scheduled): Result<()> {
    if !Overlaps(a, b) then PairSample(a, b)
    else if a.resolved.port == b.resolved.port then Err(ResourceConflict)
    else if SameGate(a, b) then Require(a.start == b.start && a.end == b.end, GateInputMismatch)
    else
      var _ :- PairOverlap(a, b);
      PairSample(a, b)
  }

  /** Compatibility does not depend on which of the two came first. */
  lemma PairIsSymmetric(a: Scheduled, b: Scheduled)
    ensures Pair(a, b).Ok? <==> Pair(b, a).Ok?
  {
    ClashIsSymmetric(a.resolved, b.resolved);
    CommonIsSymmetric(a.resolved, b.resolved);
    hide Clash, CommonTarget;
  }

  lemma ClashIsSymmetric(x: Action, y: Action)
    ensures Clash(x, y) <==> Clash(y, x)
  {
    if Clash(x, y) {
      var i, j :| 0 <= i < |x.resources| && 0 <= j < |y.resources|
                  && x.resources[i].id == y.resources[j].id && (x.resources[i].exclusive || y.resources[j].exclusive);
      assert y.resources[j].id == x.resources[i].id;
    }
    if Clash(y, x) {
      var i, j :| 0 <= i < |y.resources| && 0 <= j < |x.resources|
                  && y.resources[i].id == x.resources[j].id && (y.resources[i].exclusive || x.resources[j].exclusive);
      assert x.resources[j].id == y.resources[i].id;
    }
  }

  lemma CommonIsSymmetric(x: Action, y: Action)
    ensures CommonTarget(x, y) <==> CommonTarget(y, x)
  {
  }

  // ---- Checking a launch ----

  /** The checks of one action against earlier ones, which must have other identifiers if they are reserved. */
  function CheckAgainst(action: Scheduled, others: seq<Scheduled>, reserved: bool): Result<()>
    decreases |others|
  {
    if others == [] then Ok(())
    else if reserved && others[0].event.id == action.event.id then Err(ErrorCode.Protocol)
    else
      var _ :- Pair(action, others[0]);
      CheckAgainst(action, others[1..], reserved)
  }

  predicate Repeated(actions: seq<Scheduled>, i: nat)
    requires i < |actions|
  {
    exists j :: 0 <= j < i && actions[j].event.id == actions[i].event.id
  }

  function CheckFrom(table: seq<Scheduled>, actions: seq<Scheduled>, i: nat): Result<()>
    requires i <= |actions|
    decreases |actions| - i
  {
    if i == |actions| then Ok(())
    else if Repeated(actions, i) then Err(ErrorCode.Protocol)
    else
      var _ :- CheckAgainst(actions[i], table, true);
      var _ :- CheckAgainst(actions[i], actions[..i], false);
      CheckFrom(table, actions, i + 1)
  }

  function Check(table: seq<Scheduled>, actions: seq<Scheduled>): Result<()> {
    CheckFrom(table, actions, 0)
  }

  /** The reservations that have not ended before now. */
  function Kept(table: seq<Scheduled>, now: nat): seq<Scheduled> {
    if table == [] then [] else (if table[0].end < now then [] else [table[0]]) + Kept(table[1..], now)
  }

  // ---- Pruning ----

  /** An action that starts after another has ended is compatible with it. */
  lemma LaterIsCompatible(a: Scheduled, b: Scheduled)
    requires b.start <= b.end < a.start <= a.end
    ensures Pair(a, b) == Ok(())
  {
    assert !SampleMeetsGate(a, b);
    UnitIsUnit(PairSample(a, b));
  }

  lemma UnitIsUnit(r: Result<()>)
    ensures r.Ok? ==> r == Ok(())
  {
    if r.Ok? {
      match r.value {
        case () =>
      }
    }
  }

  predicate WellTimed(table: seq<Scheduled>) {
    forall i | 0 <= i < |table| :: table[i].start < table[i].end
  }

  predicate FreshId(id: nat, table: seq<Scheduled>) {
    forall i | 0 <= i < |table| :: table[i].event.id != id
  }

  lemma {:induction false} PrunedCheckAgainst(action: Scheduled, table: seq<Scheduled>, now: nat)
    requires WellTimed(table) && now <= action.start <= action.end && FreshId(action.event.id, table)
    ensures CheckAgainst(action, Kept(table, now), true) == CheckAgainst(action, table, true)
    decreases |table|
  {
    if table != [] {
      hide Pair;
      assert forall i | 0 <= i < |table| - 1 :: table[1..][i] == table[i + 1];
      PrunedCheckAgainst(action, table[1..], now);
      assert table[0].start < table[0].end && table[0].event.id != action.event.id;
      if table[0].end < now {
        LaterIsCompatible(action, table[0]);
        assert Kept(table, now) == Kept(table[1..], now);
      } else {
        assert Kept(table, now) == [table[0]] + Kept(table[1..], now);
        assert ([table[0]] + Kept(table[1..], now))[1..] == Kept(table[1..], now);
      }
    }
  }

  lemma {:induction false} PrunedCheckFrom(table: seq<Scheduled>, actions: seq<Scheduled>, now: nat, i: nat)
    requires WellTimed(table) && i <= |actions|
    requires forall k | 0 <= k < |actions| :: now <= actions[k].start <= actions[k].end && FreshId(actions[k].event.id, table)
    ensures CheckFrom(Kept(table, now), actions, i) == CheckFrom(table, actions, i)
    decreases |actions| - i
  {
    if i < |actions| {
      hide CheckAgainst, Kept, WellTimed, FreshId;
      PrunedCheckAgainst(actions[i], table, now);
      PrunedCheckFrom(table, actions, now, i + 1);
    }
  }

  lemma {:induction false} KeptOfKept(table: seq<Scheduled>, before: nat, now: nat)
    requires before <= now
    ensures Kept(Kept(table, before), now) == Kept(table, now)
    decreases |table|
  {
    if table != [] {
      KeptOfKept(table[1..], before, now);
      if table[0].end < before {
        assert Kept(table, before) == Kept(table[1..], before);
      } else {
        assert Kept(table, before) == [table[0]] + Kept(table[1..], before);
        assert ([table[0]] + Kept(table[1..], before))[1..] == Kept(table[1..], before);
      }
    }
  }

  lemma {:induction false} KeptAppends(table: seq<Scheduled>, actions: seq<Scheduled>, now: nat)
    requires forall k | 0 <= k < |actions| :: now <= actions[k].end
    ensures Kept(table + actions, now) == Kept(table, now) + actions
    decreases |table|
  {
    if table == [] {
      assert table + actions == actions;
      KeepsAll(actions, now);
    } else {
      assert (table + actions)[0] == table[0] && (table + actions)[1..] == table[1..] + actions;
      KeptAppends(table[1..], actions, now);
      assert Kept(table + actions, now) == (if table[0].end < now then [] else [table[0]]) + Kept(table[1..] + actions, now);
    }
  }

  lemma {:induction false} KeepsAll(actions: seq<Scheduled>, now: nat)
    requires forall k | 0 <= k < |actions| :: now <= actions[k].end
    ensures Kept(actions, now) == actions
    decreases |actions|
  {
    if actions != [] {
      assert forall k | 0 <= k < |actions| - 1 :: actions[1..][k] == actions[k + 1];
      KeepsAll(actions[1..], now);
      assert actions == [actions[0]] + actions[1..];
    }
  }

  // ---- What an accepted launch satisfies ----

  ghost predicate Compatible(table: seq<Scheduled>) {
    forall i, j | 0 <= i < j < |table| :: Pair(table[j], table[i]).Ok? && table[j].event.id != table[i].event.id
  }

  lemma {:induction false} AgainstAll(action: Scheduled, others: seq<Scheduled>, reserved: bool)
    ensures CheckAgainst(action, others, reserved).Ok?
            <==> forall k | 0 <= k < |others| :: Pair(action, others[k]).Ok? && (reserved ==> others[k].event.id != action.event.id)
    decreases |others|
  {
    if others != [] {
      hide Pair;
      assert forall k | 0 <= k < |others| - 1 :: others[1..][k] == others[k + 1];
      AgainstAll(action, others[1..], reserved);
      if forall k | 0 <= k < |others| :: Pair(action, others[k]).Ok? && (reserved ==> others[k].event.id != action.event.id) {
        assert Pair(action, others[0]).Ok?;
      } else {
        var k :| 0 <= k < |others| && !(Pair(action, others[k]).Ok? && (reserved ==> others[k].event.id != action.event.id));
        if 0 < k {
          assert others[1..][k - 1] == others[k];
        }
      }
    }
  }

  lemma {:induction false} CheckedFrom(table: seq<Scheduled>, actions: seq<Scheduled>, i: nat)
    requires i <= |actions| && Compatible(table + actions[..i])
    ensures CheckFrom(table, actions, i).Ok? <==> Compatible(table + actions)
    decreases |actions| - i
  {
    if i == |actions| {
      assert actions[..i] == actions;
    } else {
      hide CheckAgainst, Pair;
      CheckedAction(table, actions, i);
      if Compatible(table + actions[..i + 1]) {
        CheckedFrom(table, actions, i + 1);
      } else {
        PrefixIncompatible(table, actions, i + 1);
      }
    }
  }

  lemma PrefixIncompatible(table: seq<Scheduled>, actions: seq<Scheduled>, n: nat)
    requires n <= |actions| && !Compatible(table + actions[..n])
    ensures !Compatible(table + actions)
  {
    hide Pair;
    var part, all := table + actions[..n], table + actions;
    assert forall k | 0 <= k < |part| :: all[k] == part[k];
  }

  lemma CheckedAction(table: seq<Scheduled>, actions: seq<Scheduled>, i: nat)
    requires i < |actions| && Compatible(table + actions[..i])
    ensures Compatible(table + actions[..i + 1])
            <==> !Repeated(actions, i) && CheckAgainst(actions[i], table, true).Ok? && CheckAgainst(actions[i], actions[..i], false).Ok?
  {
    hide Pair, CheckAgainst;
    AgainstAll(actions[i], table, true);
    AgainstAll(actions[i], actions[..i], false);
    LastIsCompatible(table, actions, i);
  }

  lemma LastIsCompatible(table: seq<Scheduled>, actions: seq<Scheduled>, i: nat)
    requires i < |actions| && Compatible(table + actions[..i])
    ensures Compatible(table + actions[..i + 1])
            <==> && (forall k | 0 <= k < |table| :: Pair(actions[i], table[k]).Ok? && table[k].event.id != actions[i].event.id)
                 && (forall k | 0 <= k < i :: Pair(actions[i], actions[..i][k]).Ok?) && !Repeated(actions, i)
  {
    hide Pair;
    var before, more := table + actions[..i], table + actions[..i + 1];
    assert more == before + [actions[i]];
    if Compatible(more) {
      forall k | 0 <= k < |table|
        ensures Pair(actions[i], table[k]).Ok? && table[k].event.id != actions[i].event.id
      {
        assert more[k] == table[k] && more[|before|] == actions[i];
      }
      forall k | 0 <= k < i
        ensures Pair(actions[i], actions[..i][k]).Ok? && actions[k].event.id != actions[i].event.id
      {
        assert more[|table| + k] == actions[k] && more[|before|] == actions[i];
      }
    }
    if && (forall k | 0 <= k < |table| :: Pair(actions[i], table[k]).Ok? && table[k].event.id != actions[i].event.id)
       && (forall k | 0 <= k < i :: Pair(actions[i], actions[..i][k]).Ok?) && !Repeated(actions, i)
    {
      forall j, k | 0 <= j < k < |more|
        ensures Pair(more[k], more[j]).Ok? && more[k].event.id != more[j].event.id
      {
        if k == |before| {
          if |table| <= j {
            assert more[j] == actions[..i][j - |table|];
          }
        } else {
          assert more[k] == before[k] && more[j] == before[j];
        }
      }
    }
  }

  /** A launch passes the check exactly when adding it keeps all reservations pairwise compatible. */
  lemma CheckIsCompatibility(table: seq<Scheduled>, actions: seq<Scheduled>)
    requires Compatible(table)
    ensures Check(table, actions).Ok? <==> Compatible(table + actions)
  {
    assert actions[..0] == [] && table + [] == table;
    CheckedFrom(table, actions, 0);
  }

  // ---- Runs of the table ----

  /** The table, everything ever reserved, and the tick of the last pruning. */
  datatype Ledger = Ledger(table: seq<Scheduled>, history: seq<Scheduled>, pruned: nat)

  datatype Op = Reserve(actions: seq<Scheduled>) | Discard(now: nat)

  function Apply(l: Ledger, op: Op): Result<Ledger> {
    match op
    case Reserve(actions) =>
      var _ :- Check(l.table, actions);
      Ok(Ledger(l.table + actions, l.history + actions, l.pruned))
    case Discard(now) => Ok(Ledger(Kept(l.table, now), l.history, now))
  }

  function RunAll(l: Ledger, ops: seq<Op>): Result<Ledger>
    decreases |ops|
  {
    if ops == [] then Ok(l)
    else
      var next :- Apply(l, ops[0]);
      RunAll(next, ops[1..])
  }

  /** Launches come with fresh identifiers, after the tick that was last pruned; pruning moves forward. */
  ghost predicate Legal(l: Ledger, op: Op) {
    match op
    case Reserve(actions) =>
      forall k | 0 <= k < |actions| :: l.pruned <= actions[k].start < actions[k].end && FreshId(actions[k].event.id, l.history)
    case Discard(now) => l.pruned <= now
  }

  ghost predicate AllLegal(l: Ledger, ops: seq<Op>)
    decreases |ops|
  {
    ops != [] ==> Legal(l, ops[0]) && (Apply(l, ops[0]).Ok? ==> AllLegal(Apply(l, ops[0]).value, ops[1..]))
  }

  ghost predicate LedgerOk(l: Ledger) {
    l.table == Kept(l.history, l.pruned) && WellTimed(l.history) && Compatible(l.history)
  }

  lemma OpKeepsLedger(l: Ledger, op: Op)
    requires LedgerOk(l) && Legal(l, op) && Apply(l, op).Ok?
    ensures LedgerOk(Apply(l, op).value)
  {
    hide CheckFrom, CheckAgainst, Kept, Compatible, FreshId;
    match op {
      case Reserve(actions) =>
        PrunedCheckFrom(l.history, actions, l.pruned, 0);
        CheckIsCompatibility(l.history, actions);
        KeptAppends(l.history, actions, l.pruned);
      case Discard(now) => KeptOfKept(l.history, l.pruned, now);
    }
  }

  lemma {:induction false} RunsKeepLedger(l: Ledger, ops: seq<Op>)
    requires LedgerOk(l) && AllLegal(l, ops) && RunAll(l, ops).Ok?
    ensures LedgerOk(RunAll(l, ops).value)
    decreases |ops|
  {
    if ops != [] {
      hide LedgerOk, Apply, Legal;
      OpKeepsLedger(l, ops[0]);
      RunsKeepLedger(Apply(l, ops[0]).value, ops[1..]);
    }
  }

  /**
   * In every run, dropping expired reservations is sound: for any later launch with fresh identifiers the
   * check against the pruned table gives the very verdict of the check against everything ever reserved,
   * which accepts exactly the launches that keep all reservations pairwise compatible.
   */
  lemma PruningIsSound(ops: seq<Op>, actions: seq<Scheduled>)
    requires AllLegal(Ledger([], [], 0), ops) && RunAll(Ledger([], [], 0), ops).Ok?
    requires Legal(RunAll(Ledger([], [], 0), ops).value, Reserve(actions))
    ensures
      var l := RunAll(Ledger([], [], 0), ops).value;
      && Check(l.table, actions) == Check(l.history, actions)
      && (Check(l.table, actions).Ok? <==> Compatible(l.history + actions))
      && Compatible(l.history)
  {
    hide CheckFrom, CheckAgainst, Compatible, FreshId, RunAll, AllLegal;
    assert Compatible([]) by { NothingIsCompatible(); }
    RunsKeepLedger(Ledger([], [], 0), ops);
    var l := RunAll(Ledger([], [], 0), ops).value;
    hide Kept;
    PrunedCheckFrom(l.history, actions, l.pruned, 0);
    CheckIsCompatibility(l.history, actions);
  }

  lemma NothingIsCompatible()
    ensures Compatible([])
  {
  }

  class ResourceReservations {
    var table: seq<Scheduled>

    constructor ()
      ensures table == []
    {
      table := [];
    }

    method CheckLaunch(actions: seq<Scheduled>) returns (outcome: Result<()>)
      ensures outcome == Check(table, actions)
    {
      hide Pair;
      var ids: set<nat> := {};
      for i := 0 to |actions|
        invariant ids == set k | 0 <= k < i :: actions[k].event.id
        invariant CheckFrom(table, actions, i) == Check(table, actions)
      {
        var action := actions[i];
        if action.event.id in ids {
          return Err(ErrorCode.Protocol);
        }
        ids := ids + {action.event.id};
        var reserved := CheckAll(action, table, true);
        if reserved.Err? {
          return reserved;
        }
        var launched := CheckAll(action, actions[..i], false);
        if launched.Err? {
          return launched;
        }
      }
      return Ok(());
    }

    method Reserve(actions: seq<Scheduled>) returns (outcome: Result<()>)
      modifies this
      ensures
        var checked := Check(old(table), actions);
        outcome == checked && table == if checked.Ok? then old(table) + actions else old(table)
    {
      outcome := CheckLaunch(actions);
      if outcome.Ok? {
        table := table + actions;
      }
    }

    method Clear()
      modifies this
      ensures table == []
    {
      table := [];
    }

    method DiscardBefore(now: nat)
      modifies this
      ensures table == Kept(old(table), now)
    {
      hide Kept;
      var kept: seq<Scheduled> := [];
      KeptFrom(table, now);
      for i := 0 to |table|
        modifies {}
        invariant kept + Kept(table[i..], now) == Kept(table, now)
      {
        KeptStep(kept, table, i, now);
        if now <= table[i].end {
          kept := kept + [table[i]];
        }
      }
      table := kept;
    }
  }

  lemma KeptFrom(table: seq<Scheduled>, now: nat)
    ensures [] + Kept(table[0..], now) == Kept(table, now)
    ensures forall kept: seq<Scheduled> :: kept + Kept(table[|table|..], now) == kept
  {
    assert table[0..] == table && table[|table|..] == [];
    forall kept: seq<Scheduled>
      ensures kept + Kept(table[|table|..], now) == kept
    {
      assert kept + [] == kept;
    }
  }

  lemma KeptStep(kept: seq<Scheduled>, table: seq<Scheduled>, i: nat, now: nat)
    requires i < |table|
    ensures kept + Kept(table[i..], now) == (if table[i].end < now then kept else kept + [table[i]]) + Kept(table[i + 1..], now)
  {
    assert table[i..][0] == table[i] && table[i..][1..] == table[i + 1..];
  }

  method CheckAll(action: Scheduled, others: seq<Scheduled>, reserved: bool) returns (outcome: Result<()>)
    ensures outcome == CheckAgainst(action, others, reserved)
  {
    hide Pair;
    assert others[0..] == others;
    for i := 0 to |others|
      invariant CheckAgainst(action, others[i..], reserved) == CheckAgainst(action, others, reserved)
    {
      assert others[i..][0] == others[i] && others[i..][1..] == others[i + 1..];
      if reserved && others[i].event.id == action.event.id {
        return Err(ErrorCode.Protocol);
      }
      var _ :- Pair(action, others[i]);
    }
    return Ok(());
  }
}
