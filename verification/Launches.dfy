/** What an accepted launch adds: its actions, and one readout for every acquisition. */
module Launches {
  import opened Errors
  import opened Time
  import opened Protocol
  import opened Resources
  import opened Electronics
  import opened Boundaries

  // ---- Accepted actions ----

  /** What resolving guarantees of every accepted action. */
  ghost predicate ActionOk(p: Profile, a: Scheduled) {
    var e := a.event.action;
    && a.start < a.end
    && Electronics.Validate(p, e).Ok?
    && a.resolved == Resolved(p, e)
    && (forall q | q in e.targets :: q < p.backend.qubits)
    && (e.kind == GateOutput ==> e.gate < |p.gates| && a.end == a.start + p.gates[e.gate].duration && a.end <= MAX_TICK
                                 && GateInput(a.core, a.event.sourcePort, a.event.codeword) in p.gates[e.gate].inputs)
  }

  /** An acquisition carries its reference, on its only target. */
  predicate Referenced(a: Scheduled) {
    a.event.action.kind == Acquire ==> a.event.reference.Some? && a.event.action.targets == [a.event.reference.value.target]
  }

  ghost predicate AllOk(p: Profile, actions: seq<Scheduled>) {
    forall i | 0 <= i < |actions| :: ActionOk(p, actions[i]) && Referenced(actions[i])
  }

  /** Launched events come from a validated profile: positive durations, targets of the register. */
  predicate EventOk(p: Profile, e: Event) {
    0 < e.action.duration && forall q | q in e.action.targets :: q < p.backend.qubits
  }

  lemma ResolvedIsOk(p: Profile, l: Launch, e: Event, core: nat)
    requires EventOk(p, e) && ResolveEvent(p, l, e, core).Ok?
    ensures
      var a := ResolveEvent(p, l, e, core).value;
      ActionOk(p, a) && a.event == e && l.fireTick <= a.start
  {
  }

  lemma {:induction false} ResolvedAreOk(p: Profile, l: Launch, i: nat)
    requires i <= |l.events| && (forall k | 0 <= k < |l.events| :: EventOk(p, l.events[k].0)) && Resolve(p, l, i).Ok?
    ensures
      var r := Resolve(p, l, i).value;
      && |r| == |l.events| - i
      && forall k | 0 <= k < |r| :: ActionOk(p, r[k]) && r[k].event == l.events[i + k].0 && l.fireTick <= r[k].start
    decreases |l.events| - i
  {
    if i < |l.events| {
      ResolvedIsOk(p, l, l.events[i].0, l.events[i].1);
      ResolvedAreOk(p, l, i + 1);
      hide ResolveEvent, ActionOk, EventOk;
      var r := Resolve(p, l, i).value;
      forall k | 0 <= k < |r|
        ensures ActionOk(p, r[k]) && r[k].event == l.events[i + k].0 && l.fireTick <= r[k].start
      {
        if 0 < k {
          assert r[k] == Resolve(p, l, i + 1).value[k - 1];
        }
      }
    }
  }

  // ---- Readouts ----

  function Acquired(actions: seq<Scheduled>): seq<Scheduled> {
    if actions == [] then []
    else (if actions[0].event.action.kind == Acquire then [actions[0]] else []) + Acquired(actions[1..])
  }

  /** A readout not yet sampled, for this acquisition. */
  predicate ReadoutOf(r: Readout, a: Scheduled) {
    && a.event.action.kind == Acquire && a.event.reference == Some(r.reference)
    && r.end == a.end <= r.ready && r.sample.None? && r.core == a.core
  }

  /** The readouts are those of the acquisitions, in order. */
  ghost predicate Matched(readouts: seq<Readout>, acquired: seq<Scheduled>) {
    |readouts| == |acquired| && forall i | 0 <= i < |readouts| :: ReadoutOf(readouts[i], acquired[i])
  }

  lemma {:induction false} AcquiredAppends(xs: seq<Scheduled>, ys: seq<Scheduled>)
    ensures Acquired(xs + ys) == Acquired(xs) + Acquired(ys)
    decreases |xs|
  {
    if xs == [] {
      assert xs + ys == ys;
    } else {
      assert (xs + ys)[0] == xs[0] && (xs + ys)[1..] == xs[1..] + ys;
      AcquiredAppends(xs[1..], ys);
    }
  }

  lemma {:induction false} AcquiredMembers(actions: seq<Scheduled>)
    ensures forall a :: a in Acquired(actions) <==> a in actions && a.event.action.kind == Acquire
    decreases |actions|
  {
    if actions != [] {
      AcquiredMembers(actions[1..]);
      assert actions == [actions[0]] + actions[1..];
    }
  }

  lemma MadeReadout(actions: seq<Scheduled>, a: Scheduled, pending: map<nat, Readout>)
    requires a.event.action.kind == Acquire && a.event.reference.Some? && MakeReadout(actions, a, pending).Ok?
    ensures
      var r := MakeReadout(actions, a, pending).value;
      ReadoutOf(r, a) && r.reference.measurement !in pending && CountOf(actions, Acquire, r.reference.measurement) == 1
  {
  }

  lemma {:induction false} MadeReadouts(actions: seq<Scheduled>, i: nat, pending: map<nat, Readout>)
    requires i <= |actions| && MakeReadouts(actions, i, pending).Ok?
    ensures
      var r := MakeReadouts(actions, i, pending).value;
      && Matched(r, Acquired(actions[i..]))
      && forall k | 0 <= k < |r| :: r[k].reference.measurement !in pending && CountOf(actions, Acquire, r[k].reference.measurement) == 1
    decreases |actions| - i
  {
    if i < |actions| {
      hide MakeReadout, CountOf, ReadoutOf;
      assert actions[i..][0] == actions[i] && actions[i..][1..] == actions[i + 1..];
      MadeReadouts(actions, i + 1, pending);
      var rest := MakeReadouts(actions, i + 1, pending).value;
      if actions[i].event.action.kind == Acquire {
        MadeReadout(actions, actions[i], pending);
        var first := MakeReadout(actions, actions[i], pending).value;
        MatchedCons(first, rest, actions[i], Acquired(actions[i + 1..]));
      } else {
        assert [] + Acquired(actions[i + 1..]) == Acquired(actions[i + 1..]);
      }
    }
  }

  lemma MatchedCons(r: Readout, readouts: seq<Readout>, a: Scheduled, acquired: seq<Scheduled>)
    requires ReadoutOf(r, a) && Matched(readouts, acquired)
    ensures Matched([r] + readouts, [a] + acquired)
  {
  }

  lemma MatchedAppends(xs: seq<Readout>, ys: seq<Readout>, zs: seq<Scheduled>, ws: seq<Scheduled>)
    requires Matched(xs, zs) && Matched(ys, ws)
    ensures Matched(xs + ys, zs + ws)
  {
    hide ReadoutOf;
  }

  // ---- One acquisition for each measurement ----

  lemma {:induction false} CountsMember(actions: seq<Scheduled>, kind: ActionKind, id: nat, k: nat)
    requires k < |actions| && Reads(actions[k], kind, id)
    ensures 1 <= CountOf(actions, kind, id)
    decreases |actions|
  {
    if 0 < k {
      assert actions[1..][k - 1] == actions[k];
      CountsMember(actions[1..], kind, id, k - 1);
    }
  }

  lemma {:induction false} CountOfAcquired(actions: seq<Scheduled>, id: nat)
    ensures CountOf(actions, Acquire, id) == CountOf(Acquired(actions), Acquire, id)
    decreases |actions|
  {
    if actions != [] {
      CountOfAcquired(actions[1..], id);
      var rest := Acquired(actions[1..]);
      assert ([actions[0]] + rest)[1..] == rest;
      assert [] + rest == rest;
    }
  }

  lemma {:induction false} CountsTwo(actions: seq<Scheduled>, id: nat, j: nat, k: nat)
    requires j < k < |actions| && Reads(actions[j], Acquire, id) && Reads(actions[k], Acquire, id)
    ensures 2 <= CountOf(actions, Acquire, id)
    decreases |actions|
  {
    if j == 0 {
      assert actions[1..][k - 1] == actions[k];
      CountsMember(actions[1..], Acquire, id, k - 1);
    } else {
      assert actions[1..][j - 1] == actions[j] && actions[1..][k - 1] == actions[k];
      CountsTwo(actions[1..], id, j - 1, k - 1);
    }
  }

  ghost predicate DistinctReadouts(readouts: seq<Readout>) {
    forall i, j | 0 <= i < j < |readouts| :: readouts[i].reference.measurement != readouts[j].reference.measurement
  }

  /** The readouts of one launch are of different measurements. */
  lemma LaunchReadoutsDistinct(actions: seq<Scheduled>, readouts: seq<Readout>)
    requires Matched(readouts, Acquired(actions))
    requires forall k | 0 <= k < |readouts| :: CountOf(actions, Acquire, readouts[k].reference.measurement) == 1
    ensures DistinctReadouts(readouts)
  {
    forall i, j | 0 <= i < j < |readouts|
      ensures readouts[i].reference.measurement != readouts[j].reference.measurement
    {
      var id := readouts[i].reference.measurement;
      if readouts[j].reference.measurement == id {
        assert ReadoutOf(readouts[i], Acquired(actions)[i]) && ReadoutOf(readouts[j], Acquired(actions)[j]);
        CountOfAcquired(actions, id);
        CountsTwo(Acquired(actions), id, i, j);
      }
    }
  }

  /** So inserting prepared readouts never finds a duplicate; it adds each. */
  lemma {:induction false} AddedReadouts(pending: map<nat, Readout>, readouts: seq<Readout>)
    requires DistinctReadouts(readouts) && forall k | 0 <= k < |readouts| :: readouts[k].reference.measurement !in pending
    ensures
      var r := AddReadouts(pending, readouts);
      && r.Ok?
      && (forall id | id in pending :: id in r.value && r.value[id] == pending[id])
      && (forall k | 0 <= k < |readouts| :: readouts[k].reference.measurement in r.value && r.value[readouts[k].reference.measurement] == readouts[k])
      && (forall id | id in r.value :: id in pending || exists k :: 0 <= k < |readouts| && readouts[k].reference.measurement == id)
    decreases |readouts|
  {
    if readouts != [] {
      var first, rest := readouts[0], readouts[1..];
      var id := first.reference.measurement;
      var more: map<nat, Readout> := pending[id := first];
      assert forall k | 0 <= k < |rest| :: rest[k] == readouts[k + 1];
      AddedReadouts(more, rest);
      var r := AddReadouts(pending, readouts);
      assert r == AddReadouts(more, rest);
      assert r.value[id] == first;
      forall k | 0 <= k < |readouts|
        ensures readouts[k].reference.measurement in r.value && r.value[readouts[k].reference.measurement] == readouts[k]
      {
        if 0 < k {
          assert rest[k - 1] == readouts[k];
        }
      }
      forall other | other in r.value
        ensures other in pending || exists k :: 0 <= k < |readouts| && readouts[k].reference.measurement == other
      {
        if other !in more {
          var k :| 0 <= k < |rest| && rest[k].reference.measurement == other;
          assert readouts[k + 1].reference.measurement == other;
        } else if other == id {
          assert readouts[0].reference.measurement == other;
        }
      }
    }
  }

  lemma {:induction false} CheckedReferences(actions: seq<Scheduled>, i: nat)
    requires i <= |actions| && CheckReadouts(actions, i).Ok?
    ensures forall k | i <= k < |actions| :: Referenced(actions[k])
    decreases |actions| - i
  {
    if i < |actions| {
      CheckedReferences(actions, i + 1);
    }
  }

  // ---- Accepting ----

  lemma PreparedParts(p: Profile, s: State, l: Launch)
    requires Prepare(p, s, l).Ok?
    ensures
      var r := Prepare(p, s, l).value;
      && Resolve(p, l, 0) == Ok(r.actions) && Check(s.table, r.actions).Ok?
      && CheckReadouts(r.actions, 0).Ok? && MakeReadouts(r.actions, 0, s.readouts) == Ok(r.readouts)
      && (s.processed.Some? ==> s.processed.value < l.fireTick)
  {
    hide Resolve, Check, CheckReadouts, MakeReadouts, Orphaned;
  }

  /** What a prepared launch holds. */
  lemma PreparedFacts(p: Profile, s: State, l: Launch)
    requires Prepare(p, s, l).Ok? && forall k | 0 <= k < |l.events| :: EventOk(p, l.events[k].0)
    ensures
      var r := Prepare(p, s, l).value;
      && Check(s.table, r.actions).Ok? && AllOk(p, r.actions) && Matched(r.readouts, Acquired(r.actions)) && DistinctReadouts(r.readouts)
      && |r.actions| == |l.events|
      && (forall k | 0 <= k < |r.actions| :: r.actions[k].event == l.events[k].0 && l.fireTick <= r.actions[k].start)
      && (forall k | 0 <= k < |r.readouts| :: r.readouts[k].reference.measurement !in s.readouts)
      && (s.processed.Some? ==> s.processed.value < l.fireTick)
  {
    PreparedParts(p, s, l);
    var r := Prepare(p, s, l).value;
    ResolvedAreOk(p, l, 0);
    CheckedReferences(r.actions, 0);
    MadeReadouts(r.actions, 0, s.readouts);
    assert r.actions[0..] == r.actions;
    LaunchReadoutsDistinct(r.actions, r.readouts);
    hide ActionOk, Matched, DistinctReadouts, Check, Resolve, MakeReadouts, CheckReadouts;
  }

  /** What prepare approves is accepted: the duplicate-readout guard of insert cannot fire. */
  lemma PreparedIsAccepted(p: Profile, s: State, l: Launch)
    requires forall k | 0 <= k < |l.events| :: EventOk(p, l.events[k].0)
    ensures Accept(p, s, l).Ok? <==> Prepare(p, s, l).Ok?
    ensures Accept(p, s, l).Err? ==> Accept(p, s, l).error == Prepare(p, s, l).error
  {
    if Prepare(p, s, l).Ok? {
      PreparedFacts(p, s, l);
      AddedReadouts(s.readouts, Prepare(p, s, l).value.readouts);
    }
    hide Prepare, AddReadouts, AllOk, Matched, Check, DistinctReadouts;
  }
}
