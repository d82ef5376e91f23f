/** The boundaries and the active actions of the control electronics, as functions of what was accepted. */
module Boundaries {
  import opened Errors
  import opened Time
  import opened Protocol
  import opened Resources
  import opened Backend
  import opened Electronics

  /** Something with an identifier that happens at a tick. */
  datatype Mark = Mark(id: nat, tick: nat)

  // ---- Due marks and logs ----

  function At(due: seq<Mark>, t: nat): seq<Mark> {
    if due == [] then [] else (if due[0].tick == t then [due[0]] else []) + At(due[1..], t)
  }

  ghost predicate DistinctMarks(marks: seq<Mark>) {
    forall i, j | 0 <= i < j < |marks| :: marks[i].id != marks[j].id
  }

  /** The log holds exactly the due marks before `past`, each once. */
  ghost predicate LogOk(due: seq<Mark>, log: seq<Mark>, past: nat) {
    && (forall m | m in log :: m in due && m.tick < past)
    && (forall m | m in due && m.tick < past :: m in log)
    && DistinctMarks(log)
  }

  lemma {:induction false} AtMembers(due: seq<Mark>, t: nat)
    ensures forall m :: m in At(due, t) <==> m in due && m.tick == t
    decreases |due|
  {
    if due != [] {
      AtMembers(due[1..], t);
      assert due == [due[0]] + due[1..];
    }
  }

  lemma {:induction false} AtDistinct(due: seq<Mark>, t: nat)
    requires DistinctMarks(due)
    ensures DistinctMarks(At(due, t))
    decreases |due|
  {
    if due != [] {
      var tail := due[1..];
      assert forall i | 0 <= i < |tail| :: tail[i] == due[i + 1];
      AtDistinct(tail, t);
      AtMembers(tail, t);
      forall j | 0 <= j < |At(tail, t)|
        ensures At(tail, t)[j].id != due[0].id
      {
        assert At(tail, t)[j] in At(tail, t);
        var i :| 0 <= i < |tail| && tail[i] == At(tail, t)[j];
      }
    }
  }

  lemma SameMark(due: seq<Mark>, a: Mark, b: Mark)
    requires DistinctMarks(due) && a in due && b in due && a.id == b.id
    ensures a == b
  {
    var i :| 0 <= i < |due| && due[i] == a;
    var j :| 0 <= j < |due| && due[j] == b;
    assert i < j || j < i || i == j;
  }

  /** Nothing is due between the past and now, so logging what is due now brings the log up to date. */
  lemma LogAdvances(due: seq<Mark>, log: seq<Mark>, past: nat, now: nat)
    requires DistinctMarks(due) && LogOk(due, log, past) && past <= now
    requires forall m | m in due :: !(past <= m.tick < now)
    ensures LogOk(due, log + At(due, now), now + 1)
  {
    AtMembers(due, now);
    AtDistinct(due, now);
    var more := log + At(due, now);
    forall i, j | 0 <= i < j < |more|
      ensures more[i].id != more[j].id
    {
      if i < |log| <= j {
        assert more[i] in log && more[j] in At(due, now);
        if more[i].id == more[j].id {
          SameMark(due, more[i], more[j]);
        }
      } else if |log| <= i {
        assert more[i] == At(due, now)[i - |log|] && more[j] == At(due, now)[j - |log|];
      }
    }
  }

  lemma LogExtends(due: seq<Mark>, log: seq<Mark>, past: nat, more: seq<Mark>)
    requires LogOk(due, log, past) && forall m | m in more :: past <= m.tick
    ensures LogOk(due + more, log, past)
  {
  }

  // ---- What is due, from what was accepted ----

  function StartMarks(accepted: seq<Scheduled>): (marks: seq<Mark>)
    ensures |marks| == |accepted|
  {
    seq(|accepted|, i requires 0 <= i < |accepted| => Mark(accepted[i].event.id, accepted[i].start))
  }

  function EndMarks(accepted: seq<Scheduled>): (marks: seq<Mark>)
    ensures |marks| == |accepted|
  {
    seq(|accepted|, i requires 0 <= i < |accepted| => Mark(accepted[i].event.id, accepted[i].end))
  }

  /** The samples due: every acquisition's, at its end. */
  function SampleMarks(readouts: seq<Readout>): (marks: seq<Mark>)
    ensures |marks| == |readouts|
  {
    seq(|readouts|, i requires 0 <= i < |readouts| => Mark(readouts[i].reference.measurement, readouts[i].end))
  }

  function ReadyMarks(readouts: seq<Readout>): (marks: seq<Mark>)
    ensures |marks| == |readouts|
  {
    seq(|readouts|, i requires 0 <= i < |readouts| => Mark(readouts[i].reference.measurement, readouts[i].ready))
  }

  function StartsAt(accepted: seq<Scheduled>, t: nat): seq<Scheduled> {
    if accepted == [] then [] else (if accepted[0].start == t then [accepted[0]] else []) + StartsAt(accepted[1..], t)
  }

  function EndsAt(accepted: seq<Scheduled>, t: nat): seq<nat> {
    if accepted == [] then [] else (if accepted[0].end == t then [accepted[0].event.id] else []) + EndsAt(accepted[1..], t)
  }

  function ReadyAt(readouts: seq<Readout>, t: nat): seq<nat> {
    if readouts == [] then [] else (if readouts[0].ready == t then [readouts[0].reference.measurement] else []) + ReadyAt(readouts[1..], t)
  }

  function DueAt(accepted: seq<Scheduled>, readouts: seq<Readout>, t: nat): Boundary {
    Boundary(StartsAt(accepted, t), EndsAt(accepted, t), ReadyAt(readouts, t))
  }

  function IdMarks(ids: seq<nat>, t: nat): (marks: seq<Mark>)
    ensures |marks| == |ids|
  {
    seq(|ids|, i requires 0 <= i < |ids| => Mark(ids[i], t))
  }

  lemma {:induction false} StartsAreMarks(accepted: seq<Scheduled>, t: nat)
    ensures StartMarks(StartsAt(accepted, t)) == At(StartMarks(accepted), t)
    ensures IdMarks(EndsAt(accepted, t), t) == At(EndMarks(accepted), t)
    decreases |accepted|
  {
    if accepted != [] {
      StartsAreMarks(accepted[1..], t);
      assert StartMarks(accepted)[1..] == StartMarks(accepted[1..]);
      assert EndMarks(accepted)[1..] == EndMarks(accepted[1..]);
      var rest, ends := StartsAt(accepted[1..], t), EndsAt(accepted[1..], t);
      assert StartMarks([accepted[0]] + rest) == [Mark(accepted[0].event.id, accepted[0].start)] + StartMarks(rest);
      assert IdMarks([accepted[0].event.id] + ends, t) == [Mark(accepted[0].event.id, t)] + IdMarks(ends, t);
      assert [] + rest == rest && [] + ends == ends;
    }
  }

  lemma {:induction false} ReadyAreMarks(readouts: seq<Readout>, t: nat)
    ensures IdMarks(ReadyAt(readouts, t), t) == At(ReadyMarks(readouts), t)
    decreases |readouts|
  {
    if readouts != [] {
      ReadyAreMarks(readouts[1..], t);
      assert ReadyMarks(readouts)[1..] == ReadyMarks(readouts[1..]);
      var rest := ReadyAt(readouts[1..], t);
      assert IdMarks([readouts[0].reference.measurement] + rest, t) == [Mark(readouts[0].reference.measurement, t)] + IdMarks(rest, t);
      assert [] + rest == rest;
    }
  }

  lemma {:induction false} StartsMembers(accepted: seq<Scheduled>, t: nat)
    ensures forall a :: a in StartsAt(accepted, t) <==> a in accepted && a.start == t
    ensures forall a | a in accepted && a.end == t :: a.event.id in EndsAt(accepted, t)
    ensures forall id | id in EndsAt(accepted, t) :: exists i :: 0 <= i < |accepted| && accepted[i].event.id == id && accepted[i].end == t
    decreases |accepted|
  {
    if accepted != [] {
      var tail := accepted[1..];
      StartsMembers(tail, t);
      assert accepted == [accepted[0]] + tail;
      forall id | id in EndsAt(accepted, t)
        ensures exists i :: 0 <= i < |accepted| && accepted[i].event.id == id && accepted[i].end == t
      {
        if id in EndsAt(tail, t) {
          var i :| 0 <= i < |tail| && tail[i].event.id == id && tail[i].end == t;
          assert accepted[i + 1] == tail[i];
        } else {
          assert accepted[0].event.id == id && accepted[0].end == t;
        }
      }
    }
  }

  lemma {:induction false} StartsAppend(xs: seq<Scheduled>, ys: seq<Scheduled>, t: nat)
    ensures StartsAt(xs + ys, t) == StartsAt(xs, t) + StartsAt(ys, t) && EndsAt(xs + ys, t) == EndsAt(xs, t) + EndsAt(ys, t)
    decreases |xs|
  {
    if xs == [] {
      assert xs + ys == ys;
    } else {
      assert (xs + ys)[0] == xs[0] && (xs + ys)[1..] == xs[1..] + ys;
      StartsAppend(xs[1..], ys, t);
      assert StartsAt(xs + ys, t) == (if xs[0].start == t then [xs[0]] else []) + StartsAt(xs[1..] + ys, t);
      assert EndsAt(xs + ys, t) == (if xs[0].end == t then [xs[0].event.id] else []) + EndsAt(xs[1..] + ys, t);
    }
  }

  lemma {:induction false} ReadyAppends(xs: seq<Readout>, ys: seq<Readout>, t: nat)
    ensures ReadyAt(xs + ys, t) == ReadyAt(xs, t) + ReadyAt(ys, t)
    decreases |xs|
  {
    if xs == [] {
      assert xs + ys == ys;
    } else {
      assert (xs + ys)[0] == xs[0] && (xs + ys)[1..] == xs[1..] + ys;
      ReadyAppends(xs[1..], ys, t);
      assert ReadyAt(xs + ys, t) == (if xs[0].ready == t then [xs[0].reference.measurement] else []) + ReadyAt(xs[1..] + ys, t);
    }
  }

  // ---- Boundaries ----

  /** The future boundaries hold exactly what is due, in the order of acceptance; none is in the past. */
  ghost predicate BoundariesOk(boundaries: map<nat, Boundary>, accepted: seq<Scheduled>, readouts: seq<Readout>, past: nat) {
    && (forall t | t in boundaries :: past <= t)
    && (forall t | past <= t :: BoundaryAt(boundaries, t) == DueAt(accepted, readouts, t))
  }

  lemma {:induction false} AddedReady(boundaries: map<nat, Boundary>, readouts: seq<Readout>, t: nat)
    ensures BoundaryAt(AddReady(boundaries, readouts), t)
         == BoundaryAt(boundaries, t).(ready := BoundaryAt(boundaries, t).ready + ReadyAt(readouts, t))
    ensures t in AddReady(boundaries, readouts) ==> t in boundaries || exists i :: 0 <= i < |readouts| && readouts[i].ready == t
    decreases |readouts|
  {
    var b := BoundaryAt(boundaries, t);
    if readouts == [] {
      assert b.ready + [] == b.ready;
    } else {
      var r, rest := readouts[0], readouts[1..];
      var more := WithReady(boundaries, r);
      WithReadyAt(boundaries, r, t);
      AddedReady(more, rest, t);
      var here := if r.ready == t then [r.reference.measurement] else [];
      assert AddReady(boundaries, readouts) == AddReady(more, rest) && ReadyAt(readouts, t) == here + ReadyAt(rest, t);
      hide BoundaryAt, WithReady, AddReady, ReadyAt;
      AssocBoundary(b.ready, here, ReadyAt(rest, t));
      if t in AddReady(boundaries, readouts) && t !in boundaries {
        if t in more {
          assert readouts[0].ready == t;
        } else {
          var i :| 0 <= i < |rest| && rest[i].ready == t;
          assert readouts[i + 1].ready == t;
        }
      }
    }
  }

  function WithReady(boundaries: map<nat, Boundary>, r: Readout): map<nat, Boundary> {
    var c := BoundaryAt(boundaries, r.ready);
    boundaries[r.ready := c.(ready := c.ready + [r.reference.measurement])]
  }

  lemma WithReadyAt(boundaries: map<nat, Boundary>, r: Readout, t: nat)
    ensures
      BoundaryAt(WithReady(boundaries, r), t)
      == BoundaryAt(boundaries, t).(ready := BoundaryAt(boundaries, t).ready + if r.ready == t then [r.reference.measurement] else [])
    ensures t in WithReady(boundaries, r) <==> t in boundaries || t == r.ready
  {
    assert BoundaryAt(boundaries, t).ready + [] == BoundaryAt(boundaries, t).ready;
  }

  lemma AddedAction(boundaries: map<nat, Boundary>, a: Scheduled, t: nat)
    requires a.start < a.end
    ensures
      var b := BoundaryAt(boundaries, t);
      BoundaryAt(AddAction(boundaries, a), t)
      == b.(starts := b.starts + (if a.start == t then [a] else []), ends := b.ends + (if a.end == t then [a.event.id] else []))
    ensures t in AddAction(boundaries, a) ==> t in boundaries || t == a.start || t == a.end
  {
    var b := BoundaryAt(boundaries, t);
    assert b.starts + [] == b.starts && b.ends + [] == b.ends;
  }

  lemma {:induction false} AddedActions(boundaries: map<nat, Boundary>, actions: seq<Scheduled>, t: nat)
    requires WellTimed(actions)
    ensures
      var b := BoundaryAt(boundaries, t);
      BoundaryAt(AddActions(boundaries, actions), t)
      == b.(starts := b.starts + StartsAt(actions, t), ends := b.ends + EndsAt(actions, t))
    ensures t in AddActions(boundaries, actions)
            ==> t in boundaries || exists i :: 0 <= i < |actions| && (actions[i].start == t || actions[i].end == t)
    decreases |actions|
  {
    var b := BoundaryAt(boundaries, t);
    if actions == [] {
      assert b.starts + [] == b.starts && b.ends + [] == b.ends;
    } else {
      var a, rest := actions[0], actions[1..];
      assert forall i | 0 <= i < |rest| :: rest[i] == actions[i + 1];
      assert a.start < a.end;
      AddedAction(boundaries, a, t);
      AddedActions(AddAction(boundaries, a), rest, t);
      hide AddAction, BoundaryAt;
      AssocBoundary(b.starts, if a.start == t then [a] else [], StartsAt(rest, t));
      AssocBoundary(b.ends, if a.end == t then [a.event.id] else [], EndsAt(rest, t));
      if t in AddActions(boundaries, actions) && t !in AddAction(boundaries, a) {
        var i :| 0 <= i < |rest| && (rest[i].start == t || rest[i].end == t);
        assert actions[i + 1] == rest[i];
      } else if t in AddAction(boundaries, a) && t !in boundaries {
        assert actions[0].start == t || actions[0].end == t;
      }
    }
  }

  lemma AssocBoundary<T>(a: seq<T>, b: seq<T>, c: seq<T>)
    ensures a + b + c == a + (b + c)
  {
  }

  /** Accepting later actions and readouts keeps the boundaries. */
  lemma AcceptKeepsBoundaries(boundaries: map<nat, Boundary>, accepted: seq<Scheduled>, readouts: seq<Readout>, past: nat,
                              actions: seq<Scheduled>, more: seq<Readout>)
    requires BoundariesOk(boundaries, accepted, readouts, past) && WellTimed(actions)
    requires (forall i | 0 <= i < |actions| :: past <= actions[i].start) && (forall i | 0 <= i < |more| :: past <= more[i].ready)
    ensures BoundariesOk(AddActions(AddReady(boundaries, more), actions), accepted + actions, readouts + more, past)
  {
    var ready := AddReady(boundaries, more);
    var all := AddActions(ready, actions);
    hide AddReady, AddActions, StartsAt, EndsAt, ReadyAt;
    forall t | past <= t
      ensures BoundaryAt(all, t) == DueAt(accepted + actions, readouts + more, t)
    {
      AddedReady(boundaries, more, t);
      AddedActions(ready, actions, t);
      StartsAppend(accepted, actions, t);
      ReadyAppends(readouts, more, t);
    }
    forall t | t in all
      ensures past <= t
    {
      AddedActions(ready, actions, t);
      AddedReady(boundaries, more, t);
    }
  }

  // ---- Active actions ----

  ghost predicate DistinctActive(active: seq<Scheduled>) {
    forall i, j | 0 <= i < j < |active| :: active[i].event.id != active[j].event.id
  }

  /** The active actions are the accepted ones that have started and not ended. */
  ghost predicate ActiveOk(active: seq<Scheduled>, accepted: seq<Scheduled>, past: nat) {
    && (forall a :: a in active <==> a in accepted && a.start < past <= a.end)
    && DistinctActive(active)
  }

  lemma {:induction false} FindMember(active: seq<Scheduled>, a: Scheduled)
    requires DistinctActive(active) && a in active
    ensures Find(active, a.event.id) == Some(a)
    decreases |active|
  {
    if active[0] != a {
      var i :| 0 <= i < |active| && active[i] == a;
      assert active[1..][i - 1] == a;
      assert forall k | 0 <= k < |active| - 1 :: active[1..][k] == active[k + 1];
      FindMember(active[1..], a);
    }
  }

  lemma {:induction false} FindNone(active: seq<Scheduled>, id: nat)
    requires forall a | a in active :: a.event.id != id
    ensures Find(active, id) == None
    decreases |active|
  {
    if active != [] {
      assert active[0] in active;
      assert forall a | a in active[1..] :: a in active;
      FindNone(active[1..], id);
    }
  }

  lemma {:induction false} RemoveMembers(active: seq<Scheduled>, id: nat)
    requires DistinctActive(active)
    ensures DistinctActive(Remove(active, id))
    ensures forall a :: a in Remove(active, id) <==> a in active && a.event.id != id
    decreases |active|
  {
    if active != [] {
      var tail := active[1..];
      assert forall k | 0 <= k < |tail| :: tail[k] == active[k + 1];
      RemoveMembers(tail, id);
      assert active == [active[0]] + tail;
      var rest := Remove(tail, id);
      forall j | 0 <= j < |rest|
        ensures rest[j].event.id != active[0].event.id
      {
        assert rest[j] in rest;
        var k :| 0 <= k < |tail| && tail[k] == rest[j];
      }
    }
  }

  lemma {:induction false} RemoveAllMembers(active: seq<Scheduled>, ids: seq<nat>)
    requires DistinctActive(active)
    ensures DistinctActive(RemoveAll(active, ids))
    ensures forall a :: a in RemoveAll(active, ids) <==> a in active && a.event.id !in ids
    decreases |ids|
  {
    if ids != [] {
      RemoveMembers(active, ids[0]);
      RemoveAllMembers(Remove(active, ids[0]), ids[1..]);
      assert ids == [ids[0]] + ids[1..];
    }
  }

  lemma {:induction false} InsertMembers(active: seq<Scheduled>, a: Scheduled)
    requires DistinctActive(active) && forall b | b in active :: b.event.id != a.event.id
    ensures DistinctActive(Insert(active, a))
    ensures forall b :: b in Insert(active, a) <==> b in active || b == a
    decreases |active|
  {
    if active == [] || a.event.id < active[0].event.id {
      assert forall k | 0 <= k < |active| :: active[k] in active;
    } else {
      var tail := active[1..];
      assert forall k | 0 <= k < |tail| :: tail[k] == active[k + 1];
      InsertMembers(tail, a);
      assert active == [active[0]] + tail && active[0] in active;
      var rest := Insert(tail, a);
      forall j | 0 <= j < |rest|
        ensures rest[j].event.id != active[0].event.id
      {
        assert rest[j] in rest;
        if rest[j] != a {
          var k :| 0 <= k < |tail| && tail[k] == rest[j];
        }
      }
    }
  }

  /** Actions with fresh identifiers start. */
  lemma {:induction false} StartAllMembers(active: seq<Scheduled>, starts: seq<Scheduled>)
    requires DistinctActive(active) && DistinctActive(starts)
    requires forall a, b | a in active && b in starts :: a.event.id != b.event.id
    ensures
      var r := StartAll(active, starts);
      r.Ok? && DistinctActive(r.value) && forall a :: a in r.value <==> a in active || a in starts
    decreases |starts|
  {
    if starts != [] {
      var a, rest := starts[0], starts[1..];
      assert forall k | 0 <= k < |rest| :: rest[k] == starts[k + 1];
      assert starts == [a] + rest && a in starts;
      FindNone(active, a.event.id);
      InsertMembers(active, a);
      hide Insert, Find;
      StartAllMembers(Insert(active, a), rest);
    }
  }

  ghost predicate DistinctIds(accepted: seq<Scheduled>) {
    forall i, j | 0 <= i < j < |accepted| :: accepted[i].event.id != accepted[j].event.id
  }

  lemma SameId(accepted: seq<Scheduled>, a: Scheduled, b: Scheduled)
    requires DistinctIds(accepted) && a in accepted && b in accepted && a.event.id == b.event.id
    ensures a == b
  {
    var i :| 0 <= i < |accepted| && accepted[i] == a;
    var j :| 0 <= j < |accepted| && accepted[j] == b;
    assert i < j || j < i || i == j;
  }

  lemma {:induction false} StartsDistinct(accepted: seq<Scheduled>, t: nat)
    requires DistinctIds(accepted)
    ensures DistinctActive(StartsAt(accepted, t))
    decreases |accepted|
  {
    if accepted != [] {
      var tail := accepted[1..];
      assert forall k | 0 <= k < |tail| :: tail[k] == accepted[k + 1];
      StartsDistinct(tail, t);
      StartsMembers(tail, t);
      var rest := StartsAt(tail, t);
      forall j | 0 <= j < |rest|
        ensures rest[j].event.id != accepted[0].event.id
      {
        assert rest[j] in rest;
        var k :| 0 <= k < |tail| && tail[k] == rest[j];
      }
    }
  }

  /** No accepted start, end or result lies between the past and now. */
  ghost predicate NothingBetween(accepted: seq<Scheduled>, past: nat, now: nat) {
    forall a | a in accepted :: !(past <= a.start < now) && !(past <= a.end < now)
  }

  /** At a boundary the ended actions leave and the starting ones join. */
  lemma BoundaryKeepsActive(active: seq<Scheduled>, accepted: seq<Scheduled>, past: nat, now: nat)
    requires ActiveOk(active, accepted, past) && DistinctIds(accepted) && WellTimed(accepted) && past <= now
    requires NothingBetween(accepted, past, now)
    ensures
      var r := StartAll(RemoveAll(active, EndsAt(accepted, now)), StartsAt(accepted, now));
      r.Ok? && ActiveOk(r.value, accepted, now + 1)
  {
    var ends, starts := EndsAt(accepted, now), StartsAt(accepted, now);
    StartsMembers(accepted, now);
    StartsDistinct(accepted, now);
    RemoveAllMembers(active, ends);
    var left := RemoveAll(active, ends);
    hide RemoveAll, EndsAt, StartsAt;
    EndedAreListed(accepted, active, ends, past, now);
    FreshStarts(accepted, left, starts, past, now);
    StartAllMembers(left, starts);
    var next := StartAll(left, starts).value;
    hide StartAll;
    forall a
      ensures a in next <==> a in accepted && a.start < now + 1 <= a.end
    {
      if a in accepted {
        var i :| 0 <= i < |accepted| && accepted[i] == a;
        assert accepted[i].start < accepted[i].end;
      }
    }
  }

  /** An active action's identifier is listed exactly when it ends now. */
  lemma EndedAreListed(accepted: seq<Scheduled>, active: seq<Scheduled>, ends: seq<nat>, past: nat, now: nat)
    requires ActiveOk(active, accepted, past) && DistinctIds(accepted) && (forall a | a in accepted && a.end == now :: a.event.id in ends)
    requires forall id | id in ends :: exists i :: 0 <= i < |accepted| && accepted[i].event.id == id && accepted[i].end == now
    ensures forall a | a in active :: a.event.id in ends <==> a.end == now
  {
    forall a | a in active && a.event.id in ends
      ensures a.end == now
    {
      var i :| 0 <= i < |accepted| && accepted[i].event.id == a.event.id && accepted[i].end == now;
      SameId(accepted, accepted[i], a);
    }
  }

  lemma FreshStarts(accepted: seq<Scheduled>, left: seq<Scheduled>, starts: seq<Scheduled>, past: nat, now: nat)
    requires DistinctIds(accepted) && past <= now && (forall a | a in left :: a in accepted && a.start < past)
    requires forall a | a in starts :: a in accepted && a.start == now
    ensures forall a, b | a in left && b in starts :: a.event.id != b.event.id
  {
    forall a, b | a in left && b in starts
      ensures a.event.id != b.event.id
    {
      if a.event.id == b.event.id {
        SameId(accepted, a, b);
      }
    }
  }
}
