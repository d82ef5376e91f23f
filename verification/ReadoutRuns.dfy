/** The pending readouts through sampling and delivery. */
module ReadoutRuns {
  import opened Errors
  import opened Protocol
  import opened Resources
  import opened Electronics
  import opened Boundaries
  import opened Launches
  import opened BoundaryWork

  // ---- References of the readouts that end at a tick ----

  function RefsEnding(readouts: seq<Readout>, t: nat): seq<Reference> {
    if readouts == [] then []
    else (if readouts[0].end == t then [readouts[0].reference] else []) + RefsEnding(readouts[1..], t)
  }

  lemma {:induction false} RefsOfAcquired(accepted: seq<Scheduled>, t: nat)
    ensures RefsAt(Acquired(accepted), t) == RefsAt(accepted, t)
    decreases |accepted|
  {
    if accepted != [] {
      RefsOfAcquired(accepted[1..], t);
      var rest := Acquired(accepted[1..]);
      assert ([accepted[0]] + rest)[1..] == rest && [] + rest == rest;
      assert [] + RefsAt(accepted[1..], t) == RefsAt(accepted[1..], t);
    }
  }

  lemma {:induction false} RefsOfReadouts(readouts: seq<Readout>, acquired: seq<Scheduled>, t: nat)
    requires Matched(readouts, acquired)
    ensures RefsEnding(readouts, t) == RefsAt(acquired, t)
    decreases |readouts|
  {
    if readouts != [] {
      assert forall i | 0 <= i < |readouts| - 1 :: readouts[1..][i] == readouts[i + 1] && acquired[1..][i] == acquired[i + 1];
      assert ReadoutOf(readouts[0], acquired[0]);
      RefsOfReadouts(readouts[1..], acquired[1..], t);
    }
  }

  /** What the acquisitions that end at t refer to is what the readouts that end at t refer to. */
  lemma RefsAgree(readouts: seq<Readout>, accepted: seq<Scheduled>, t: nat)
    requires Matched(readouts, Acquired(accepted))
    ensures RefsEnding(readouts, t) == RefsAt(accepted, t)
  {
    RefsOfReadouts(readouts, Acquired(accepted), t);
    RefsOfAcquired(accepted, t);
  }

  function IdsOf(references: seq<Reference>): (ids: seq<nat>)
    ensures |ids| == |references|
  {
    seq(|references|, i requires 0 <= i < |references| => references[i].measurement)
  }

  lemma {:induction false} RefsAreMarks(readouts: seq<Readout>, t: nat)
    ensures IdMarks(IdsOf(RefsEnding(readouts, t)), t) == At(SampleMarks(readouts), t)
    decreases |readouts|
  {
    if readouts != [] {
      RefsAreMarks(readouts[1..], t);
      assert SampleMarks(readouts)[1..] == SampleMarks(readouts[1..]);
      var rest := RefsEnding(readouts[1..], t);
      assert IdMarks(IdsOf([readouts[0].reference] + rest), t) == [Mark(readouts[0].reference.measurement, t)] + IdMarks(IdsOf(rest), t);
      assert [] + rest == rest;
    }
  }

  lemma {:induction false} EndingMembers(readouts: seq<Readout>, t: nat)
    ensures forall i | 0 <= i < |readouts| && readouts[i].end == t :: readouts[i].reference in RefsEnding(readouts, t)
    ensures forall ref | ref in RefsEnding(readouts, t) :: exists i :: 0 <= i < |readouts| && readouts[i].end == t && readouts[i].reference == ref
    decreases |readouts|
  {
    if readouts != [] {
      var rest := readouts[1..];
      EndingMembers(rest, t);
      assert forall i | 0 <= i < |rest| :: rest[i] == readouts[i + 1];
      forall i | 0 <= i < |readouts| && readouts[i].end == t
        ensures readouts[i].reference in RefsEnding(readouts, t)
      {
        if 0 < i {
          assert rest[i - 1] == readouts[i];
        }
      }
      forall ref | ref in RefsEnding(readouts, t)
        ensures exists i :: 0 <= i < |readouts| && readouts[i].end == t && readouts[i].reference == ref
      {
        if ref in RefsEnding(rest, t) {
          var i :| 0 <= i < |rest| && rest[i].end == t && rest[i].reference == ref;
          assert readouts[i + 1] == rest[i];
        } else {
          assert readouts[0].reference == ref;
        }
      }
    }
  }

  ghost predicate DistinctRefs(references: seq<Reference>) {
    forall i, j | 0 <= i < j < |references| :: references[i].measurement != references[j].measurement
  }

  lemma {:induction false} EndingDistinct(readouts: seq<Readout>, t: nat)
    requires DistinctReadouts(readouts)
    ensures DistinctRefs(RefsEnding(readouts, t))
    decreases |readouts|
  {
    if readouts != [] {
      var rest := readouts[1..];
      assert forall i | 0 <= i < |rest| :: rest[i] == readouts[i + 1];
      EndingDistinct(rest, t);
      EndingMembers(rest, t);
      var refs := RefsEnding(rest, t);
      forall j | 0 <= j < |refs|
        ensures refs[j].measurement != readouts[0].reference.measurement
      {
        assert refs[j] in refs;
        var i :| 0 <= i < |rest| && rest[i].end == t && rest[i].reference == refs[j];
      }
    }
  }

  lemma {:induction false} ReadyMembers(readouts: seq<Readout>, t: nat)
    ensures forall i | 0 <= i < |readouts| && readouts[i].ready == t :: readouts[i].reference.measurement in ReadyAt(readouts, t)
    ensures forall id | id in ReadyAt(readouts, t) :: exists i :: 0 <= i < |readouts| && readouts[i].ready == t && readouts[i].reference.measurement == id
    decreases |readouts|
  {
    if readouts != [] {
      var rest := readouts[1..];
      ReadyMembers(rest, t);
      assert forall i | 0 <= i < |rest| :: rest[i] == readouts[i + 1];
      forall i | 0 <= i < |readouts| && readouts[i].ready == t
        ensures readouts[i].reference.measurement in ReadyAt(readouts, t)
      {
        if 0 < i {
          assert rest[i - 1] == readouts[i];
        }
      }
      forall id | id in ReadyAt(readouts, t)
        ensures exists i :: 0 <= i < |readouts| && readouts[i].ready == t && readouts[i].reference.measurement == id
      {
        if id in ReadyAt(rest, t) {
          var i :| 0 <= i < |rest| && rest[i].ready == t && rest[i].reference.measurement == id;
          assert readouts[i + 1] == rest[i];
        } else {
          assert readouts[0].reference.measurement == id;
        }
      }
    }
  }

  ghost predicate DistinctNats(ids: seq<nat>) {
    forall i, j | 0 <= i < j < |ids| :: ids[i] != ids[j]
  }

  lemma {:induction false} ReadyDistinct(readouts: seq<Readout>, t: nat)
    requires DistinctReadouts(readouts)
    ensures DistinctNats(ReadyAt(readouts, t))
    decreases |readouts|
  {
    if readouts != [] {
      var rest := readouts[1..];
      assert forall i | 0 <= i < |rest| :: rest[i] == readouts[i + 1];
      ReadyDistinct(rest, t);
      ReadyMembers(rest, t);
      var ids := ReadyAt(rest, t);
      forall j | 0 <= j < |ids|
        ensures ids[j] != readouts[0].reference.measurement
      {
        assert ids[j] in ids;
        var i :| 0 <= i < |rest| && rest[i].ready == t && rest[i].reference.measurement == ids[j];
      }
    }
  }

  // ---- The pending readouts ----

  /** The value a readout shows: the outcome measured for it, once its end is past. */
  function SampleOf(h: Readout, past: nat, outcomes: map<nat, bool>): Option<bool> {
    if h.end < past && h.reference.measurement in outcomes then Some(outcomes[h.reference.measurement]) else None
  }

  predicate Held(readouts: map<nat, Readout>, h: Readout, past: nat, outcomes: map<nat, bool>) {
    var id := h.reference.measurement;
    && id in readouts && readouts[id] == h.(sample := SampleOf(h, past, outcomes))
    && (h.end < past ==> id in outcomes)
  }

  /** The pending readouts are those not yet ready; the ones past their end hold the outcome measured for them. */
  ghost predicate ReadoutsOk(readouts: map<nat, Readout>, history: seq<Readout>, past: nat, outcomes: map<nat, bool>) {
    && (forall id | id in readouts :: exists i :: 0 <= i < |history| && history[i].reference.measurement == id && past <= history[i].ready)
    && (forall i | 0 <= i < |history| && past <= history[i].ready :: Held(readouts, history[i], past, outcomes))
  }

  /** The outcomes after measuring these references. */
  function Measured(outcomes: map<nat, bool>, references: seq<Reference>, values: seq<bool>): map<nat, bool>
    requires |references| == |values|
    decreases |references|
  {
    if references == [] then outcomes else Measured(outcomes[references[0].measurement := values[0]], references[1..], values[1..])
  }

  /** Sampling writes the outcome of each reference, once. */
  lemma {:induction false} SampledAll(readouts: map<nat, Readout>, outcomes: map<nat, bool>, references: seq<Reference>, values: seq<bool>)
    requires |references| == |values| && DistinctRefs(references)
    requires forall k | 0 <= k < |references| :: references[k].measurement in readouts
    ensures
      var r, m := SampleAll(readouts, references, values), Measured(outcomes, references, values);
      && r.Ok? && r.value.Keys == readouts.Keys
      && (forall k | 0 <= k < |references| :: var id := references[k].measurement;
            id in m && r.value[id] == readouts[id].(sample := Some(m[id])))
      && (forall id | id in readouts && (forall k | 0 <= k < |references| :: references[k].measurement != id) :: r.value[id] == readouts[id])
      && (forall id | (forall k | 0 <= k < |references| :: references[k].measurement != id) :: (id in m <==> id in outcomes) && (id in m ==> m[id] == outcomes[id]))
    decreases |references|
  {
    if references != [] {
      var id, rest := references[0].measurement, references[1..];
      assert forall k | 0 <= k < |rest| :: rest[k] == references[k + 1];
      var more: map<nat, Readout> := readouts[id := readouts[id].(sample := Some(values[0]))];
      SampledAll(more, outcomes[id := values[0]], rest, values[1..]);
      SampledStep(readouts, outcomes, references, values);
    }
  }

  lemma SampledStep(readouts: map<nat, Readout>, outcomes: map<nat, bool>, references: seq<Reference>, values: seq<bool>)
    requires |references| == |values| && references != [] && references[0].measurement in readouts
    ensures
      var id := references[0].measurement;
      && SampleAll(readouts, references, values) == SampleAll(readouts[id := readouts[id].(sample := Some(values[0]))], references[1..], values[1..])
      && Measured(outcomes, references, values) == Measured(outcomes[id := values[0]], references[1..], values[1..])
  {
  }

  /** Nothing ends or becomes ready between the past and now. */
  ghost predicate NoneBetween(history: seq<Readout>, past: nat, now: nat) {
    forall i | 0 <= i < |history| :: !(past <= history[i].end < now) && !(past <= history[i].ready < now)
  }

  /** Readouts as prepared: not sampled, ready at or after the end. */
  ghost predicate Fresh(history: seq<Readout>) {
    forall i | 0 <= i < |history| :: history[i].end <= history[i].ready && history[i].sample.None?
  }

  lemma EndingAreHeld(readouts: map<nat, Readout>, history: seq<Readout>, past: nat, now: nat, outcomes: map<nat, bool>)
    requires ReadoutsOk(readouts, history, past, outcomes) && Fresh(history) && past <= now
    ensures forall k | 0 <= k < |RefsEnding(history, now)| :: RefsEnding(history, now)[k].measurement in readouts
  {
    EndingMembers(history, now);
    var refs := RefsEnding(history, now);
    hide RefsEnding;
    forall k | 0 <= k < |refs|
      ensures refs[k].measurement in readouts
    {
      assert refs[k] in refs;
      var i :| 0 <= i < |history| && history[i].end == now && history[i].reference == refs[k];
      assert Held(readouts, history[i], past, outcomes);
    }
  }

  ghost predicate Lists(refs: seq<Reference>, id: nat) {
    exists k :: 0 <= k < |refs| && refs[k].measurement == id
  }

  /** A readout of the history is sampled now exactly when it ends now. */
  lemma EndsNow(history: seq<Readout>, now: nat, i: nat)
    requires DistinctReadouts(history) && i < |history|
    ensures history[i].end == now <==> Lists(RefsEnding(history, now), history[i].reference.measurement)
  {
    hide RefsEnding, DistinctReadouts;
    EndingMembers(history, now);
    var refs, id := RefsEnding(history, now), history[i].reference.measurement;
    if history[i].end == now {
      var k :| 0 <= k < |refs| && refs[k] == history[i].reference;
      assert refs[k].measurement == id;
    } else {
      forall k | 0 <= k < |refs|
        ensures refs[k].measurement != id
      {
        assert refs[k] in refs;
        var j :| 0 <= j < |history| && history[j].end == now && history[j].reference == refs[k];
        if refs[k].measurement == id {
          SameReadout(history, i, j);
        }
      }
    }
  }

  lemma SameReadout(history: seq<Readout>, i: nat, j: nat)
    requires DistinctReadouts(history) && i < |history| && j < |history|
    requires history[i].reference.measurement == history[j].reference.measurement
    ensures i == j
  {
  }

  /** Sampling at now brings the pending readouts up to date, and keeps the outcomes already measured. */
  lemma SampleKeeps(readouts: map<nat, Readout>, history: seq<Readout>, past: nat, now: nat, outcomes: map<nat, bool>, values: seq<bool>)
    requires ReadoutsOk(readouts, history, past, outcomes) && Fresh(history) && DistinctReadouts(history)
    requires past <= now && NoneBetween(history, past, now) && |RefsEnding(history, now)| == |values|
    ensures
      var refs := RefsEnding(history, now);
      var r, m := SampleAll(readouts, refs, values), Measured(outcomes, refs, values);
      && r.Ok? && r.value.Keys == readouts.Keys
      && (forall i | 0 <= i < |history| && past <= history[i].ready :: Held(r.value, history[i], now + 1, m))
      && (forall i | 0 <= i < |history| && history[i].end < past && history[i].reference.measurement in outcomes ::
            history[i].reference.measurement in m && m[history[i].reference.measurement] == outcomes[history[i].reference.measurement])
  {
    var refs := RefsEnding(history, now);
    EndingAreHeld(readouts, history, past, now, outcomes);
    EndingDistinct(history, now);
    SampledAll(readouts, outcomes, refs, values);
    var r, m := SampleAll(readouts, refs, values).value, Measured(outcomes, refs, values);
    hide RefsEnding, SampleAll, Measured, DistinctReadouts;
    forall i | 0 <= i < |history| && past <= history[i].ready
      ensures Held(r, history[i], now + 1, m)
    {
      EndsNow(history, now, i);
      assert Held(readouts, history[i], past, outcomes);
      HeldAdvances(readouts, r, refs, history[i], past, now, outcomes, m);
    }
    forall i | 0 <= i < |history| && history[i].end < past && history[i].reference.measurement in outcomes
      ensures history[i].reference.measurement in m && m[history[i].reference.measurement] == outcomes[history[i].reference.measurement]
    {
      EndsNow(history, now, i);
    }
  }

  lemma HeldAdvances(before: map<nat, Readout>, after: map<nat, Readout>, refs: seq<Reference>, h: Readout, past: nat, now: nat,
                     outcomes: map<nat, bool>, m: map<nat, bool>)
    requires Held(before, h, past, outcomes) && h.sample.None? && !(past <= h.end < now) && past <= now
    requires after.Keys == before.Keys
    requires h.end == now <==> Lists(refs, h.reference.measurement)
    requires forall k | 0 <= k < |refs| :: refs[k].measurement in before
    requires forall k | 0 <= k < |refs| :: var id := refs[k].measurement; id in m && after[id] == before[id].(sample := Some(m[id]))
    requires forall id | id in before && (forall k | 0 <= k < |refs| :: refs[k].measurement != id) :: after[id] == before[id]
    requires forall id | (forall k | 0 <= k < |refs| :: refs[k].measurement != id) :: (id in m <==> id in outcomes) && (id in m ==> m[id] == outcomes[id])
    ensures Held(after, h, now + 1, m)
  {
    var id := h.reference.measurement;
    assert id in after;
    if h.end == now {
      var k :| 0 <= k < |refs| && refs[k].measurement == id;
      assert after[id] == before[id].(sample := Some(m[id]));
    } else {
      assert forall k | 0 <= k < |refs| :: refs[k].measurement != id;
      assert after[id] == before[id];
    }
  }

  // ---- Delivery ----

  lemma {:induction false} DeliveredAll(readouts: map<nat, Readout>, ready: seq<nat>)
    requires DistinctNats(ready) && forall k | 0 <= k < |ready| :: ready[k] in readouts && readouts[ready[k]].sample.Some?
    ensures
      var d := DeliverAll(readouts, ready);
      && d.Ok? && |d.value.delivered| == |ready|
      && (forall k | 0 <= k < |ready| ::
            d.value.delivered[k] == Completion(readouts[ready[k]].reference, readouts[ready[k]].sample.value))
      && (forall id :: id in d.value.readouts <==> id in readouts && id !in ready)
      && (forall id | id in d.value.readouts :: d.value.readouts[id] == readouts[id])
    decreases |ready|
  {
    if ready != [] {
      var id, rest := ready[0], ready[1..];
      assert forall k | 0 <= k < |rest| :: rest[k] == ready[k + 1];
      assert ready == [id] + rest;
      var fewer: map<nat, Readout> := readouts - {id};
      DeliveredAll(fewer, rest);
      DeliverStep(readouts, ready);
      var d, tail := DeliverAll(readouts, ready).value, DeliverAll(fewer, rest).value;
      hide DeliverAll;
      forall k | 0 <= k < |ready|
        ensures d.delivered[k] == Completion(readouts[ready[k]].reference, readouts[ready[k]].sample.value)
      {
        if 0 < k {
          assert rest[k - 1] == ready[k] && d.delivered[k] == tail.delivered[k - 1];
        }
      }
    }
  }

  lemma DeliverStep(readouts: map<nat, Readout>, ready: seq<nat>)
    requires ready != [] && ready[0] in readouts && readouts[ready[0]].sample.Some? && DeliverAll(readouts - {ready[0]}, ready[1..]).Ok?
    ensures
      var d, tail := DeliverAll(readouts, ready), DeliverAll(readouts - {ready[0]}, ready[1..]).value;
      && d.Ok? && d.value.readouts == tail.readouts
      && d.value.delivered == [Completion(readouts[ready[0]].reference, readouts[ready[0]].sample.value)] + tail.delivered
  {
  }

  /** The reference is that of a readout. */
  ghost predicate Comes(history: seq<Readout>, ref: Reference) {
    exists i :: 0 <= i < |history| && history[i].reference == ref
  }

  /** What is ready now has been sampled; delivering it leaves the readouts that are ready later. */
  lemma DeliverKeeps(readouts: map<nat, Readout>, history: seq<Readout>, past: nat, now: nat, m: map<nat, bool>)
    requires Fresh(history) && DistinctReadouts(history) && past <= now && NoneBetween(history, past, now)
    requires forall i | 0 <= i < |history| && past <= history[i].ready :: Held(readouts, history[i], now + 1, m)
    requires forall id | id in readouts :: exists i :: 0 <= i < |history| && history[i].reference.measurement == id && past <= history[i].ready
    ensures
      var ready := ReadyAt(history, now);
      var d := DeliverAll(readouts, ready);
      && d.Ok? && |d.value.delivered| == |ready| && ReadoutsOk(d.value.readouts, history, now + 1, m)
      && forall k | 0 <= k < |ready| ::
           && ready[k] in m && d.value.delivered[k].reference.measurement == ready[k] && d.value.delivered[k].value == m[ready[k]]
           && Comes(history, d.value.delivered[k].reference)
  {
    var ready := ReadyAt(history, now);
    ReadyMembers(history, now);
    ReadyDistinct(history, now);
    hide ReadyAt;
    forall k | 0 <= k < |ready|
      ensures ready[k] in readouts && readouts[ready[k]].sample == Some(m[ready[k]]) && readouts[ready[k]].reference.measurement == ready[k]
      ensures ready[k] in m && Comes(history, readouts[ready[k]].reference)
    {
      assert ready[k] in ready;
      var i :| 0 <= i < |history| && history[i].ready == now && history[i].reference.measurement == ready[k];
      assert Held(readouts, history[i], now + 1, m);
    }
    DeliveredAll(readouts, ready);
    var left := DeliverAll(readouts, ready).value.readouts;
    hide DeliverAll;
    LeftOk(readouts, left, history, ready, past, now, m);
  }

  lemma LeftOk(readouts: map<nat, Readout>, left: map<nat, Readout>, history: seq<Readout>, ready: seq<nat>, past: nat, now: nat, m: map<nat, bool>)
    requires DistinctReadouts(history) && past <= now && NoneBetween(history, past, now)
    requires forall i | 0 <= i < |history| && past <= history[i].ready :: Held(readouts, history[i], now + 1, m)
    requires forall id | id in readouts :: exists i :: 0 <= i < |history| && history[i].reference.measurement == id && past <= history[i].ready
    requires forall i | 0 <= i < |history| && history[i].ready == now :: history[i].reference.measurement in ready
    requires forall id | id in ready :: exists i :: 0 <= i < |history| && history[i].ready == now && history[i].reference.measurement == id
    requires (forall id :: id in left <==> id in readouts && id !in ready) && (forall id | id in left :: left[id] == readouts[id])
    ensures ReadoutsOk(left, history, now + 1, m)
  {
    forall id | id in left
      ensures exists i :: 0 <= i < |history| && history[i].reference.measurement == id && now + 1 <= history[i].ready
    {
      var i :| 0 <= i < |history| && history[i].reference.measurement == id && past <= history[i].ready;
      assert history[i].ready != now;
    }
    forall i | 0 <= i < |history| && now + 1 <= history[i].ready
      ensures Held(left, history[i], now + 1, m)
    {
      assert Held(readouts, history[i], now + 1, m);
      NotReadyNow(history, ready, now, i);
    }
  }

  lemma NotReadyNow(history: seq<Readout>, ready: seq<nat>, now: nat, i: nat)
    requires DistinctReadouts(history) && i < |history| && history[i].ready != now
    requires forall id | id in ready :: exists j :: 0 <= j < |history| && history[j].ready == now && history[j].reference.measurement == id
    ensures history[i].reference.measurement !in ready
  {
    hide DistinctReadouts;
    if history[i].reference.measurement in ready {
      var j :| 0 <= j < |history| && history[j].ready == now && history[j].reference.measurement == history[i].reference.measurement;
      SameReadout(history, i, j);
    }
  }

  /** New readouts with fresh measurements, not before the past, extend the pending ones. */
  lemma InsertKeeps(readouts: map<nat, Readout>, history: seq<Readout>, past: nat, outcomes: map<nat, bool>, more: seq<Readout>)
    requires ReadoutsOk(readouts, history, past, outcomes) && DistinctReadouts(history + more) && Fresh(more)
    requires forall i | 0 <= i < |more| :: past <= more[i].end
    ensures AddReadouts(readouts, more).Ok? && ReadoutsOk(AddReadouts(readouts, more).value, history + more, past, outcomes)
  {
    hide AddReadouts, DistinctReadouts, Held;
    NewMeasurements(readouts, history, past, outcomes, more);
    AddedReadouts(readouts, more);
    InsertedOk(readouts, AddReadouts(readouts, more).value, history, past, outcomes, more);
  }

  lemma NewMeasurements(readouts: map<nat, Readout>, history: seq<Readout>, past: nat, outcomes: map<nat, bool>, more: seq<Readout>)
    requires ReadoutsOk(readouts, history, past, outcomes) && DistinctReadouts(history + more)
    ensures DistinctReadouts(more) && forall k | 0 <= k < |more| :: more[k].reference.measurement !in readouts
  {
    var all := history + more;
    forall i, j | 0 <= i < j < |more|
      ensures more[i].reference.measurement != more[j].reference.measurement
    {
      assert all[|history| + i] == more[i] && all[|history| + j] == more[j];
    }
    hide Held;
    forall i, k | 0 <= i < |history| && 0 <= k < |more|
      ensures history[i].reference.measurement != more[k].reference.measurement
    {
      assert all[i] == history[i] && all[|history| + k] == more[k];
    }
  }

  lemma InsertedOk(readouts: map<nat, Readout>, r: map<nat, Readout>, history: seq<Readout>, past: nat, outcomes: map<nat, bool>, more: seq<Readout>)
    requires ReadoutsOk(readouts, history, past, outcomes) && Fresh(more) && forall i | 0 <= i < |more| :: past <= more[i].end
    requires forall id | id in readouts :: id in r && r[id] == readouts[id]
    requires forall k | 0 <= k < |more| :: more[k].reference.measurement in r && r[more[k].reference.measurement] == more[k]
    requires forall id | id in r :: id in readouts || exists k :: 0 <= k < |more| && more[k].reference.measurement == id
    ensures ReadoutsOk(r, history + more, past, outcomes)
  {
    var all := history + more;
    forall id | id in r
      ensures exists i :: 0 <= i < |all| && all[i].reference.measurement == id && past <= all[i].ready
    {
      if id in readouts {
        var i :| 0 <= i < |history| && history[i].reference.measurement == id && past <= history[i].ready;
        assert all[i] == history[i];
      } else {
        var k :| 0 <= k < |more| && more[k].reference.measurement == id;
        assert all[|history| + k] == more[k];
      }
    }
    forall i | 0 <= i < |all| && past <= all[i].ready
      ensures Held(r, all[i], past, outcomes)
    {
      if i < |history| {
        assert Held(readouts, history[i], past, outcomes);
      } else {
        assert all[i] == more[i - |history|];
      }
    }
  }

  // ---- The order of deliveries ----

  /** The i-th readout is delivered before the j-th: ready earlier, or at the same tick and accepted earlier. */
  predicate Before(history: seq<Readout>, i: nat, j: nat)
    requires i < |history| && j < |history|
  {
    history[i].ready < history[j].ready || (history[i].ready == history[j].ready && i < j)
  }

  ghost predicate Precedes(history: seq<Readout>, x: nat, y: nat) {
    exists i, j :: 0 <= i < |history| && 0 <= j < |history| && Before(history, i, j)
                   && history[i].reference.measurement == x && history[j].reference.measurement == y
  }

  /** Results come in the order of their ready ticks, and of acceptance within a tick. */
  ghost predicate DeliveryOrder(history: seq<Readout>, delivered: seq<Mark>) {
    forall a, b | 0 <= a < b < |delivered| :: Precedes(history, delivered[a].id, delivered[b].id)
  }

  lemma PrecedesInTail(history: seq<Readout>, x: nat, y: nat)
    requires history != [] && Precedes(history[1..], x, y)
    ensures Precedes(history, x, y)
  {
    var rest := history[1..];
    var i, j :| 0 <= i < |rest| && 0 <= j < |rest| && Before(rest, i, j)
                && rest[i].reference.measurement == x && rest[j].reference.measurement == y;
    assert history[i + 1] == rest[i] && history[j + 1] == rest[j];
    assert Before(history, i + 1, j + 1);
  }

  ghost predicate Orderly(history: seq<Readout>, ids: seq<nat>) {
    forall a, b | 0 <= a < b < |ids| :: Precedes(history, ids[a], ids[b])
  }

  lemma {:induction false} ReadyRises(history: seq<Readout>, t: nat)
    ensures Orderly(history, ReadyAt(history, t))
    decreases |history|
  {
    if history != [] {
      ReadyRises(history[1..], t);
      ReadyMembers(history[1..], t);
      var ids := ReadyAt(history[1..], t);
      assert [] + ids == ids;
      if history[0].ready == t {
        FirstIsFirst(history, ids, t);
      } else {
        hide Precedes;
        RestIsOrderly(history, ids);
      }
    }
  }

  lemma RestIsOrderly(history: seq<Readout>, ids: seq<nat>)
    requires history != [] && Orderly(history[1..], ids)
    ensures Orderly(history, ids)
  {
    hide Precedes;
    forall a, b | 0 <= a < b < |ids|
      ensures Precedes(history, ids[a], ids[b])
    {
      assert Precedes(history[1..], ids[a], ids[b]);
      PrecedesInTail(history, ids[a], ids[b]);
    }
  }

  lemma FirstIsFirst(history: seq<Readout>, ids: seq<nat>, t: nat)
    requires history != [] && history[0].ready == t && Orderly(history[1..], ids)
    requires forall id | id in ids :: exists i :: 0 <= i < |history[1..]| && history[1..][i].ready == t && history[1..][i].reference.measurement == id
    ensures Orderly(history, [history[0].reference.measurement] + ids)
  {
    RestIsOrderly(history, ids);
    hide Precedes;
    var all := [history[0].reference.measurement] + ids;
    forall a, b | 0 <= a < b < |all|
      ensures Precedes(history, all[a], all[b])
    {
      if 0 < a {
        assert Precedes(history, ids[a - 1], ids[b - 1]);
      } else {
        assert ids[b - 1] in ids;
        var i :| 0 <= i < |history[1..]| && history[1..][i].ready == t && history[1..][i].reference.measurement == ids[b - 1];
        assert history[i + 1] == history[1..][i];
        FirstPrecedes(history, t, i + 1);
      }
    }
  }

  lemma FirstPrecedes(history: seq<Readout>, t: nat, j: nat)
    requires 0 < j < |history| && history[0].ready == history[j].ready == t
    ensures Precedes(history, history[0].reference.measurement, history[j].reference.measurement)
  {
    assert Before(history, 0, j);
  }

  lemma LaterPrecedes(history: seq<Readout>, i: nat, j: nat)
    requires i < |history| && j < |history| && history[i].ready < history[j].ready
    ensures Precedes(history, history[i].reference.measurement, history[j].reference.measurement)
  {
    assert Before(history, i, j);
  }

  lemma OrderFollows(history: seq<Readout>, delivered: seq<Mark>, past: nat, now: nat)
    requires LogOk(ReadyMarks(history), delivered, past) && DeliveryOrder(history, delivered) && past <= now
    ensures DeliveryOrder(history, delivered + IdMarks(ReadyAt(history, now), now))
  {
    var ready := ReadyAt(history, now);
    ReadyRises(history, now);
    ReadyMembers(history, now);
    hide ReadyAt, Precedes, DistinctMarks;
    var all := delivered + IdMarks(ready, now);
    forall a, b | 0 <= a < b < |all|
      ensures Precedes(history, all[a].id, all[b].id)
    {
      if b < |delivered| {
        assert Precedes(history, delivered[a].id, delivered[b].id);
      } else if |delivered| <= a {
        assert Precedes(history, ready[a - |delivered|], ready[b - |delivered|]);
      } else {
        assert delivered[a] in delivered && ready[b - |delivered|] in ready;
        var i :| 0 <= i < |history| && ReadyMarks(history)[i] == delivered[a];
        var j :| 0 <= j < |history| && history[j].ready == now && history[j].reference.measurement == ready[b - |delivered|];
        LaterPrecedes(history, i, j);
      }
    }
  }

  lemma OrderGrows(history: seq<Readout>, more: seq<Readout>, delivered: seq<Mark>)
    requires DeliveryOrder(history, delivered)
    ensures DeliveryOrder(history + more, delivered)
  {
    forall a, b | 0 <= a < b < |delivered|
      ensures Precedes(history + more, delivered[a].id, delivered[b].id)
    {
      PrecedesWithMore(history, more, delivered[a].id, delivered[b].id);
    }
  }

  lemma PrecedesWithMore(history: seq<Readout>, more: seq<Readout>, x: nat, y: nat)
    requires Precedes(history, x, y)
    ensures Precedes(history + more, x, y)
  {
    var i, j :| 0 <= i < |history| && 0 <= j < |history| && Before(history, i, j)
                && history[i].reference.measurement == x && history[j].reference.measurement == y;
    assert Before(history + more, i, j);
  }

  /** Every result is of a readout. */
  ghost predicate ResultsCome(history: seq<Readout>, results: seq<Completion>) {
    forall k | 0 <= k < |results| :: Comes(history, results[k].reference)
  }

  lemma ResultsStillCome(history: seq<Readout>, more: seq<Readout>, results: seq<Completion>)
    requires ResultsCome(history, results)
    ensures ResultsCome(history + more, results)
  {
    forall k | 0 <= k < |results|
      ensures Comes(history + more, results[k].reference)
    {
      assert Comes(history, results[k].reference);
      var i :| 0 <= i < |history| && history[i].reference == results[k].reference;
      assert (history + more)[i] == history[i];
    }
  }

  lemma MoreResultsCome(history: seq<Readout>, results: seq<Completion>, more: seq<Completion>)
    requires ResultsCome(history, results) && ResultsCome(history, more)
    ensures ResultsCome(history, results + more)
  {
    hide Comes;
  }
}
