/** The device's deliveries as the results that each core's registers receive, and when they come in order. */
module DeviceFeedback {
  import opened Errors
  import opened Protocol
  import opened Electronics
  import opened Boundaries
  import opened Launches
  import opened ReadoutRuns
  import opened Feedback
  import E = ElectronicsRuns
  import F = FeedbackRuns

  // ---- Identifiers ----

  /** The device's identifier of a core's measurement: those of n cores are interleaved. */
  function GlobalId(n: nat, core: nat, id: nat): nat
    requires 0 < id
  {
    (id - 1) * n + core + 1
  }

  function CoreOf(n: nat, id: nat): nat
    requires 0 < n
  {
    (id - 1) % n
  }

  function LocalId(n: nat, id: nat): nat
    requires 0 < n
  {
    (id - 1) / n + 1
  }

  /** Every measurement of every core has its own identifier, and a result finds its core and measurement again. */
  lemma IdentifiersRoundTrip(n: nat, core: nat, id: nat)
    requires core < n && 0 < id
    ensures CoreOf(n, GlobalId(n, core, id)) == core && LocalId(n, GlobalId(n, core, id)) == id
  {
    QuotientIsUnique(n, id - 1, core, (id - 1) * n + core);
  }

  lemma IdentifiersAreGlobal(n: nat, id: nat)
    requires 0 < n && 0 < id
    ensures CoreOf(n, id) < n && 0 < LocalId(n, id) && GlobalId(n, CoreOf(n, id), LocalId(n, id)) == id
  {
    var q := (id - 1) / n;
    assert id - 1 == q * n + (id - 1) % n;
    assert LocalId(n, id) - 1 == q;
  }

  lemma QuotientIsUnique(n: nat, q: nat, rem: nat, x: nat)
    requires rem < n && x == q * n + rem
    ensures x / n == q && x % n == rem
  {
    var d := x / n;
    assert x == d * n + x % n;
    NoMultiple(n, q, d, rem, x % n);
  }

  lemma NoMultiple(n: nat, q: nat, d: nat, rem: nat, rest: nat)
    requires rem < n && rest < n && q * n + rem == d * n + rest
    ensures q == d
  {
    if q < d {
      Gap(n, q, d);
    } else if d < q {
      Gap(n, d, q);
    }
  }

  lemma Gap(n: nat, low: nat, high: nat)
    requires low < high
    ensures low * n + n <= high * n
  {
    assert high * n == low * n + (high - low) * n;
    assert (high - low) * n == n + (high - low - 1) * n;
  }

  // ---- A core's results ----

  function LocalRef(n: nat, ref: Reference): Reference
    requires 0 < n
  {
    Reference(LocalId(n, ref.measurement), ref.target)
  }

  predicate Owns(n: nat, core: nat, ref: Reference)
    requires 0 < n
  {
    0 < ref.measurement && CoreOf(n, ref.measurement) == core
  }

  /** The results that reach a core, under its own identifiers. */
  function ForCore(n: nat, core: nat, results: seq<Completion>): seq<Completion>
    requires 0 < n
  {
    if results == [] then []
    else
      var last := results[|results| - 1];
      ForCore(n, core, results[..|results| - 1])
      + if Owns(n, core, last.reference) then [Completion(LocalRef(n, last.reference), last.value)] else []
  }

  /** The core's acquisitions carry references that its registers have reserved. */
  ghost predicate Issued(n: nat, core: nat, reserved: seq<nat>, history: seq<Readout>)
    requires 0 < n
  {
    forall i | 0 <= i < |history| && Owns(n, core, history[i].reference) :: F.Reserved(reserved, LocalRef(n, history[i].reference))
  }

  /** The reference that the device uses for a core's reference. */
  function GlobalRef(n: nat, core: nat, local: Reference): Reference
    requires 0 < local.measurement
  {
    Reference(GlobalId(n, core, local.measurement), local.target)
  }

  /** The result is of a readout that was ready before past. */
  ghost predicate ResultOf(n: nat, core: nat, history: seq<Readout>, past: nat, c: Completion) {
    0 < c.reference.measurement && exists i :: 0 <= i < |history| && history[i].reference == GlobalRef(n, core, c.reference) && history[i].ready < past
  }

  ghost predicate HasResult(n: nat, core: nat, ref: Reference, results: seq<Completion>) {
    exists k :: 0 <= k < |results| && 0 < results[k].reference.measurement && GlobalRef(n, core, results[k].reference) == ref
  }

  ghost predicate Follows(n: nat, core: nat, history: seq<Readout>, x: Reference, y: Reference) {
    0 < x.measurement && 0 < y.measurement
    && Precedes(history, GlobalId(n, core, x.measurement), GlobalId(n, core, y.measurement))
  }

  /** The core's results are its readouts that were ready, each once, in the order of their ready ticks. */
  ghost predicate CoreResults(n: nat, core: nat, history: seq<Readout>, past: nat, results: seq<Completion>)
    requires 0 < n
  {
    && (forall k | 0 <= k < |results| :: ResultOf(n, core, history, past, results[k]))
    && (forall i | 0 <= i < |history| && Owns(n, core, history[i].reference) && history[i].ready < past :: HasResult(n, core, history[i].reference, results))
    && CoreOrder(n, core, history, results)
  }

  ghost predicate CoreOrder(n: nat, core: nat, history: seq<Readout>, results: seq<Completion>) {
    forall a, b | 0 <= a < b < |results| :: Follows(n, core, history, results[a].reference, results[b].reference)
  }

  ghost predicate ResultOrder(history: seq<Readout>, results: seq<Completion>) {
    forall a, b | 0 <= a < b < |results| :: Precedes(history, results[a].reference.measurement, results[b].reference.measurement)
  }

  lemma LocalIsGlobal(n: nat, core: nat, ref: Reference)
    requires 0 < n && Owns(n, core, ref)
    ensures 0 < LocalRef(n, ref).measurement && GlobalRef(n, core, LocalRef(n, ref)) == ref
  {
    IdentifiersAreGlobal(n, ref.measurement);
    hide GlobalId, LocalId;
  }

  /** Each of the core's results is one of the device's, and each of the device's for the core is there. */
  lemma {:induction false} ForCoreMembers(n: nat, core: nat, results: seq<Completion>)
    requires 0 < n
    ensures forall k | 0 <= k < |ForCore(n, core, results)| :: OneOf(n, core, results, ForCore(n, core, results)[k].reference)
    ensures forall j | 0 <= j < |results| && Owns(n, core, results[j].reference) :: HasResult(n, core, results[j].reference, ForCore(n, core, results))
    decreases |results|
  {
    hide GlobalId, LocalRef, OneOf, HasResult;
    if results != [] {
      var rest, last := results[..|results| - 1], results[|results| - 1];
      ForCoreMembers(n, core, rest);
      var before := ForCore(n, core, rest);
      assert forall k | 0 <= k < |before| :: OneOf(n, core, rest, before[k].reference);
      var more := if Owns(n, core, last.reference) then [Completion(LocalRef(n, last.reference), last.value)] else [];
      assert ForCore(n, core, results) == before + more && results == rest + [last];
      if Owns(n, core, last.reference) {
        LocalIsGlobal(n, core, last.reference);
        LastHasResult(n, core, last, before);
        LastIsOne(n, core, rest, last);
      }
      forall k | 0 <= k < |before|
        ensures OneOf(n, core, results, before[k].reference)
      {
        StillOneOf(n, core, rest, last, before[k].reference);
      }
      forall j | 0 <= j < |rest| && Owns(n, core, rest[j].reference)
        ensures HasResult(n, core, rest[j].reference, before + more)
      {
        StillHasResult(n, core, rest[j].reference, before, more);
      }
    }
  }

  ghost predicate OneOf(n: nat, core: nat, results: seq<Completion>, local: Reference) {
    0 < local.measurement && exists j :: 0 <= j < |results| && results[j].reference == GlobalRef(n, core, local)
  }

  lemma StillOneOf(n: nat, core: nat, results: seq<Completion>, last: Completion, local: Reference)
    requires OneOf(n, core, results, local)
    ensures OneOf(n, core, results + [last], local)
  {
    hide GlobalRef;
    var j :| 0 <= j < |results| && results[j].reference == GlobalRef(n, core, local);
    assert (results + [last])[j] == results[j];
  }

  lemma LastIsOne(n: nat, core: nat, rest: seq<Completion>, last: Completion)
    requires 0 < n && Owns(n, core, last.reference)
    ensures OneOf(n, core, rest + [last], LocalRef(n, last.reference))
  {
    LocalIsGlobal(n, core, last.reference);
    hide GlobalRef, LocalRef;
    assert (rest + [last])[|rest|] == last;
  }

  lemma StillHasResult(n: nat, core: nat, ref: Reference, results: seq<Completion>, more: seq<Completion>)
    requires HasResult(n, core, ref, results)
    ensures HasResult(n, core, ref, results + more)
  {
    hide GlobalRef;
    var k :| 0 <= k < |results| && 0 < results[k].reference.measurement && GlobalRef(n, core, results[k].reference) == ref;
    assert (results + more)[k] == results[k];
  }

  lemma LastHasResult(n: nat, core: nat, last: Completion, before: seq<Completion>)
    requires 0 < n && Owns(n, core, last.reference)
    ensures HasResult(n, core, last.reference, before + [Completion(LocalRef(n, last.reference), last.value)])
  {
    LocalIsGlobal(n, core, last.reference);
    hide GlobalRef, LocalRef;
    var all := before + [Completion(LocalRef(n, last.reference), last.value)];
    assert all[|before|].reference == LocalRef(n, last.reference);
  }

  lemma {:induction false} ForCoreOrder(n: nat, core: nat, history: seq<Readout>, results: seq<Completion>)
    requires 0 < n && ResultOrder(history, results)
    ensures CoreOrder(n, core, history, ForCore(n, core, results))
    decreases |results|
  {
    hide LocalRef, OneOf, Follows;
    if results != [] {
      var rest, last := results[..|results| - 1], results[|results| - 1];
      ForCoreOrder(n, core, history, rest);
      ForCoreMembers(n, core, rest);
      var before := ForCore(n, core, rest);
      var mine := ForCore(n, core, results);
      if Owns(n, core, last.reference) {
        var newest := Completion(LocalRef(n, last.reference), last.value);
        assert mine == before + [newest];
        forall a | 0 <= a < |before|
          ensures Follows(n, core, history, before[a].reference, newest.reference)
        {
          LastFollows(n, core, history, results, before[a].reference);
        }
      } else {
        assert mine == before + [];
        assert before + [] == before;
      }
    }
  }

  lemma LastFollows(n: nat, core: nat, history: seq<Readout>, results: seq<Completion>, local: Reference)
    requires 0 < n && results != [] && ResultOrder(history, results)
    requires OneOf(n, core, results[..|results| - 1], local) && Owns(n, core, results[|results| - 1].reference)
    ensures Follows(n, core, history, local, LocalRef(n, results[|results| - 1].reference))
  {
    var rest, last := results[..|results| - 1], results[|results| - 1];
    LocalIsGlobal(n, core, last.reference);
    hide GlobalId, LocalRef, Precedes;
    var j :| 0 <= j < |rest| && rest[j].reference == GlobalRef(n, core, local);
    assert rest[j] == results[j];
  }

  // ---- The results of a device run ----

  lemma OrderOfResults(history: seq<Readout>, results: seq<Completion>, delivered: seq<Mark>)
    requires |results| == |delivered| && (forall k | 0 <= k < |results| :: delivered[k].id == results[k].reference.measurement)
    requires DeliveryOrder(history, delivered)
    ensures ResultOrder(history, results)
  {
    hide Precedes;
    forall a, b | 0 <= a < b < |results|
      ensures Precedes(history, results[a].reference.measurement, results[b].reference.measurement)
    {
      assert Precedes(history, delivered[a].id, delivered[b].id);
    }
  }

  /** A result is of a readout that was ready at its tick. */
  lemma ResultIsReady(history: seq<Readout>, results: seq<Completion>, delivered: seq<Mark>, past: nat, k: nat)
    requires |results| == |delivered| && k < |results| && delivered[k].id == results[k].reference.measurement
    requires LogOk(ReadyMarks(history), delivered, past) && DistinctReadouts(history) && ResultsCome(history, results)
    ensures exists i :: 0 <= i < |history| && history[i].reference == results[k].reference && history[i].ready < past
  {
    assert delivered[k] in delivered;
    var j :| 0 <= j < |history| && ReadyMarks(history)[j] == delivered[k];
    assert Comes(history, results[k].reference);
    var i :| 0 <= i < |history| && history[i].reference == results[k].reference;
    hide LogOk, DistinctReadouts;
    SameReadout(history, i, j);
  }

  /** A readout that was ready has its result. */
  lemma ReadyHasResult(history: seq<Readout>, results: seq<Completion>, delivered: seq<Mark>, past: nat, i: nat)
    requires |results| == |delivered| && forall k | 0 <= k < |results| :: delivered[k].id == results[k].reference.measurement
    requires LogOk(ReadyMarks(history), delivered, past) && DistinctReadouts(history) && ResultsCome(history, results)
    requires i < |history| && history[i].ready < past
    ensures exists k :: 0 <= k < |results| && results[k].reference == history[i].reference
  {
    assert ReadyMarks(history)[i] in ReadyMarks(history);
    var k :| 0 <= k < |delivered| && delivered[k] == ReadyMarks(history)[i];
    assert Comes(history, results[k].reference);
    var j :| 0 <= j < |history| && history[j].reference == results[k].reference;
    hide LogOk, DistinctReadouts;
    SameReadout(history, i, j);
  }

  lemma CoreResultsFollow(n: nat, core: nat, history: seq<Readout>, results: seq<Completion>, delivered: seq<Mark>, past: nat)
    requires 0 < n && |results| == |delivered| && forall k | 0 <= k < |results| :: delivered[k].id == results[k].reference.measurement
    requires LogOk(ReadyMarks(history), delivered, past) && DistinctReadouts(history)
    requires ResultsCome(history, results) && DeliveryOrder(history, delivered)
    ensures CoreResults(n, core, history, past, ForCore(n, core, results))
  {
    hide LogOk, DistinctReadouts, DeliveryOrder, ResultsCome, ResultOrder, ForCore, Owns, GlobalRef, CoreOrder;
    OrderOfResults(history, results, delivered);
    ForCoreOrder(n, core, history, results);
    ForCoreMembers(n, core, results);
    var mine := ForCore(n, core, results);
    forall k | 0 <= k < |mine|
      ensures ResultOf(n, core, history, past, mine[k])
    {
      assert OneOf(n, core, results, mine[k].reference);
      var j :| 0 <= j < |results| && results[j].reference == GlobalRef(n, core, mine[k].reference);
      ResultIsReady(history, results, delivered, past, j);
    }
    forall i | 0 <= i < |history| && Owns(n, core, history[i].reference) && history[i].ready < past
      ensures HasResult(n, core, history[i].reference, mine)
    {
      ReadyHasResult(history, results, delivered, past, i);
      var k :| 0 <= k < |results| && results[k].reference == history[i].reference;
      assert HasResult(n, core, results[k].reference, mine);
    }
  }

  /** In every run of the device a core's results are its readouts that were ready, each once, in the order of their ready ticks. */
  lemma ResultsFollowReadiness(n: nat, core: nat, p: Profile, r: E.Run)
    requires core < n && 0 < p.limit && E.Reachable(p, r)
    ensures CoreResults(n, core, r.readouts, E.Past(r.state), ForCore(n, core, r.results)) && DistinctReadouts(r.readouts)
  {
    hide E.Reachable, CoreResults, ForCore, DistinctReadouts, DeliveryOrder, ResultsCome, LogOk, E.StateOk, Matched;
    E.ReachableIsOk(p, r);
    CoreResultsFollow(n, core, r.readouts, r.results, r.delivered, E.Past(r.state));
  }

  // ---- When they are a legal sequence for the registers ----

  lemma GlobalIsInjective(n: nat, core: nat, x: nat, y: nat)
    requires core < n && 0 < x && 0 < y && GlobalId(n, core, x) == GlobalId(n, core, y)
    ensures x == y
  {
    IdentifiersRoundTrip(n, core, x);
    IdentifiersRoundTrip(n, core, y);
    hide GlobalId, LocalId, CoreOf;
  }

  lemma GlobalIsOwned(n: nat, core: nat, local: Reference)
    requires core < n && 0 < local.measurement
    ensures Owns(n, core, GlobalRef(n, core, local)) && LocalRef(n, GlobalRef(n, core, local)) == local
  {
    IdentifiersRoundTrip(n, core, local.measurement);
    hide GlobalId, LocalId, CoreOf;
    GlobalIsPositive(n, core, local.measurement);
  }

  lemma GlobalIsPositive(n: nat, core: nat, id: nat)
    requires 0 < id
    ensures 0 < GlobalId(n, core, id)
  {
  }

  lemma PrecedingDiffer(history: seq<Readout>, x: nat, y: nat)
    requires DistinctReadouts(history) && Precedes(history, x, y)
    ensures x != y
  {
    hide DistinctReadouts;
    var i, j :| 0 <= i < |history| && 0 <= j < |history| && Before(history, i, j)
                && history[i].reference.measurement == x && history[j].reference.measurement == y;
    if x == y {
      SameReadout(history, i, j);
    }
  }

  lemma PrecedesIsBefore(history: seq<Readout>, i: nat, j: nat)
    requires DistinctReadouts(history) && i < |history| && j < |history|
    requires Precedes(history, history[i].reference.measurement, history[j].reference.measurement)
    ensures Before(history, i, j)
  {
    hide DistinctReadouts;
    var a, b :| 0 <= a < |history| && 0 <= b < |history| && Before(history, a, b)
                && history[a].reference.measurement == history[i].reference.measurement
                && history[b].reference.measurement == history[j].reference.measurement;
    SameReadout(history, a, i);
    SameReadout(history, b, j);
  }

  /** They are of reserved measurements, each once. */
  lemma CoreResultsDelivered(n: nat, core: nat, history: seq<Readout>, past: nat, results: seq<Completion>, reserved: seq<nat>)
    requires core < n && CoreResults(n, core, history, past, results) && DistinctReadouts(history) && Issued(n, core, reserved, history)
    ensures F.DeliveredOk(reserved, results)
  {
    hide GlobalId, LocalId, CoreOf, Precedes, DistinctReadouts;
    forall k | 0 <= k < |results|
      ensures F.Reserved(reserved, results[k].reference)
    {
      assert ResultOf(n, core, history, past, results[k]);
      var i :| 0 <= i < |history| && history[i].reference == GlobalRef(n, core, results[k].reference);
      GlobalIsOwned(n, core, results[k].reference);
    }
    forall a, b | 0 <= a < b < |results|
      ensures results[a].reference.measurement != results[b].reference.measurement
    {
      assert Follows(n, core, history, results[a].reference, results[b].reference);
      PrecedingDiffer(history, GlobalId(n, core, results[a].reference.measurement), GlobalId(n, core, results[b].reference.measurement));
    }
  }

  /** o is an older reservation of the same target. */
  predicate Older(reserved: seq<nat>, ref: Reference, o: nat) {
    1 <= o < ref.measurement && o <= |reserved| && reserved[o - 1] == ref.target
  }

  /** The measurement has a readout that is delivered before the j-th one. */
  ghost predicate ReadyBefore(history: seq<Readout>, id: nat, j: nat)
    requires j < |history|
  {
    exists i :: 0 <= i < |history| && history[i].reference.measurement == id && Before(history, i, j)
  }

  /** Each of the core's readouts that is ready by now is ready after all older measurements of its target. */
  ghost predicate ReadyInOrder(n: nat, core: nat, reserved: seq<nat>, history: seq<Readout>, past: nat)
    requires 0 < n
  {
    forall j, o | 0 <= j < |history| && Owns(n, core, history[j].reference) && history[j].ready < past
                  && Older(reserved, LocalRef(n, history[j].reference), o) ::
      ReadyBefore(history, GlobalId(n, core, o), j)
  }

  /** The position of a result before another one. */
  lemma ResultBefore(n: nat, core: nat, history: seq<Readout>, results: seq<Completion>, a: nat, b: nat, i: nat, j: nat)
    requires core < n && DistinctReadouts(history) && CoreOrder(n, core, history, results)
    requires a < |results| && b < |results| && 0 < results[a].reference.measurement && 0 < results[b].reference.measurement
    requires i < |history| && history[i].reference == GlobalRef(n, core, results[a].reference)
    requires j < |history| && history[j].reference == GlobalRef(n, core, results[b].reference)
    ensures a < b ==> Before(history, i, j)
    ensures Before(history, i, j) && a != b ==> a < b
  {
    hide GlobalId, Precedes, DistinctReadouts;
    if a < b {
      assert Follows(n, core, history, results[a].reference, results[b].reference);
      PrecedesIsBefore(history, i, j);
    } else if b < a {
      assert Follows(n, core, history, results[b].reference, results[a].reference);
      PrecedesIsBefore(history, j, i);
    }
  }

  lemma OrderMeansReadiness(n: nat, core: nat, history: seq<Readout>, past: nat, results: seq<Completion>, reserved: seq<nat>, j: nat, o: nat)
    requires core < n && CoreResults(n, core, history, past, results) && DistinctReadouts(history)
    requires F.InOrder(reserved, results, |results|)
    requires j < |history| && Owns(n, core, history[j].reference) && history[j].ready < past
    requires Older(reserved, LocalRef(n, history[j].reference), o)
    ensures ReadyBefore(history, GlobalId(n, core, o), j)
  {
    hide GlobalId, LocalId, CoreOf, Precedes, DistinctReadouts, CoreOrder, Before;
    assert HasResult(n, core, history[j].reference, results);
    var k :| 0 <= k < |results| && 0 < results[k].reference.measurement && GlobalRef(n, core, results[k].reference) == history[j].reference;
    GlobalIsOwned(n, core, results[k].reference);
    assert !F.OlderMissing(reserved, results, k);
    assert o in F.IdsOf(results[..k]);
    var c :| c in results[..k] && c.reference.measurement == o;
    var a :| 0 <= a < k && results[a] == c;
    assert ResultOf(n, core, history, past, results[a]);
    var i :| 0 <= i < |history| && history[i].reference == GlobalRef(n, core, results[a].reference);
    ResultBefore(n, core, history, results, a, k, i, j);
  }

  lemma ReadinessMeansOrder(n: nat, core: nat, history: seq<Readout>, past: nat, results: seq<Completion>, reserved: seq<nat>, k: nat)
    requires core < n && CoreResults(n, core, history, past, results) && DistinctReadouts(history)
    requires ReadyInOrder(n, core, reserved, history, past) && k < |results|
    ensures !F.OlderMissing(reserved, results, k)
  {
    hide GlobalId, LocalId, CoreOf, Precedes, DistinctReadouts, CoreOrder, F.IdsOf;
    var ref := results[k].reference;
    assert ResultOf(n, core, history, past, results[k]);
    var j :| 0 <= j < |history| && history[j].reference == GlobalRef(n, core, ref) && history[j].ready < past;
    GlobalIsOwned(n, core, ref);
    forall o | Older(reserved, ref, o)
      ensures o in F.IdsOf(results[..k])
    {
      assert ReadyBefore(history, GlobalId(n, core, o), j);
      var i :| 0 <= i < |history| && history[i].reference.measurement == GlobalId(n, core, o) && Before(history, i, j);
      OlderIsDelivered(n, core, history, past, results, k, i, j, o);
    }
  }

  lemma OlderIsDelivered(n: nat, core: nat, history: seq<Readout>, past: nat, results: seq<Completion>, k: nat, i: nat, j: nat, o: nat)
    requires core < n && CoreResults(n, core, history, past, results) && DistinctReadouts(history)
    requires k < |results| && 0 < o < results[k].reference.measurement
    requires j < |history| && history[j].reference == GlobalRef(n, core, results[k].reference) && history[j].ready < past
    requires i < |history| && history[i].reference.measurement == GlobalId(n, core, o) && Before(history, i, j)
    ensures o in F.IdsOf(results[..k])
  {
    GlobalIsOwned(n, core, Reference(o, history[i].reference.target));
    hide GlobalId, LocalId, CoreOf, Precedes, DistinctReadouts, CoreOrder;
    assert HasResult(n, core, history[i].reference, results);
    var a :| 0 <= a < |results| && 0 < results[a].reference.measurement && GlobalRef(n, core, results[a].reference) == history[i].reference;
    GlobalIsInjective(n, core, results[a].reference.measurement, o);
    ResultBefore(n, core, history, results, a, k, i, j);
    assert results[a] in results[..k];
  }

  lemma OrderIsReadiness(n: nat, core: nat, history: seq<Readout>, past: nat, results: seq<Completion>, reserved: seq<nat>)
    requires core < n && CoreResults(n, core, history, past, results) && DistinctReadouts(history)
    ensures F.InOrder(reserved, results, |results|) <==> ReadyInOrder(n, core, reserved, history, past)
  {
    hide GlobalId, LocalRef, Owns, ReadyBefore, DistinctReadouts, CoreResults, F.OlderMissing;
    if F.InOrder(reserved, results, |results|) {
      forall j, o | 0 <= j < |history| && Owns(n, core, history[j].reference) && history[j].ready < past
                    && Older(reserved, LocalRef(n, history[j].reference), o)
        ensures ReadyBefore(history, GlobalId(n, core, o), j)
      {
        OrderMeansReadiness(n, core, history, past, results, reserved, j, o);
      }
    }
    if ReadyInOrder(n, core, reserved, history, past) {
      forall k | 0 <= k < |results|
        ensures !F.OlderMissing(reserved, results, k)
      {
        ReadinessMeansOrder(n, core, history, past, results, reserved, k);
      }
    }
  }

  /**
   * In every run of the device the results of a core are of reserved measurements, each once, and each is of its
   * target's oldest pending measurement exactly when the core's readouts are ready in the order of their measurements.
   */
  lemma ResultsInOrderExactlyWhen(n: nat, core: nat, p: Profile, r: E.Run, reserved: seq<nat>)
    requires core < n && 0 < p.limit && E.Reachable(p, r) && Issued(n, core, reserved, r.readouts)
    ensures
      var results := ForCore(n, core, r.results);
      && F.DeliveredOk(reserved, results)
      && (F.InOrder(reserved, results, |results|) <==> ReadyInOrder(n, core, reserved, r.readouts, E.Past(r.state)))
  {
    hide E.Reachable, CoreResults, ForCore, DistinctReadouts, Issued, ReadyInOrder, F.InOrder, F.DeliveredOk;
    ResultsFollowReadiness(n, core, p, r);
    var results, past := ForCore(n, core, r.results), E.Past(r.state);
    CoreResultsDelivered(n, core, r.readouts, past, results, reserved);
    OrderIsReadiness(n, core, r.readouts, past, results, reserved);
  }

  /** In whatever order, the next result of a device run is one that the registers still wait for. */
  lemma DeliveriesAreLegal(n: nat, core: nat, p: Profile, r: E.Run, cfg: FeedbackConfig, f: F.Run, k: nat, now: nat)
    requires core < n && 0 < p.limit && E.Reachable(p, r) && Issued(n, core, f.reserved, r.readouts) && F.RunOk(cfg, f)
    requires k < |ForCore(n, core, r.results)| && f.delivered == ForCore(n, core, r.results)[..k] && f.now <= now
    ensures F.Legal(f, now, F.Result(ForCore(n, core, r.results)[k]))
  {
    hide E.Reachable, ForCore, Issued, ReadyInOrder;
    ResultsInOrderExactlyWhen(n, core, p, r, f.reserved);
    NextMayCome(cfg, f, ForCore(n, core, r.results), k);
  }

  lemma NextMayCome(cfg: FeedbackConfig, f: F.Run, results: seq<Completion>, k: nat)
    requires F.RunOk(cfg, f) && F.DeliveredOk(f.reserved, results) && k < |results| && f.delivered == results[..k]
    ensures F.DeviceMay(f.outstanding, results[k])
  {
    F.NotBefore(f.reserved, results, k, k);
    hide F.CountsOk, F.MailOk, F.InOrder, F.RegistersHold, F.FlagsHold, F.Rising, F.IdsOf;
    assert F.Reserved(f.reserved, results[k].reference);
  }

  lemma PrefixInOrder(reserved: seq<nat>, results: seq<Completion>, k: nat)
    requires F.InOrder(reserved, results, |results|) && k <= |results|
    ensures F.InOrder(reserved, results[..k], k)
  {
    hide F.IdsOf;
    forall i | 0 <= i < k
      ensures !F.OlderMissing(reserved, results[..k], i)
    {
      assert !F.OlderMissing(reserved, results, i) && results[..k][..i] == results[..i];
    }
  }

  /**
   * A processor edge that has received all that the device has delivered to its core ends the run exactly when the
   * core's readouts were not ready in the order of their measurements.
   */
  lemma CoreFaultsExactlyWhen(n: nat, core: nat, p: Profile, r: E.Run, cfg: FeedbackConfig, f: F.Run, now: nat)
    requires core < n && 0 < p.limit && E.Reachable(p, r) && Issued(n, core, f.reserved, r.readouts) && F.RunOk(cfg, f)
    requires f.delivered == ForCore(n, core, r.results) && f.received + F.TakeCount(f.results, now) == |f.delivered|
    ensures
      if ReadyInOrder(n, core, f.reserved, r.readouts, E.Past(r.state)) then F.DoCpu(f, now).Ok?
      else F.DoCpu(f, now) == Err(ErrorCode.Protocol)
  {
    hide E.Reachable, ForCore, Issued, ReadyInOrder, F.RunOk, F.DoCpu, F.TakeCount, F.DeliveredOk, F.OlderMissing, F.Received,
      F.Holds;
    ResultsInOrderExactlyWhen(n, core, p, r, f.reserved);
    F.CpuEdgeFaultsExactlyWhen(cfg, f, now);
    ReceivedInOrder(cfg, f);
  }

  lemma ReceivedInOrder(cfg: FeedbackConfig, f: F.Run)
    requires F.RunOk(cfg, f)
    ensures f.received <= |f.delivered| && F.InOrder(f.reserved, f.delivered, f.received)
    ensures F.DeliveredOk(f.reserved, f.delivered)
  {
    hide F.MailOk, F.Holds, F.RegistersHold, F.FlagsHold, F.Rising, F.InOrder, F.DeliveredOk;
  }

  /** Readouts that are ready in the order of their measurements never make an edge fault. */
  lemma ReadyInOrderNeverFaults(n: nat, core: nat, p: Profile, r: E.Run, cfg: FeedbackConfig, f: F.Run, k: nat, now: nat, op: F.Op)
    requires core < n && 0 < p.limit && E.Reachable(p, r) && Issued(n, core, f.reserved, r.readouts) && F.RunOk(cfg, f)
    requires k <= |ForCore(n, core, r.results)| && f.delivered == ForCore(n, core, r.results)[..k]
    requires ReadyInOrder(n, core, f.reserved, r.readouts, E.Past(r.state))
    ensures f.received + F.TakeCount(f.results, now) <= |f.delivered| && !F.OrderFault(cfg, f, now, op)
  {
    hide E.Reachable, ForCore, Issued, ReadyInOrder, F.RunOk, F.TakeCount, F.DeliveredOk, F.OlderMissing, F.Stale;
    ResultsInOrderExactlyWhen(n, core, p, r, f.reserved);
    PrefixInOrder(f.reserved, ForCore(n, core, r.results), k);
    F.ReceivedFits(cfg, f, now);
    ReceivedInOrder(cfg, f);
    F.OrderRises(f.reserved, f.delivered, |f.delivered|);
  }

  /** Each of the core's readouts is launched after those of all older measurements of its target, and not ready before them. */
  ghost predicate LaunchedInOrder(n: nat, core: nat, reserved: seq<nat>, history: seq<Readout>)
    requires 0 < n
  {
    forall j, o | 0 <= j < |history| && Owns(n, core, history[j].reference) && Older(reserved, LocalRef(n, history[j].reference), o) ::
      exists i :: 0 <= i < j && history[i].reference.measurement == GlobalId(n, core, o) && history[i].ready <= history[j].ready
  }

  lemma LaunchOrderSuffices(n: nat, core: nat, reserved: seq<nat>, history: seq<Readout>, past: nat)
    requires 0 < n && LaunchedInOrder(n, core, reserved, history)
    ensures ReadyInOrder(n, core, reserved, history, past)
  {
    hide GlobalId, LocalRef, Owns;
    forall j, o | 0 <= j < |history| && Owns(n, core, history[j].reference) && history[j].ready < past
                  && Older(reserved, LocalRef(n, history[j].reference), o)
      ensures ReadyBefore(history, GlobalId(n, core, o), j)
    {
      var i :| 0 <= i < j && history[i].reference.measurement == GlobalId(n, core, o) && history[i].ready <= history[j].ready;
      assert Before(history, i, j);
    }
  }
}
