/** The control electronics as the object the source runs: its maps and its backend changed in place. */
module ElectronicsModel {
  import opened Errors
  import opened Time
  import opened Protocol
  import opened Resources
  import opened Backend
  import opened Electronics

  // ---- Loops that build a sequence ----

  /** The items made so far, followed by what the rest gives. */
  function Following<T>(made: seq<T>, rest: Result<seq<T>>): Result<seq<T>> {
    if rest.Err? then rest else Ok(made + rest.value)
  }

  lemma FollowingNothing<T>(rest: Result<seq<T>>)
    ensures Following([], rest) == rest
  {
    if rest.Ok? {
      assert [] + rest.value == rest.value;
    }
  }

  lemma FollowingOne<T>(made: seq<T>, item: T, rest: Result<seq<T>>)
    ensures Following(made + [item], rest) == if rest.Err? then rest else Following(made, Ok([item] + rest.value))
  {
    if rest.Ok? {
      assert made + [item] + rest.value == made + ([item] + rest.value);
    }
  }

  lemma FollowingAll<T>(made: seq<T>)
    ensures Following(made, Ok([])) == Ok(made)
  {
    assert made + [] == made;
  }

  // ---- Resolving ----

  method ResolveLaunch(p: Profile, l: Launch) returns (actions: Result<seq<Scheduled>>)
    ensures actions == Resolve(p, l, 0)
  {
    hide ResolveEvent;
    var made: seq<Scheduled> := [];
    FollowingNothing(Resolve(p, l, 0));
    for i := 0 to |l.events|
      invariant Following(made, Resolve(p, l, i)) == Resolve(p, l, 0)
    {
      var one := ResolveEvent(p, l, l.events[i].0, l.events[i].1);
      if one.Err? {
        return Err(one.error);
      }
      FollowingOne(made, one.value, Resolve(p, l, i + 1));
      made := made + [one.value];
    }
    FollowingAll(made);
    return Ok(made);
  }

  // ---- Readouts ----

  lemma {:induction false} CountAppends(actions: seq<Scheduled>, i: nat, kind: ActionKind, id: nat)
    requires i < |actions|
    ensures CountOf(actions[..i + 1], kind, id) == CountOf(actions[..i], kind, id) + if Reads(actions[i], kind, id) then 1 else 0
    decreases i
  {
    hide Reads;
    if i == 0 {
      assert actions[..1] == [actions[0]] && actions[..0] == [] && [actions[0]][1..] == [];
    } else {
      var rest := actions[1..];
      CountAppends(rest, i - 1, kind, id);
      assert actions[..i + 1][0] == actions[0] && actions[..i + 1][1..] == rest[..i];
      assert actions[..i][0] == actions[0] && actions[..i][1..] == rest[..i - 1];
    }
  }

  /** A counter of the identifiers seen: absent means zero. */
  function Counted(counts: map<nat, nat>, id: nat): nat {
    if id in counts then counts[id] else 0
  }

  /** The references seen are those of the readout actions so far. */
  ghost predicate Seen(identities: map<nat, Reference>, actions: seq<Scheduled>, i: nat)
    requires i <= |actions|
  {
    && (forall j | 0 <= j < i && ReadoutAction(actions[j].event.action) ::
          actions[j].event.reference.Some? && actions[j].event.reference.value.measurement in identities
          && identities[actions[j].event.reference.value.measurement] == actions[j].event.reference.value)
    && (forall id | id in identities ::
          exists j :: 0 <= j < i && ReadoutAction(actions[j].event.action) && actions[j].event.reference == Some(identities[id])
                      && identities[id].measurement == id)
  }

  predicate Disagrees(actions: seq<Scheduled>, i: nat)
    requires i < |actions| && actions[i].event.reference.Some?
  {
    exists j :: 0 <= j < i && ReadoutAction(actions[j].event.action) && actions[j].event.reference.Some?
                && actions[j].event.reference.value.measurement == actions[i].event.reference.value.measurement
                && actions[j].event.reference != actions[i].event.reference
  }

  lemma SeenDisagrees(identities: map<nat, Reference>, actions: seq<Scheduled>, i: nat)
    requires i < |actions| && actions[i].event.reference.Some? && Seen(identities, actions, i)
    ensures
      var ref := actions[i].event.reference.value;
      Disagrees(actions, i) <==> ref.measurement in identities && identities[ref.measurement] != ref
  {
    var ref := actions[i].event.reference.value;
    if ref.measurement in identities && identities[ref.measurement] != ref {
      var j :| 0 <= j < i && ReadoutAction(actions[j].event.action) && actions[j].event.reference == Some(identities[ref.measurement])
               && identities[ref.measurement].measurement == ref.measurement;
    }
  }

  lemma SeenMore(identities: map<nat, Reference>, actions: seq<Scheduled>, i: nat)
    requires i < |actions| && ReadoutAction(actions[i].event.action) && actions[i].event.reference.Some? && Seen(identities, actions, i)
    requires var ref := actions[i].event.reference.value; ref.measurement in identities ==> identities[ref.measurement] == ref
    ensures var ref := actions[i].event.reference.value; Seen(identities[ref.measurement := ref], actions, i + 1)
  {
    var ref := actions[i].event.reference.value;
    var more: map<nat, Reference> := identities[ref.measurement := ref];
    forall id | id in more
      ensures exists j :: 0 <= j < i + 1 && ReadoutAction(actions[j].event.action) && actions[j].event.reference == Some(more[id]) && more[id].measurement == id
    {
      if id == ref.measurement {
        assert actions[i].event.reference == Some(more[id]);
      } else {
        var j :| 0 <= j < i && ReadoutAction(actions[j].event.action) && actions[j].event.reference == Some(identities[id])
                 && identities[id].measurement == id;
        assert actions[j].event.reference == Some(more[id]);
      }
    }
  }

  lemma CheckStep(actions: seq<Scheduled>, i: nat)
    requires i < |actions|
    ensures
      var e := actions[i].event;
      CheckReadouts(actions, i)
      == if ReadoutAction(e.action) && (e.reference.None? || e.action.targets != [e.reference.value.target]) then Err(InvalidMeasurement)
         else if ReadoutAction(e.action) && Disagrees(actions, i) then Err(InvalidMeasurement)
         else CheckReadouts(actions, i + 1)
  {
  }

  /** The counters hold the number of acquisitions and of arms for every measurement so far. */
  ghost predicate Tallied(acquisitions: map<nat, nat>, arms: map<nat, nat>, actions: seq<Scheduled>, i: nat)
    requires i <= |actions|
  {
    forall id: nat :: Counted(acquisitions, id) == CountOf(actions[..i], Acquire, id) && Counted(arms, id) == CountOf(actions[..i], DiscriminatorArm, id)
  }

  lemma TallyStep(acquisitions: map<nat, nat>, arms: map<nat, nat>, actions: seq<Scheduled>, i: nat)
    requires i < |actions| && Tallied(acquisitions, arms, actions, i)
    requires ReadoutAction(actions[i].event.action) ==> actions[i].event.reference.Some?
    ensures
      var e := actions[i].event;
      && (!ReadoutAction(e.action) ==> Tallied(acquisitions, arms, actions, i + 1))
      && (IsArm(e.action) ==>
            var id := e.reference.value.measurement;
            Tallied(acquisitions, arms[id := Counted(arms, id) + 1], actions, i + 1))
      && (e.action.kind == Acquire ==>
            var id := e.reference.value.measurement;
            Tallied(acquisitions[id := Counted(acquisitions, id) + 1], arms, actions, i + 1))
  {
    forall id: nat
      ensures CountOf(actions[..i + 1], Acquire, id) == CountOf(actions[..i], Acquire, id) + if Reads(actions[i], Acquire, id) then 1 else 0
      ensures CountOf(actions[..i + 1], DiscriminatorArm, id) == CountOf(actions[..i], DiscriminatorArm, id) + if Reads(actions[i], DiscriminatorArm, id) then 1 else 0
    {
      CountAppends(actions, i, Acquire, id);
      CountAppends(actions, i, DiscriminatorArm, id);
    }
    hide CountOf;
    if actions[i].event.action.kind == Acquire {
      var at := actions[i].event.reference.value.measurement;
      var more: map<nat, nat> := acquisitions[at := Counted(acquisitions, at) + 1];
      forall id: nat
        ensures Counted(more, id) == CountOf(actions[..i + 1], Acquire, id) && Counted(arms, id) == CountOf(actions[..i + 1], DiscriminatorArm, id)
      {
        assert Counted(acquisitions, id) == CountOf(actions[..i], Acquire, id);
        assert Counted(arms, id) == CountOf(actions[..i], DiscriminatorArm, id);
      }
    }
  }

  /** The first pass over a launch: references are checked, acquisitions and arms are counted. */
  method CountReadouts(actions: seq<Scheduled>) returns (counts: Result<(map<nat, nat>, map<nat, nat>)>)
    ensures CheckReadouts(actions, 0).Err? ==> counts == Err(CheckReadouts(actions, 0).error)
    ensures CheckReadouts(actions, 0).Ok? ==> counts.Ok? && Tallied(counts.value.0, counts.value.1, actions, |actions|)
    ensures CheckReadouts(actions, 0).Ok? ==> forall k | 0 <= k < |actions| && ReadoutAction(actions[k].event.action) :: actions[k].event.reference.Some?
  {
    hide Disagrees, CheckReadouts, Tallied, Seen, Counted;
    var acquisitions: map<nat, nat> := map[];
    var arms: map<nat, nat> := map[];
    var identities: map<nat, Reference> := map[];
    NothingTallied(actions);
    for i := 0 to |actions|
      invariant CheckReadouts(actions, i) == CheckReadouts(actions, 0)
      invariant Seen(identities, actions, i) && Tallied(acquisitions, arms, actions, i)
      invariant forall k | 0 <= k < i && ReadoutAction(actions[k].event.action) :: actions[k].event.reference.Some?
    {
      var e := actions[i].event;
      CheckStep(actions, i);
      if ReadoutAction(e.action) {
        if e.reference.None? || e.action.targets != [e.reference.value.target] {
          return Err(InvalidMeasurement);
        }
        var reference := e.reference.value;
        SeenDisagrees(identities, actions, i);
        if reference.measurement in identities && identities[reference.measurement] != reference {
          return Err(InvalidMeasurement);
        }
        SeenMore(identities, actions, i);
        TallyStep(acquisitions, arms, actions, i);
        identities := identities[reference.measurement := reference];
        if IsArm(e.action) {
          arms := arms[reference.measurement := Counted(arms, reference.measurement) + 1];
        } else {
          acquisitions := acquisitions[reference.measurement := Counted(acquisitions, reference.measurement) + 1];
        }
      } else {
        TallyStep(acquisitions, arms, actions, i);
        SeenSame(identities, actions, i);
      }
    }
    CheckEnd(actions);
    return Ok((acquisitions, arms));
  }

  lemma SeenSame(identities: map<nat, Reference>, actions: seq<Scheduled>, i: nat)
    requires i < |actions| && Seen(identities, actions, i) && !ReadoutAction(actions[i].event.action)
    ensures Seen(identities, actions, i + 1)
  {
  }

  lemma NothingTallied(actions: seq<Scheduled>)
    ensures Tallied(map[], map[], actions, 0) && Seen(map[], actions, 0)
  {
  }

  lemma CheckEnd(actions: seq<Scheduled>)
    ensures CheckReadouts(actions, |actions|) == Ok(())
  {
  }

  lemma TallyAll(acquisitions: map<nat, nat>, arms: map<nat, nat>, actions: seq<Scheduled>, id: nat)
    requires Tallied(acquisitions, arms, actions, |actions|)
    ensures Counted(acquisitions, id) == CountOf(actions, Acquire, id) && Counted(arms, id) == CountOf(actions, DiscriminatorArm, id)
  {
    hide Counted, CountOf;
    assert actions[..|actions|] == actions;
  }

  method FindArm(actions: seq<Scheduled>, reference: Reference, start: nat) returns (arm: nat)
    ensures arm == ArmOf(actions, reference, start)
  {
    arm := start;
    for i := 0 to |actions|
      invariant arm == ArmOf(actions[..i], reference, start)
    {
      assert actions[..i + 1][..i] == actions[..i] && actions[..i + 1][i] == actions[i];
      if IsArm(actions[i].event.action) && actions[i].event.reference == Some(reference) {
        arm := actions[i].start;
      }
    }
    assert actions[..|actions|] == actions;
  }

  class Readouts {
    var pending: map<nat, Readout>

    constructor ()
      ensures pending == map[]
    {
      pending := map[];
    }

    /** The readouts of a launch; nothing changes. */
    method PrepareAll(actions: seq<Scheduled>) returns (readouts: Result<seq<Readout>>)
      ensures readouts == PrepareReadouts(actions, pending)
    {
      hide MakeReadout, CountOf, Counted, CheckReadouts, Tallied, ArmOf;
      PrepareParts(actions, pending);
      var counts := CountReadouts(actions);
      if counts.Err? {
        return Err(counts.error);
      }
      var acquisitions, arms := counts.value.0, counts.value.1;
      var made: seq<Readout> := [];
      FollowingNothing(MakeReadouts(actions, 0, pending));
      for i := 0 to |actions|
        modifies {}
        invariant Following(made, MakeReadouts(actions, i, pending)) == MakeReadouts(actions, 0, pending)
      {
        MakeStep(actions, i, pending);
        if actions[i].event.action.kind == Acquire {
          var reference := actions[i].event.reference.value;
          var id := reference.measurement;
          TallyAll(acquisitions, arms, actions, id);
          MakeParts(actions, actions[i], pending);
          if !(Counted(acquisitions, id) == 1 && id !in pending && Counted(arms, id) == if actions[i].event.action.separateArm then 1 else 0) {
            return Err(ErrorCode.Protocol);
          }
          var arm := actions[i].start;
          if actions[i].event.action.separateArm {
            arm := FindArm(actions, reference, actions[i].start);
          }
          var ready := CheckedAdd(Max(actions[i].end, arm), actions[i].event.action.discriminatorDelay);
          if ready.Err? {
            return Err(ready.error);
          }
          var readout := Readout(reference, actions[i].end, arm, ready.value, None, actions[i].core);
          FollowingOne(made, readout, MakeReadouts(actions, i + 1, pending));
          made := made + [readout];
        }
      }
      MakeEnd(actions, pending);
      FollowingAll(made);
      var orphan := HasOrphan(actions, acquisitions, arms);
      if orphan {
        return Err(ErrorCode.Protocol);
      }
      return Ok(made);
    }

    method Insert(readouts: seq<Readout>) returns (outcome: Result<()>)
      modifies this
      ensures
        var r := AddReadouts(old(pending), readouts);
        if r.Ok? then outcome.Ok? && pending == r.value else outcome == Err(r.error)
    {
      assert readouts[0..] == readouts;
      for i := 0 to |readouts|
        invariant AddReadouts(pending, readouts[i..]) == AddReadouts(old(pending), readouts)
      {
        assert readouts[i..][0] == readouts[i] && readouts[i..][1..] == readouts[i + 1..];
        if readouts[i].reference.measurement in pending {
          return Err(ErrorCode.Protocol);
        }
        pending := pending[readouts[i].reference.measurement := readouts[i]];
      }
      return Ok(());
    }

    /** Writes the outcome of every sampled acquisition. */
    method Sample(samples: seq<Reference>, outcomes: seq<bool>) returns (outcome: Result<()>)
      requires |samples| == |outcomes|
      modifies this
      ensures
        var r := SampleAll(old(pending), samples, outcomes);
        if r.Ok? then outcome.Ok? && pending == r.value else outcome == Err(r.error)
    {
      assert samples[0..] == samples && outcomes[0..] == outcomes;
      for i := 0 to |samples|
        invariant SampleAll(pending, samples[i..], outcomes[i..]) == SampleAll(old(pending), samples, outcomes)
      {
        assert samples[i..][0] == samples[i] && samples[i..][1..] == samples[i + 1..];
        assert outcomes[i..][0] == outcomes[i] && outcomes[i..][1..] == outcomes[i + 1..];
        var id := samples[i].measurement;
        if id !in pending {
          return Err(InvalidMeasurement);
        }
        pending := pending[id := pending[id].(sample := Some(outcomes[i]))];
      }
      return Ok(());
    }

    /** Delivers and erases what is ready. */
    method Deliver(ready: seq<nat>) returns (delivered: Result<seq<Completion>>)
      modifies this
      ensures
        var r := DeliverAll(old(pending), ready);
        if r.Ok? then delivered == Ok(r.value.delivered) && pending == r.value.readouts else delivered == Err(r.error)
    {
      var sent: seq<Completion> := [];
      assert ready[0..] == ready;
      DeliveryNothing(DeliverAll(pending, ready));
      for i := 0 to |ready|
        invariant DeliveryAfter(sent, DeliverAll(pending, ready[i..])) == DeliverAll(old(pending), ready)
      {
        assert ready[i..][0] == ready[i] && ready[i..][1..] == ready[i + 1..];
        if ready[i] !in pending || pending[ready[i]].sample.None? {
          return Err(ErrorCode.Protocol);
        }
        var r := pending[ready[i]];
        DeliveryOne(sent, Completion(r.reference, r.sample.value), DeliverAll(pending - {ready[i]}, ready[i + 1..]));
        sent := sent + [Completion(r.reference, r.sample.value)];
        pending := pending - {ready[i]};
      }
      assert sent + [] == sent;
      return Ok(sent);
    }

    method Clear()
      modifies this
      ensures pending == map[]
    {
      pending := map[];
    }
  }

  function DeliveryAfter(sent: seq<Completion>, rest: Result<Delivery>): Result<Delivery> {
    if rest.Err? then rest else Ok(Delivery(rest.value.readouts, sent + rest.value.delivered))
  }

  lemma DeliveryNothing(rest: Result<Delivery>)
    ensures DeliveryAfter([], rest) == rest
  {
    if rest.Ok? {
      assert [] + rest.value.delivered == rest.value.delivered;
    }
  }

  lemma DeliveryOne(sent: seq<Completion>, c: Completion, rest: Result<Delivery>)
    ensures rest.Ok? ==> DeliveryAfter(sent, Ok(Delivery(rest.value.readouts, [c] + rest.value.delivered))) == DeliveryAfter(sent + [c], rest)
  {
    if rest.Ok? {
      assert sent + [c] + rest.value.delivered == sent + ([c] + rest.value.delivered);
    }
  }

  lemma PrepareParts(actions: seq<Scheduled>, pending: map<nat, Readout>)
    ensures
      PrepareReadouts(actions, pending)
      == if CheckReadouts(actions, 0).Err? then Err(CheckReadouts(actions, 0).error)
         else if MakeReadouts(actions, 0, pending).Err? then MakeReadouts(actions, 0, pending)
         else if Orphaned(actions) then Err(ErrorCode.Protocol) else MakeReadouts(actions, 0, pending)
  {
    hide CheckReadouts, MakeReadouts, Orphaned;
  }

  lemma MakeStep(actions: seq<Scheduled>, i: nat, pending: map<nat, Readout>)
    requires i < |actions| && (actions[i].event.action.kind == Acquire ==> actions[i].event.reference.Some?)
    ensures
      var rest := MakeReadouts(actions, i + 1, pending);
      MakeReadouts(actions, i, pending)
      == if actions[i].event.action.kind != Acquire then rest
         else
           var first := MakeReadout(actions, actions[i], pending);
           if first.Err? then Err(first.error) else if rest.Err? then rest else Ok([first.value] + rest.value)
  {
    hide MakeReadout;
  }

  lemma MakeParts(actions: seq<Scheduled>, a: Scheduled, pending: map<nat, Readout>)
    requires a.event.reference.Some?
    ensures
      var ref := a.event.reference.value;
      var arm := if a.event.action.separateArm then ArmOf(actions, ref, a.start) else a.start;
      var ready := CheckedAdd(Max(a.end, arm), a.event.action.discriminatorDelay);
      MakeReadout(actions, a, pending)
      == if !(CountOf(actions, Acquire, ref.measurement) == 1 && ref.measurement !in pending
              && CountOf(actions, DiscriminatorArm, ref.measurement) == if a.event.action.separateArm then 1 else 0) then Err(ErrorCode.Protocol)
         else if ready.Err? then Err(ready.error)
         else Ok(Readout(ref, a.end, arm, ready.value, None, a.core))
  {
    hide CountOf, ArmOf;
  }

  lemma MakeEnd(actions: seq<Scheduled>, pending: map<nat, Readout>)
    ensures MakeReadouts(actions, |actions|, pending) == Ok([])
  {
  }

  lemma {:induction false} CountedSomewhere(actions: seq<Scheduled>, kind: ActionKind, id: nat)
    ensures 0 < CountOf(actions, kind, id) <==> exists k :: 0 <= k < |actions| && Reads(actions[k], kind, id)
    decreases |actions|
  {
    if actions != [] {
      CountedSomewhere(actions[1..], kind, id);
      if k :| 0 <= k < |actions| && Reads(actions[k], kind, id) {
        if 0 < k {
          assert Reads(actions[1..][k - 1], kind, id);
        }
      }
      if k :| 0 <= k < |actions| - 1 && Reads(actions[1..][k], kind, id) {
        assert Reads(actions[k + 1], kind, id);
      }
    }
  }

  /** The last pass: an arm whose measurement has not exactly one acquisition. */
  method HasOrphan(actions: seq<Scheduled>, acquisitions: map<nat, nat>, arms: map<nat, nat>) returns (orphan: bool)
    requires Tallied(acquisitions, arms, actions, |actions|)
    ensures orphan == Orphaned(actions)
  {
    hide CountOf, Counted, Tallied;
    var ids: set<nat> := arms.Keys;
    while ids != {}
      invariant ids <= arms.Keys
      invariant forall id | id in arms && id !in ids :: Counted(arms, id) > 0 ==> Counted(acquisitions, id) == 1
      decreases |ids|
    {
      var id :| id in ids;
      ids := ids - {id};
      if Counted(arms, id) > 0 && Counted(acquisitions, id) != 1 {
        OrphanFound(actions, acquisitions, arms, id);
        return true;
      }
    }
    NoOrphan(actions, acquisitions, arms);
    return false;
  }

  lemma OrphanFound(actions: seq<Scheduled>, acquisitions: map<nat, nat>, arms: map<nat, nat>, id: nat)
    requires Tallied(acquisitions, arms, actions, |actions|) && Counted(arms, id) > 0 && Counted(acquisitions, id) != 1
    ensures Orphaned(actions)
  {
    hide CountOf, Counted, Tallied;
    TallyAll(acquisitions, arms, actions, id);
    CountedSomewhere(actions, DiscriminatorArm, id);
    var k :| 0 <= k < |actions| && Reads(actions[k], DiscriminatorArm, id);
    assert IsArm(actions[k].event.action) && actions[k].event.reference.Some? && actions[k].event.reference.value.measurement == id;
  }

  lemma NoOrphan(actions: seq<Scheduled>, acquisitions: map<nat, nat>, arms: map<nat, nat>)
    requires Tallied(acquisitions, arms, actions, |actions|)
    requires forall id | id in arms :: Counted(arms, id) > 0 ==> Counted(acquisitions, id) == 1
    ensures !Orphaned(actions)
  {
    hide CountOf, Tallied;
    forall i | 0 <= i < |actions| && IsArm(actions[i].event.action) && actions[i].event.reference.Some?
      ensures CountOf(actions, Acquire, actions[i].event.reference.value.measurement) == 1
    {
      var id := actions[i].event.reference.value.measurement;
      TallyAll(acquisitions, arms, actions, id);
      assert Reads(actions[i], DiscriminatorArm, id);
      CountedSomewhere(actions, DiscriminatorArm, id);
    }
  }

  // ---- Filing a launch under its boundaries ----

  method FileReady(boundaries: map<nat, Boundary>, readouts: seq<Readout>) returns (filed: map<nat, Boundary>)
    ensures filed == AddReady(boundaries, readouts)
  {
    filed := boundaries;
    assert readouts[0..] == readouts;
    for i := 0 to |readouts|
      invariant AddReady(filed, readouts[i..]) == AddReady(boundaries, readouts)
    {
      assert readouts[i..][0] == readouts[i] && readouts[i..][1..] == readouts[i + 1..];
      var b := BoundaryAt(filed, readouts[i].ready);
      filed := filed[readouts[i].ready := b.(ready := b.ready + [readouts[i].reference.measurement])];
    }
  }

  method FileActions(boundaries: map<nat, Boundary>, actions: seq<Scheduled>) returns (filed: map<nat, Boundary>)
    ensures filed == AddActions(boundaries, actions)
  {
    filed := boundaries;
    assert actions[0..] == actions;
    for i := 0 to |actions|
      invariant AddActions(filed, actions[i..]) == AddActions(boundaries, actions)
    {
      assert actions[i..][0] == actions[i] && actions[i..][1..] == actions[i + 1..];
      var a := actions[i];
      ghost var before := filed;
      var b := BoundaryAt(filed, a.start);
      filed := filed[a.start := b.(starts := b.starts + [a])];
      var e := BoundaryAt(filed, a.end);
      filed := filed[a.end := e.(ends := e.ends + [a.event.id])];
      assert filed == AddAction(before, a);
    }
  }

  // ---- The checks of a boundary ----

  method SplitActive(active: seq<Scheduled>) returns (drives: seq<Activity>, acquisitions: seq<Activity>)
    ensures drives == ActivitiesOf(active, Pulse) && acquisitions == ActivitiesOf(active, Acquire)
  {
    drives, acquisitions := [], [];
    assert active[0..] == active;
    for i := 0 to |active|
      invariant drives + ActivitiesOf(active[i..], Pulse) == ActivitiesOf(active, Pulse)
      invariant acquisitions + ActivitiesOf(active[i..], Acquire) == ActivitiesOf(active, Acquire)
    {
      var a := active[i];
      ActivityStep(drives, active, i, Pulse);
      ActivityStep(acquisitions, active, i, Acquire);
      if a.event.action.kind == Pulse {
        drives := drives + [Activity(a.event.id, a.start, a.end, a.event.action, None)];
      }
      if a.event.action.kind == Acquire {
        acquisitions := acquisitions + [Activity(a.event.id, a.start, a.end, a.event.action, a.event.reference)];
      }
    }
  }

  lemma ActivityStep(made: seq<Activity>, active: seq<Scheduled>, i: nat, kind: ActionKind)
    requires i < |active|
    ensures
      var a := active[i];
      made + ActivitiesOf(active[i..], kind)
      == (if a.event.action.kind == kind
          then made + [Activity(a.event.id, a.start, a.end, a.event.action, if kind == Acquire then a.event.reference else None)] else made)
         + ActivitiesOf(active[i + 1..], kind)
  {
    assert active[i..][0] == active[i] && active[i..][1..] == active[i + 1..];
  }

  method CollectSamples(active: seq<Scheduled>, ends: seq<nat>) returns (samples: Result<seq<Reference>>)
    ensures samples == Samples(active, ends)
  {
    hide Find;
    var made: seq<Reference> := [];
    assert ends[0..] == ends;
    FollowingNothing(Samples(active, ends));
    for i := 0 to |ends|
      invariant Following(made, Samples(active, ends[i..])) == Samples(active, ends)
    {
      assert ends[i..][0] == ends[i] && ends[i..][1..] == ends[i + 1..];
      var a := Find(active, ends[i]);
      if a.None? {
        return Err(ErrorCode.Protocol);
      }
      if a.value.event.action.kind == Acquire {
        if a.value.event.reference.None? {
          return Err(InvalidMeasurement);
        }
        FollowingOne(made, a.value.event.reference.value, Samples(active, ends[i + 1..]));
        made := made + [a.value.event.reference.value];
      }
    }
    FollowingAll(made);
    return Ok(made);
  }

  // ---- Starts and their gates ----

  /** Gate outputs grouped by gate; no entry means none. */
  function Grouped(outputs: map<nat, seq<Scheduled>>, gate: nat): seq<Scheduled> {
    if gate in outputs then outputs[gate] else []
  }

  ghost predicate GroupsOf(outputs: map<nat, seq<Scheduled>>, starts: seq<Scheduled>) {
    forall gate: nat :: Grouped(outputs, gate) == OutputsOf(starts, gate) && (gate in outputs ==> outputs[gate] != [])
  }

  lemma {:induction false} OutputsAppend(starts: seq<Scheduled>, a: Scheduled, gate: nat)
    ensures OutputsOf(starts + [a], gate)
         == OutputsOf(starts, gate) + (if a.event.action.kind == GateOutput && a.event.action.gate == gate then [a] else [])
    decreases |starts|
  {
    if starts == [] {
      assert [] + [a] == [a] && [a][1..] == [];
    } else {
      assert (starts + [a])[0] == starts[0] && (starts + [a])[1..] == starts[1..] + [a];
      OutputsAppend(starts[1..], a, gate);
    }
  }

  lemma {:induction false} IdealsAppend(starts: seq<Scheduled>, a: Scheduled)
    ensures IdealGates(starts + [a]) == IdealGates(starts) + (if a.event.action.kind == IdealGate then [a.event.action] else [])
    decreases |starts|
  {
    if starts == [] {
      assert [] + [a] == [a] && [a][1..] == [];
    } else {
      assert (starts + [a])[0] == starts[0] && (starts + [a])[1..] == starts[1..] + [a];
      IdealsAppend(starts[1..], a);
    }
  }

  lemma GroupStep(outputs: map<nat, seq<Scheduled>>, starts: seq<Scheduled>, a: Scheduled)
    requires GroupsOf(outputs, starts)
    ensures a.event.action.kind != GateOutput ==> GroupsOf(outputs, starts + [a])
    ensures a.event.action.kind == GateOutput ==> GroupsOf(outputs[a.event.action.gate := Grouped(outputs, a.event.action.gate) + [a]], starts + [a])
  {
    forall gate: nat
      ensures OutputsOf(starts + [a], gate)
           == OutputsOf(starts, gate) + (if a.event.action.kind == GateOutput && a.event.action.gate == gate then [a] else [])
    {
      OutputsAppend(starts, a, gate);
    }
    hide OutputsOf;
    if a.event.action.kind == GateOutput {
      var at := a.event.action.gate;
      var more: map<nat, seq<Scheduled>> := outputs[at := Grouped(outputs, at) + [a]];
      forall gate: nat
        ensures Grouped(more, gate) == OutputsOf(starts + [a], gate) && (gate in more ==> more[gate] != [])
      {
        assert Grouped(outputs, gate) == OutputsOf(starts, gate);
      }
    }
  }

  /** Does the action's resolved form touch a sampled target? */
  method MeetsSample(targets: seq<nat>, sampled: set<nat>) returns (met: bool)
    ensures met <==> exists q :: q in targets && q in sampled
  {
    for i := 0 to |targets|
      invariant forall k | 0 <= k < i :: targets[k] !in sampled
    {
      if targets[i] in sampled {
        return true;
      }
    }
    return false;
  }

  lemma StartStep(p: Profile, samples: seq<Reference>, starts: seq<Scheduled>, i: nat)
    requires i < |starts|
    ensures
      CheckStarts(p, samples, starts[i..])
      == if CheckStart(p, samples, starts[i]).Err? then CheckStart(p, samples, starts[i]) else CheckStarts(p, samples, starts[i + 1..])
  {
    assert starts[i..][0] == starts[i] && starts[i..][1..] == starts[i + 1..];
    hide CheckStart;
  }

  method CheckAndGroup(p: Profile, samples: seq<Reference>, starts: seq<Scheduled>)
    returns (outcome: Result<()>, gates: seq<Action>, outputs: map<nat, seq<Scheduled>>)
    ensures outcome == CheckStarts(p, samples, starts)
    ensures outcome.Ok? ==> gates == IdealGates(starts) && GroupsOf(outputs, starts)
  {
    hide CheckStarts, IdealGates, GroupsOf, Grouped, Electronics.Validate;
    gates, outputs := [], map[];
    var sampled := set k | 0 <= k < |samples| :: samples[k].target;
    NoStarts(p, samples, starts);
    for i := 0 to |starts|
      invariant CheckStarts(p, samples, starts[i..]) == CheckStarts(p, samples, starts)
      invariant gates == IdealGates(starts[..i]) && GroupsOf(outputs, starts[..i])
    {
      var a := starts[i];
      StartStep(p, samples, starts, i);
      assert starts[..i + 1] == starts[..i] + [a];
      IdealsAppend(starts[..i], a);
      GroupStep(outputs, starts[..i], a);
      var valid := Electronics.Validate(p, a.event.action);
      if valid.Err? {
        return valid, [], map[];
      }
      if IsGate(a.event.action) {
        var met := MeetsSample(a.resolved.targets, sampled);
        if met {
          return Err(ResourceConflict), [], map[];
        }
        if a.event.action.kind == GateOutput {
          outputs := outputs[a.event.action.gate := Grouped(outputs, a.event.action.gate) + [a]];
        } else {
          gates := gates + [a.event.action];
        }
      }
    }
    assert starts[..|starts|] == starts;
    return Ok(()), gates, outputs;
  }

  lemma NoStarts(p: Profile, samples: seq<Reference>, starts: seq<Scheduled>)
    ensures starts[0..] == starts && IdealGates(starts[..0]) == [] && GroupsOf(map[], starts[..0]) && CheckStarts(p, samples, starts[|starts|..]) == Ok(())
  {
  }

  method CountOutputs(outputs: seq<Scheduled>, input: GateInput, now: nat, duration: nat) returns (count: Result<nat>)
    ensures count == CountInput(outputs, input, now, duration)
  {
    var n := 0;
    assert outputs[0..] == outputs;
    CountNothing(CountInput(outputs, input, now, duration));
    for i := 0 to |outputs|
      invariant Counting(n, CountInput(outputs[i..], input, now, duration)) == CountInput(outputs, input, now, duration)
    {
      assert outputs[i..][0] == outputs[i] && outputs[i..][1..] == outputs[i + 1..];
      if InputOf(outputs[i]) == input {
        var end := CheckedAdd(now, duration);
        if end.Err? {
          return Err(end.error);
        }
        if outputs[i].end == end.value {
          n := n + 1;
        }
      }
    }
    return Ok(n);
  }

  function Counting(n: nat, rest: Result<nat>): Result<nat> {
    if rest.Err? then rest else Ok(n + rest.value)
  }

  lemma CountNothing(rest: Result<nat>)
    ensures Counting(0, rest) == rest
  {
  }

  /** The two-qubit gates in the order of their names, each checked for one output on every input. */
  method PairOutputs(p: Profile, now: nat, starts: seq<Scheduled>, outputs: map<nat, seq<Scheduled>>) returns (gates: Result<seq<Action>>)
    requires GroupsOf(outputs, starts)
    ensures gates == PairedGates(p, now, starts, 0)
  {
    hide OutputsOf, CountInput, GateAction;
    var made: seq<Action> := [];
    FollowingNothing(PairedGates(p, now, starts, 0));
    for gate := 0 to |p.gates|
      invariant Following(made, PairedGates(p, now, starts, gate)) == PairedGates(p, now, starts, 0)
    {
      assert Grouped(outputs, gate) == OutputsOf(starts, gate);
      if gate in outputs {
        var g := p.gates[gate];
        if |outputs[gate]| != |g.inputs| {
          return Err(GateInputMismatch);
        }
        var complete := HasInputs(outputs[gate], g.inputs, now, g.duration);
        if complete.Err? {
          return Err(complete.error);
        }
        var action := GateAction(p, gate);
        if action.Err? {
          return Err(action.error);
        }
        FollowingOne(made, action.value, PairedGates(p, now, starts, gate + 1));
        made := made + [action.value];
      }
    }
    FollowingAll(made);
    return Ok(made);
  }

  method HasInputs(outputs: seq<Scheduled>, inputs: seq<GateInput>, now: nat, duration: nat) returns (outcome: Result<()>)
    ensures outcome == CheckInputs(outputs, inputs, now, duration)
  {
    hide CountInput;
    assert inputs[0..] == inputs;
    for i := 0 to |inputs|
      invariant CheckInputs(outputs, inputs[i..], now, duration) == CheckInputs(outputs, inputs, now, duration)
    {
      assert inputs[i..][0] == inputs[i] && inputs[i..][1..] == inputs[i + 1..];
      var count := CountOutputs(outputs, inputs[i], now, duration);
      if count.Err? {
        return Err(count.error);
      }
      if count.value != 1 {
        return Err(GateInputMismatch);
      }
    }
    return Ok(());
  }

  // ---- Ends and starts ----

  method EraseEnded(active: seq<Scheduled>, ends: seq<nat>) returns (left: seq<Scheduled>)
    ensures left == RemoveAll(active, ends)
  {
    hide Remove;
    left := active;
    assert ends[0..] == ends;
    for i := 0 to |ends|
      invariant RemoveAll(left, ends[i..]) == RemoveAll(active, ends)
    {
      assert ends[i..][0] == ends[i] && ends[i..][1..] == ends[i + 1..];
      left := Remove(left, ends[i]);
    }
  }

  method StartActions(active: seq<Scheduled>, starts: seq<Scheduled>) returns (started: Result<seq<Scheduled>>)
    ensures started == StartAll(active, starts)
  {
    hide Find, Insert;
    var now := active;
    assert starts[0..] == starts;
    for i := 0 to |starts|
      invariant StartAll(now, starts[i..]) == StartAll(active, starts)
    {
      assert starts[i..][0] == starts[i] && starts[i..][1..] == starts[i + 1..];
      if Find(now, starts[i].event.id).Some? {
        return Err(ErrorCode.Protocol);
      }
      now := Insert(now, starts[i]);
    }
    return Ok(now);
  }

  // ---- The device ----

  class ControlElectronics {
    const profile: Profile
    const reservations: ResourceReservations
    const readouts: Readouts
    const backend: BackendExecution
    var boundaries: map<nat, Boundary>
    var active: seq<Scheduled>
    var lastTick: nat
    var processed: Option<nat>

    ghost predicate Valid() {
      backend.backend == profile.backend && backend.limit == profile.limit
    }

    ghost function View(): State
      reads this, reservations, readouts, backend
    {
      State(reservations.table, boundaries, active, readouts.pending, lastTick, processed, backend.View())
    }

    constructor (profile: Profile)
      requires 0 < profile.limit
      ensures Valid() && this.profile == profile && fresh(reservations) && fresh(readouts) && fresh(backend)
      ensures View() == State([], map[], [], map[], 0, None, Execution([], 0))
    {
      this.profile := profile;
      reservations := new ResourceReservations();
      readouts := new Readouts();
      backend := new BackendExecution(profile.backend, profile.limit);
      boundaries, active, lastTick, processed := map[], [], 0, None;
    }

    /** Everything a launch must pass before it is accepted; nothing changes. */
    method PrepareLaunch(l: Launch) returns (prepared: Result<Prepared>)
      requires Valid()
      ensures prepared == Prepare(profile, View(), l)
    {
      hide Check, Resolve, PrepareReadouts;
      var actions := ResolveLaunch(profile, l);
      if actions.Err? {
        return Err(actions.error);
      }
      var free := reservations.CheckLaunch(actions.value);
      if free.Err? {
        return Err(free.error);
      }
      var made := readouts.PrepareAll(actions.value);
      if made.Err? {
        return Err(made.error);
      }
      if processed.Some? && l.fireTick <= processed.value {
        return Err(ErrorCode.Protocol);
      }
      return Ok(Prepared(actions.value, made.value));
    }

    method AcceptLaunch(l: Launch) returns (outcome: Result<()>)
      requires Valid()
      modifies this, reservations, readouts
      ensures Valid()
      ensures
        var r := Accept(profile, old(View()), l);
        if r.Ok? then outcome.Ok? && View() == r.value else outcome == Err(r.error)
    {
      hide Check, Resolve, PrepareReadouts, AddReadouts, AddReady, AddActions;
      var prepared := PrepareLaunch(l);
      if prepared.Err? {
        return Err(prepared.error);
      }
      var reserved := reservations.Reserve(prepared.value.actions);
      PreparedIsFree(profile, old(View()), l);
      var inserted := readouts.Insert(prepared.value.readouts);
      if inserted.Err? {
        return inserted;
      }
      var ready := FileReady(boundaries, prepared.value.readouts);
      boundaries := FileActions(ready, prepared.value.actions);
      return Ok(());
    }

    /** The tick of the next boundary. */
    method NextBoundary() returns (first: Option<nat>)
      ensures FirstAt(boundaries, first)
    {
      var ticks := boundaries.Keys;
      first := None;
      while ticks != {}
        invariant ticks <= boundaries.Keys
        invariant first.None? ==> ticks == boundaries.Keys
        invariant first.Some? ==> first.value in boundaries && forall k | k in boundaries && k !in ticks :: first.value <= k
        decreases |ticks|
      {
        var t :| t in ticks;
        ticks := ticks - {t};
        if first.None? || t < first.value {
          first := Some(t);
        }
      }
    }

    /** The checks of a boundary: all come before the backend is touched. */
    method PlanBoundary(now: nat) returns (work: Result<Work>)
      requires Valid() && now in boundaries
      ensures work == CheckBoundary(profile, View(), now)
    {
      hide Samples, DistinctTargets, CheckStarts, PairedGates, IdealGates, GroupsOf;
      var b := boundaries[now];
      var samples := CollectSamples(active, b.ends);
      if samples.Err? {
        return Err(samples.error);
      }
      var distinct := Distinct(samples.value);
      if !distinct {
        return Err(ResourceConflict);
      }
      var started, gates, outputs := CheckAndGroup(profile, samples.value, b.starts);
      if started.Err? {
        return Err(started.error);
      }
      var paired := PairOutputs(profile, now, b.starts, outputs);
      if paired.Err? {
        return Err(paired.error);
      }
      return Ok(Work(samples.value, gates + paired.value));
    }

    /** Evolves the backend to now and measures the samples. */
    method Observe(now: nat, work: Work) returns (outcomes: Result<seq<bool>>)
      requires Valid()
      modifies backend
      ensures
        var r := MeasureWork(profile, old(View()), now, work);
        if r.Ok? then outcomes == Ok(r.value.outcomes) && backend.View() == r.value.execution else outcomes == Err(r.error)
    {
      hide Evolve, Measure, ActivitiesOf;
      if lastTick < now {
        var drives, acquisitions := SplitActive(active);
        var evolved, _ := backend.EvolveTo(lastTick, now, drives, acquisitions);
        if evolved.Err? {
          return Err(evolved.error);
        }
      }
      var measured, _ := backend.MeasureNow(now, work.samples);
      return measured;
    }

    /** One boundary: samples, ends, gates, starts and deliveries, in this order. */
    method ProcessBoundary(now: nat) returns (done: Result<Option<Processed>>)
      requires Valid()
      modifies this, reservations, readouts, backend
      ensures Valid()
      ensures
        var r := Process(profile, old(View()), now);
        if r.Err? then done == Err(r.error) else done.Ok? && done == r && View() == if r.value.None? then old(View()) else r.value.value.state
    {
      hide CheckBoundary, MeasureWork, SampleAll, ApplyGates, StartAll, RemoveAll, DeliverAll, Kept;
      if now < lastTick || (processed.Some? && now <= processed.value) {
        return Err(ErrorCode.Protocol);
      }
      if now !in boundaries {
        return Ok(None);
      }
      var b := boundaries[now];
      var work := PlanBoundary(now);
      if work.Err? {
        return Err(work.error);
      }
      var outcomes := Observe(now, work.value);
      if outcomes.Err? {
        return Err(outcomes.error);
      }
      if |work.value.samples| != |outcomes.value| {
        return Err(BackendFailure);
      }
      var sampled := readouts.Sample(work.value.samples, outcomes.value);
      if sampled.Err? {
        return Err(sampled.error);
      }
      var left := EraseEnded(active, b.ends);
      var applied, _ := backend.Apply(now, work.value.gates);
      if applied.Err? {
        return Err(applied.error);
      }
      var started := StartActions(left, b.starts);
      if started.Err? {
        return Err(started.error);
      }
      active := started.value;
      var delivered := readouts.Deliver(b.ready);
      if delivered.Err? {
        return Err(delivered.error);
      }
      lastTick, processed := now, Some(now);
      boundaries := boundaries - {now};
      reservations.DiscardBefore(now);
      return Ok(Some(Processed(State(reservations.table, boundaries, active, readouts.pending, now, Some(now), Execution(backend.pending, backend.committed)),
                               work.value, outcomes.value, delivered.value)));
    }

    method FinalizeRun(now: nat) returns (outcome: Result<()>)
      requires Valid()
      modifies this, backend
      ensures Valid()
      ensures
        var r := Finalize(profile, old(View()), now);
        if r.Ok? then outcome.Ok? && View() == r.value else outcome == Err(r.error)
    {
      hide Evolve, Flush;
      if boundaries != map[] || active != [] || readouts.pending != map[] || now < lastTick {
        return Err(ErrorCode.Protocol);
      }
      if lastTick < now {
        var evolved, _ := backend.EvolveTo(lastTick, now, [], []);
        if evolved.Err? {
          return Err(evolved.error);
        }
      }
      lastTick := now;
      var flushed, _ := backend.ExecutePending(0);
      if flushed.Err? {
        return Err(flushed.error);
      }
      return Ok(());
    }

    /** A reset drops all device work and restarts the backend at now. */
    method Reset(now: nat)
      requires Valid()
      modifies this, reservations, readouts, backend
      ensures Valid() && View() == State([], map[], [], map[], now, None, Execution([], now))
    {
      boundaries, active := map[], [];
      readouts.Clear();
      reservations.Clear();
      backend.Reset(now);
      lastTick, processed := now, None;
    }
  }

  lemma PreparedIsFree(p: Profile, s: State, l: Launch)
    requires Prepare(p, s, l).Ok?
    ensures Check(s.table, Prepare(p, s, l).value.actions) == Ok(())
  {
    hide Check, Resolve, PrepareReadouts;
    UnitIsUnit(Check(s.table, Prepare(p, s, l).value.actions));
  }
}
