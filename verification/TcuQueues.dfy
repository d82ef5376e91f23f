/** The port queues are the queued points' events split by port: matching a point against them never fails. */
module TcuQueues {
  import opened Errors
  import opened Protocol
  import opened Tcu

  /** An admitted request and the due cycle it was given. */
  datatype Admission = Admission(request: TimingEvents, due: nat)

  function QueueOf(waiting: seq<Admission>): (queue: seq<QueuedPoint>)
    ensures |queue| == |waiting|
  {
    seq(|waiting|, i requires 0 <= i < |waiting| => QueuedPoint(waiting[i].request.point, waiting[i].due))
  }

  /** One port's events of the waiting points, in label order. */
  function PortQueue(waiting: seq<Admission>, port: nat): seq<Event> {
    if waiting == [] then [] else OnPort(waiting[0].request.events, port) + PortQueue(waiting[1..], port)
  }

  function SyncCount(waiting: seq<Admission>): nat {
    if waiting == [] then 0 else |waiting[0].request.point.synchronizations| + SyncCount(waiting[1..])
  }

  function PolicyFold(admitted: seq<Admission>): Policy {
    if admitted == [] then Strict
    else PolicyAfter(admitted[|admitted| - 1].request.point, PolicyFold(admitted[..|admitted| - 1]))
  }

  /** Valid requests with consecutive labels. */
  ghost predicate Labelled(waiting: seq<Admission>, first: nat, cfg: TimingConfig) {
    forall i | 0 <= i < |waiting| ::
      ValidRequest(waiting[i].request, cfg) && waiting[i].request.point.labelId == first + i
  }

  ghost predicate QueuesHold(cfg: TcuConfig, s: State, waiting: seq<Admission>) {
    && s.timing == QueueOf(waiting)
    && |s.events| == cfg.timing.ports
    && (forall p | 0 <= p < |s.events| :: s.events[p] == PortQueue(waiting, p))
    && s.syncSize == SyncCount(waiting)
  }

  lemma {:induction false} PortQueueAppends(xs: seq<Admission>, x: Admission, port: nat)
    ensures PortQueue(xs + [x], port) == PortQueue(xs, port) + OnPort(x.request.events, port)
    ensures SyncCount(xs + [x]) == SyncCount(xs) + |x.request.point.synchronizations|
    decreases |xs|
  {
    if xs == [] {
      assert (xs + [x])[1..] == [];
    } else {
      hide OnPort;
      assert (xs + [x])[0] == xs[0] && (xs + [x])[1..] == xs[1..] + [x];
      PortQueueAppends(xs[1..], x, port);
      var own := OnPort(xs[0].request.events, port);
      assert PortQueue(xs + [x], port) == own + PortQueue(xs[1..] + [x], port);
      assert own + (PortQueue(xs[1..], port) + OnPort(x.request.events, port)) == PortQueue(xs, port) + OnPort(x.request.events, port);
    }
  }

  lemma {:induction false} OnPortMembers(events: seq<Event>, port: nat)
    ensures forall e :: e in OnPort(events, port) <==> e in events && e.action.port == port
    decreases |events|
  {
    if events != [] {
      OnPortMembers(events[1..], port);
      assert events == [events[0]] + events[1..];
    }
  }

  ghost predicate DistinctIds(events: seq<Event>) {
    forall i, j | 0 <= i < j < |events| :: events[i].id != events[j].id
  }

  lemma {:induction false} OnPortDistinct(events: seq<Event>, port: nat)
    requires DistinctIds(events)
    ensures DistinctIds(OnPort(events, port))
    decreases |events|
  {
    if events != [] {
      assert forall i | 0 <= i < |events| - 1 :: events[1..][i] == events[i + 1];
      OnPortDistinct(events[1..], port);
      OnPortMembers(events[1..], port);
    }
  }

  /** Later points' events carry later labels. */
  lemma {:induction false} LaterLabels(waiting: seq<Admission>, first: nat, cfg: TimingConfig, port: nat)
    requires Labelled(waiting, first, cfg)
    ensures forall e | e in PortQueue(waiting, port) :: first <= e.labelId
    decreases |waiting|
  {
    if waiting != [] {
      OnPortMembers(waiting[0].request.events, port);
      assert ValidRequest(waiting[0].request, cfg);
      LaterLabels(waiting[1..], first + 1, cfg, port);
    }
  }

  /** A point's own events head each port queue, and the next label differs. */
  lemma HeadOfPort(waiting: seq<Admission>, first: nat, cfg: TimingConfig, port: nat)
    requires waiting != [] && Labelled(waiting, first, cfg)
    ensures
      var own, rest := OnPort(waiting[0].request.events, port), PortQueue(waiting[1..], port);
      && PortQueue(waiting, port) == own + rest
      && (forall e | e in own :: e.labelId == first)
      && (rest != [] ==> first < rest[0].labelId)
  {
    OnPortMembers(waiting[0].request.events, port);
    LaterLabels(waiting[1..], first + 1, cfg, port);
    assert ValidRequest(waiting[0].request, cfg);
  }

  lemma {:induction false} DropOwn(own: seq<Event>, rest: seq<Event>, labelId: nat)
    requires forall e | e in own :: e.labelId == labelId
    requires rest != [] ==> rest[0].labelId != labelId
    ensures DropLabel(own + rest, labelId) == rest
    decreases |own|
  {
    if own == [] {
      assert own + rest == rest;
    } else {
      assert (own + rest)[0] == own[0] && (own + rest)[1..] == own[1..] + rest;
      DropOwn(own[1..], rest, labelId);
    }
  }

  // ---- Gathering ----

  /** m finds exactly the events of `events` on ports below `bound`, by id. */
  ghost predicate Indexes(m: map<nat, Event>, found: set<Event>) {
    && (forall e | e in found :: e.id in m && m[e.id] == e)
    && (forall id | id in m :: m[id] in found && m[id].id == id)
  }

  lemma {:induction false} GatherOwn(own: seq<Event>, rest: seq<Event>, labelId: nat, m: map<nat, Event>, found: set<Event>)
    requires (forall e | e in own :: e.labelId == labelId) && (rest != [] ==> rest[0].labelId != labelId)
    requires Indexes(m, found) && DistinctIds(own) && forall e | e in own :: e.id !in m
    ensures
      var r := GatherPort(own + rest, labelId, m);
      r.Ok? && Indexes(r.value, found + set e | e in own)
    decreases |own|
  {
    if own == [] {
      assert own + rest == rest;
      assert found + (set e | e in own) == found;
    } else {
      var e := own[0];
      assert forall i | 0 <= i < |own| - 1 :: own[1..][i] == own[i + 1];
      IndexAdds(m, found, e);
      GatherStep(own, rest, labelId, m);
      hide Indexes, GatherPort;
      GatherOwn(own[1..], rest, labelId, m[e.id := e], found + {e});
      assert found + {e} + (set x | x in own[1..]) == found + set x | x in own;
    }
  }

  lemma IndexAdds(m: map<nat, Event>, found: set<Event>, e: Event)
    requires Indexes(m, found) && e.id !in m
    ensures Indexes(m[e.id := e], found + {e})
  {
  }

  lemma GatherStep(own: seq<Event>, rest: seq<Event>, labelId: nat, m: map<nat, Event>)
    requires own != [] && own[0].labelId == labelId && own[0].id !in m
    ensures GatherPort(own + rest, labelId, m) == GatherPort(own[1..] + rest, labelId, m[own[0].id := own[0]])
  {
    assert (own + rest)[1..] == own[1..] + rest;
  }

  function Below(events: seq<Event>, bound: nat): set<Event> {
    set e | e in events && e.action.port < bound
  }

  lemma {:induction false} GatherPorts(queues: seq<seq<Event>>, waiting: seq<Admission>, first: nat, cfg: TimingConfig,
                                       p: nat, m: map<nat, Event>)
    requires waiting != [] && Labelled(waiting, first, cfg) && p <= |queues| == cfg.ports
    requires forall q | 0 <= q < |queues| :: queues[q] == PortQueue(waiting, q)
    requires Indexes(m, Below(waiting[0].request.events, p))
    ensures
      var r := Gather(queues[p..], first, m);
      r.Ok? && Indexes(r.value, set e | e in waiting[0].request.events)
    decreases |queues| - p
  {
    hide ValidEvent, OnPort, PortQueue, GatherPort;
    var events := waiting[0].request.events;
    assert ValidRequest(waiting[0].request, cfg);
    if p == |queues| {
      assert forall e | e in events :: ValidEvent(waiting[0].request, cfg, e);
      PortsBelow(waiting[0].request, cfg);
      assert queues[p..] == [];
    } else {
      HeadOfPort(waiting, first, cfg, p);
      OnPortMembers(events, p);
      OnPortDistinct(events, p);
      var own := OnPort(events, p);
      OwnIdsFresh(events, p, m);
      GatherOwn(own, PortQueue(waiting[1..], p), first, m, Below(events, p));
      assert Below(events, p) + (set e | e in own) == Below(events, p + 1);
      assert queues[p..][0] == queues[p] && queues[p..][1..] == queues[p + 1..];
      NoOrphan(waiting, first, cfg, p);
      GatherPorts(queues, waiting, first, cfg, p + 1, GatherPort(queues[p], first, m).value);
    }
  }

  lemma PortsBelow(r: TimingEvents, cfg: TimingConfig)
    requires forall e | e in r.events :: ValidEvent(r, cfg, e)
    ensures Below(r.events, cfg.ports) == set e | e in r.events
  {
  }

  lemma OwnIdsFresh(events: seq<Event>, p: nat, m: map<nat, Event>)
    requires DistinctIds(events) && Indexes(m, Below(events, p))
    ensures forall e | e in OnPort(events, p) :: e.id !in m
  {
    OnPortMembers(events, p);
    forall e | e in OnPort(events, p)
      ensures e.id !in m
    {
      if e.id in m {
        var f := m[e.id];
        SameId(events, e, f);
      }
    }
  }

  lemma SameId(events: seq<Event>, e: Event, f: Event)
    requires DistinctIds(events) && e in events && f in events && e.id == f.id
    ensures e == f
  {
    var i :| 0 <= i < |events| && events[i] == e;
    var j :| 0 <= j < |events| && events[j] == f;
    assert i < j || j < i || i == j;
  }

  lemma NoOrphan(waiting: seq<Admission>, first: nat, cfg: TimingConfig, p: nat)
    requires waiting != [] && Labelled(waiting, first, cfg)
    ensures PortQueue(waiting, p) != [] ==> first <= PortQueue(waiting, p)[0].labelId
  {
    LaterLabels(waiting, first, cfg, p);
    if PortQueue(waiting, p) != [] {
      assert PortQueue(waiting, p)[0] in PortQueue(waiting, p);
    }
  }

  lemma {:induction false} IdSetSize(events: seq<Event>)
    requires DistinctIds(events)
    ensures |IdSet(events)| == |events|
    decreases |events|
  {
    if events != [] {
      var tail := events[1..];
      assert forall i | 0 <= i < |tail| :: tail[i] == events[i + 1];
      IdSetSize(tail);
      assert IdSet(events) == {events[0].id} + IdSet(tail);
      assert events[0].id !in IdSet(tail);
    }
  }

  /** At the head's label, gathering the port queues finds exactly the head's events. */
  lemma GatherFindsHead(cfg: TcuConfig, s: State, waiting: seq<Admission>, first: nat)
    requires waiting != [] && Labelled(waiting, first, cfg.timing) && QueuesHold(cfg, s, waiting)
    ensures
      var r := Gather(s.events, first, map[]);
      && r.Ok? && Indexes(r.value, set e | e in waiting[0].request.events)
      && |r.value| == |waiting[0].request.point.manifest|
  {
    var events := waiting[0].request.events;
    assert ValidRequest(waiting[0].request, cfg.timing);
    assert Below(events, 0) == {};
    assert s.events[0..] == s.events;
    hide ValidEvent, PortQueue;
    GatherPorts(s.events, waiting, first, cfg.timing, 0, map[]);
    var m := Gather(s.events, first, map[]).value;
    assert m.Keys == IdSet(events);
    IdSetSize(events);
    assert |m| == |m.Keys|;
  }

  // ---- Selection ----

  /** The events that the flags permit, in order. */
  function Allowed(events: seq<Event>, flags: seq<FlagRegister>): seq<Event> {
    if events == [] then []
    else (if Permitted(events[0], flags) == Ok(true) then [events[0]] else []) + Allowed(events[1..], flags)
  }

  /** The events that the flags cancel, in order. */
  function Refused(events: seq<Event>, flags: seq<FlagRegister>): seq<Event> {
    if events == [] then []
    else (if Permitted(events[0], flags) == Ok(false) then [events[0]] else []) + Refused(events[1..], flags)
  }

  ghost predicate Decidable(events: seq<Event>, flags: seq<FlagRegister>) {
    forall e | e in events :: Permitted(e, flags).Ok?
  }

  lemma {:induction false} SelectSplits(events: seq<Event>, manifest: seq<nat>, m: map<nat, Event>, flags: seq<FlagRegister>, acc: Selection)
    requires |manifest| == |events| && forall i | 0 <= i < |events| :: manifest[i] == events[i].id
    requires forall e | e in events :: e.id in m && m[e.id] == e
    ensures
      var r := Select(manifest, m, flags, acc);
      && (r.Err? ==> r.error == InvalidOperand)
      && (r.Ok? <==> Decidable(events, flags))
      && (r.Ok? ==> r.value == Selection(acc.launched + Allowed(events, flags), acc.cancelled + Refused(events, flags)))
    decreases |events|
  {
    hide Permitted;
    if events == [] {
      assert manifest == [];
      assert acc.launched + [] == acc.launched && acc.cancelled + [] == acc.cancelled;
    } else {
      var e, rest := events[0], events[1..];
      assert e.id == manifest[0] && e in events;
      assert forall x | x in rest :: x in events;
      PermittedError(e, flags);
      if Permitted(e, flags) == Ok(true) {
        SelectSplits(rest, manifest[1..], m, flags, acc.(launched := acc.launched + [e]));
        assert acc.launched + [e] + Allowed(rest, flags) == acc.launched + Allowed(events, flags);
        assert Refused(events, flags) == Refused(rest, flags);
      } else if Permitted(e, flags) == Ok(false) {
        SelectSplits(rest, manifest[1..], m, flags, acc.(cancelled := acc.cancelled + [e]));
        assert acc.cancelled + [e] + Refused(rest, flags) == acc.cancelled + Refused(events, flags);
        assert Allowed(events, flags) == Allowed(rest, flags);
      }
      assert events == [e] + rest;
    }
  }

  lemma PermittedError(e: Event, flags: seq<FlagRegister>)
    ensures Permitted(e, flags).Err? ==> Permitted(e, flags).error == InvalidOperand
    ensures Permitted(e, flags).Ok? ==> Permitted(e, flags) == Ok(true) || Permitted(e, flags) == Ok(false)
  {
  }

  /** Every event is launched or cancelled, and only once. */
  lemma {:induction false} EveryEventOnce(events: seq<Event>, flags: seq<FlagRegister>)
    requires Decidable(events, flags)
    ensures multiset(Allowed(events, flags)) + multiset(Refused(events, flags)) == multiset(events)
    decreases |events|
  {
    hide Permitted;
    if events != [] {
      var e, rest := events[0], events[1..];
      assert events == [e] + rest && forall x | x in rest :: x in events;
      EveryEventOnce(rest, flags);
      PermittedError(e, flags);
      assert e in events;
      assert multiset(events) == multiset{e} + multiset(rest);
    }
  }
}
