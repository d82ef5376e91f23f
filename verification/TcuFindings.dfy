/** A run of the TCU in which a request that full queues keep waiting becomes late. */
module TcuFindings {
  import opened Errors
  import opened Time
  import opened Protocol
  import opened Tcu
  import opened TcuQueues
  import opened TcuRuns

  /** A timing queue with room for one point, on a clock with an edge on every tick. */
  const ACTION := Action(IdealGate, 0, 0, 1, [0], [], Always, 0, false, 0)
  const NARROW := TcuConfig(TimingConfig(1, 1, 1, 1, 1, false, map[(0, 0) := [ACTION]]), Clock(1, 0), 0, 1, 1)

  /** Two points one cycle apart, the first one with an event. */
  const EVENT := Event(1, 0, 1, 0, 0, ACTION, None)
  const FIRST := TimingEvents(Point(1, 1, [1], [], Strict), [EVENT])
  const SECOND := TimingEvents(Point(2, 1, [], [], Strict), [])

  function NoObjection(batch: Triggered): Result<()> { Ok(()) }

  function Presenting(request: TimingEvents): Input {
    Input(Some(request), [], false, NoObjection, None)
  }

  const OCCUPIED := State([QueuedPoint(FIRST.point, 1)], [[EVENT]], [CLEAR_FLAGS], 1, 1, false, Strict, Strict, 0, 0)
  const FIRED := State([], [[]], [CLEAR_FLAGS], 1, 1, false, Strict, Strict, 0, 0)

  lemma EmptyState()
    ensures NARROW.Valid() && Empty(NARROW) == State([], [[]], [CLEAR_FLAGS], 0, 0, false, Strict, Strict, 0, 0)
  {
  }

  lemma FirstIsValid()
    ensures Validate(FIRST, NARROW.timing) == Ok(())
  {
    var cfg := NARROW.timing;
    assert CheckEvents(FIRST, cfg, 1) == Ok(());
    assert FIRST.events[..1] == [EVENT] && FIRST.events[..0] == [];
    assert OnPort([EVENT], 0) == [EVENT];
    assert cfg.Mapping(0, 0) == Ok([ACTION]) && EVENT.action in [ACTION];
    assert CheckEvents(FIRST, cfg, 0) == Ok(());
  }

  lemma FirstIsAdmitted()
    ensures
      var s := State([], [[]], [CLEAR_FLAGS], 0, 0, false, Strict, Strict, 0, 0);
      && PrepareAdmission(NARROW, s, 0, FIRST, PauseState(false, false)) == Ok(Some(1))
      && CommitAdmission(s, FIRST, 1) == OCCUPIED
  {
    FirstIsValid();
    hide Validate;
    assert OnPort([EVENT], 0) == [EVENT] && [] + [EVENT] == [EVENT];
    assert [] + [QueuedPoint(FIRST.point, 1)] == [QueuedPoint(FIRST.point, 1)];
  }

  lemma FirstFires(input: Input)
    requires input.preflight == NoObjection
    ensures PrepareTrigger(NARROW, OCCUPIED, 1, TimingState(true, 1, PauseState(false, false)), input) == Ok(Some(Trigger(Triggered(1, 1, [EVENT]), [], [])))
    ensures CommitTrigger(OCCUPIED) == FIRED
  {
    assert [EVENT][1..] == [] && GatherPort([], 1, map[1 := EVENT]) == Ok(map[1 := EVENT]);
    assert [[EVENT]][1..] == [] && Gather([[EVENT]], 1, map[]) == Ok(map[1 := EVENT]);
    assert [1][1..] == [] && [] + [EVENT] == [EVENT];
    assert Select([1], map[1 := EVENT], [CLEAR_FLAGS], Selection([], [])) == Ok(Selection([EVENT], []));
    assert input.preflight(Triggered(1, 1, [EVENT])) == NoObjection(Triggered(1, 1, [EVENT]));
    assert |map[1 := EVENT]| == 1;
    assert DropLabel([EVENT], 1) == [];
  }

  lemma SecondWaits()
    ensures PrepareAdmission(NARROW, OCCUPIED, 1, SECOND, PauseState(false, false)) == Ok(None)
    ensures PrepareAdmission(NARROW, FIRED, 2, SECOND, PauseState(false, false)) == Err(LateAdmission)
  {
  }

  const WAITING := Run(OCCUPIED, [Admission(FIRST, 1)], [], 1, 0, 1)

  lemma FirstEdge()
    ensures NARROW.Valid() && Advance(NARROW, Begin(NARROW, 0), Presenting(FIRST)) == Ok(WAITING)
  {
    EmptyState();
    FirstIsAdmitted();
    var s := Empty(NARROW);
    assert CurrentTimingState(NARROW, s, 0, false) == TimingState(true, 0, PauseState(false, false));
    hide PrepareAdmission, CommitAdmission, CurrentTimingState, Empty;
    assert PrepareTrigger(NARROW, s, 0, TimingState(true, 0, PauseState(false, false)), Presenting(FIRST)) == Ok(None);
    assert [] + [Admission(FIRST, 1)] == [Admission(FIRST, 1)];
  }

  const DRAINED := Run(FIRED, [Admission(FIRST, 1)], [Firing(1, 0, [CLEAR_FLAGS], [EVENT], [])], 2, 0, 2)

  lemma SecondEdge()
    ensures NARROW.Valid() && Advance(NARROW, WAITING, Presenting(SECOND)) == Ok(DRAINED)
  {
    FirstFires(Presenting(SECOND));
    SecondWaits();
    assert CurrentTimingState(NARROW, OCCUPIED, 1, false) == TimingState(true, 1, PauseState(false, false));
    hide PrepareAdmission, PrepareTrigger, CommitTrigger, CurrentTimingState;
    assert [] + [Firing(1, 0, [CLEAR_FLAGS], [EVENT], [])] == [Firing(1, 0, [CLEAR_FLAGS], [EVENT], [])];
  }

  lemma ThirdEdge()
    ensures NARROW.Valid() && Advance(NARROW, DRAINED, Presenting(SECOND)) == Err(LateAdmission)
  {
    SecondWaits();
    assert CurrentTimingState(NARROW, FIRED, 2, false) == TimingState(true, 2, PauseState(false, false));
    hide PrepareAdmission, CurrentTimingState;
    assert PrepareTrigger(NARROW, FIRED, 2, TimingState(true, 2, PauseState(false, false)), Presenting(SECOND)) == Ok(None);
  }

  /**
   * From reset, the second request arrives in time, on the edge before its due cycle, and is kept waiting by a full
   * queue. When the queue drains the request is late and the run ends.
   */
  lemma WaitingRequestBecomesLate()
    ensures
      var edges := [Edges(Presenting(FIRST)), Edges(Presenting(SECOND)), Edges(Presenting(SECOND))];
      && NARROW.Valid() && RunAll(NARROW, Begin(NARROW, 0), edges[..1]) == Ok(WAITING)
      && Answer(NARROW, WAITING, SECOND, false) == Ok(None)
      && RunAll(NARROW, Begin(NARROW, 0), edges[..2]) == Ok(DRAINED)
      && RunAll(NARROW, Begin(NARROW, 0), edges) == Err(LateAdmission)
  {
    hide Advance, Begin;
    FirstEdge();
    SecondEdge();
    ThirdEdge();
    SecondWaits();
    var a, b := Edges(Presenting(FIRST)), Edges(Presenting(SECOND));
    var edges := [a, b, b];
    assert Begin(NARROW, 0).next == 0 by { BeginsAt(0); }
    assert edges[..1] == [a] && edges[..2] == [a, b] && edges[1..] == [b, b] && [b, b][1..] == [b] && [a, b][1..] == [b];
    assert [a][1..] == [] && [b][1..] == [];
    assert RunAll(NARROW, WAITING, [b]) == Ok(DRAINED);
    assert RunAll(NARROW, DRAINED, [b]) == Err(LateAdmission);
    assert RunAll(NARROW, WAITING, [b, b]) == Err(LateAdmission);
  }

  lemma BeginsAt(origin: nat)
    ensures Begin(NARROW, origin).next == origin
  {
  }
}
