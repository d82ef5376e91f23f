/** From a codeword's logical time to the tick at which its events launch. */
module LaunchTimes {
  import opened Errors
  import opened Time
  import opened Mailboxes
  import opened Protocol
  import opened Feedback
  import opened Tcu
  import opened TcuRuns
  import opened TimingLink
  import Q = TcuQueues
  import T = TimingControl

  /** The logical time of the last of these points. */
  function Logical(admitted: seq<Q.Admission>): nat {
    if admitted == [] then 0 else Logical(admitted[..|admitted| - 1]) + admitted[|admitted| - 1].request.point.interval
  }

  /** How many of these points, after the first, repeat the logical time of the one before; each still takes a cycle. */
  function Repeats(admitted: seq<Q.Admission>): nat {
    if |admitted| <= 1 then 0
    else Repeats(admitted[..|admitted| - 1]) + if admitted[|admitted| - 1].request.point.interval == 0 then 1 else 0
  }

  /** The identifiers of all admitted events, in order. */
  function AdmittedIds(admitted: seq<Q.Admission>): seq<nat> {
    if admitted == [] then [] else AdmittedIds(admitted[..|admitted| - 1]) + Ids(admitted[|admitted| - 1].request.events)
  }

  function UpTo(n: nat): (ids: seq<nat>)
    ensures |ids| == n
  {
    seq(n, i requires 0 <= i < n => i + 1)
  }

  /** A point's due cycle is its logical time, plus one cycle for each repeated time so far. */
  lemma {:induction false} DueIsLogical(admitted: seq<Q.Admission>, i: nat)
    requires DuesAccumulate(admitted) && i < |admitted|
    ensures admitted[i].due == Logical(admitted[..i + 1]) + Repeats(admitted[..i + 1])
    decreases i
  {
    assert admitted[..i + 1][..i] == admitted[..i];
    if i == 0 {
      var first := admitted[..1];
      assert |first| == 1 && first[..0] == [] && first[0] == admitted[0];
      assert Logical(first[..0]) == 0;
    } else {
      DueIsLogical(admitted, i - 1);
    }
  }

  // ---- Every issued event is in one place ----

  /** The events staged or in flight, and not yet admitted. */
  function Staged(c: Core): seq<nat> {
    if c.control.request.Some? && c.requests == [] then [] else Ids(c.control.pending)
  }

  ghost predicate IssuedAt(issuedAt: seq<nat>, events: seq<Event>, time: nat) {
    forall i | 0 <= i < |events| :: 1 <= events[i].id <= |issuedAt| && issuedAt[events[i].id - 1] == time
  }

  ghost predicate AdmittedTimes(issuedAt: seq<nat>, admitted: seq<Q.Admission>) {
    forall i | 0 <= i < |admitted| :: IssuedAt(issuedAt, admitted[i].request.events, Logical(admitted[..i + 1]))
  }

  ghost predicate HistoryOk(c: Core) {
    && |c.issuedAt| + 1 == c.control.nextEvent
    && AdmittedIds(c.tcu.admitted) + Staged(c) == UpTo(|c.issuedAt|)
    && IssuedAt(c.issuedAt, c.control.pending, c.control.timePoint)
    && AdmittedTimes(c.issuedAt, c.tcu.admitted)
    && Logical(c.tcu.admitted) == if c.control.request.Some? && c.requests == [] then c.control.timePoint else c.control.lastTime
  }

  lemma IssueExtends(issuedAt: seq<nat>, before: T.State, after: T.State, events: seq<Event>, time: nat)
    requires IssuedAt(issuedAt, events, time)
    ensures IssuedAt(Issue(issuedAt, before, after), events, time)
  {
  }

  lemma IssueKeepsAdmitted(issuedAt: seq<nat>, before: T.State, after: T.State, admitted: seq<Q.Admission>)
    requires AdmittedTimes(issuedAt, admitted)
    ensures AdmittedTimes(Issue(issuedAt, before, after), admitted)
  {
    forall i | 0 <= i < |admitted|
      ensures IssuedAt(Issue(issuedAt, before, after), admitted[i].request.events, Logical(admitted[..i + 1]))
    {
      IssueExtends(issuedAt, before, after, admitted[i].request.events, Logical(admitted[..i + 1]));
    }
  }

  lemma IssueStages(issuedAt: seq<nat>, s: T.State, t: T.State, ids: seq<nat>)
    requires FreshEvents(s, t) && |issuedAt| + 1 == s.nextEvent && IssuedAt(issuedAt, s.pending, s.timePoint)
    requires ids + Ids(s.pending) == UpTo(|issuedAt|)
    ensures |Issue(issuedAt, s, t)| + 1 == t.nextEvent
    ensures IssuedAt(Issue(issuedAt, s, t), t.pending, s.timePoint)
    ensures ids + Ids(t.pending) == UpTo(|Issue(issuedAt, s, t)|)
  {
    var more := Issue(issuedAt, s, t);
    forall i | 0 <= i < |t.pending|
      ensures 1 <= t.pending[i].id <= |more| && more[t.pending[i].id - 1] == s.timePoint
    {
      if i < |s.pending| {
        assert t.pending[i] == t.pending[..|s.pending|][i] == s.pending[i];
      }
    }
    assert |ids| + |s.pending| == |issuedAt|;
    forall k | 0 <= k < |more|
      ensures (ids + Ids(t.pending))[k] == k + 1
    {
      if k < |ids| + |s.pending| {
        assert (ids + Ids(t.pending))[k] == (ids + Ids(s.pending))[k];
      }
    }
  }

  lemma ReplyKeepsHistory(cfg: CoreConfig, c: Core, now: nat)
    requires cfg.Valid() && LinkOk(cfg, c) && HistoryOk(c) && AfterReply(c, now).Ok?
    ensures HistoryOk(c.(control := AfterReply(c, now).value, replies := Rest(c.replies, Readable(c.replies, now))))
  {
    hide RunOk, ControlOk, AdmittedIds, AdmittedTimes, Logical, Policies, Closing;
    assert Ids([]) == [];
  }

  lemma OperateKeepsHistory(cfg: CoreConfig, c: Core, now: nat, op: T.Operation, regs: Registers)
    requires cfg.Valid() && LinkOk(cfg, c) && HistoryOk(c) && Operate(cfg, c, now, op, regs).Ok?
    requires op.command.Synchronize? ==> op.command.target <= MAX_SYNC_TARGET
    ensures HistoryOk(Operate(cfg, c, now, op, regs).value)
  {
    OperateShape(cfg, c, now, op, regs);
    hide RunOk, T.Execute, Operate, ControlOk, FreshEvents, Issue, AdmittedIds, AdmittedTimes, Logical, Ids, UpTo,
      IssuedAt, Policies, Closing;
    var done := T.Execute(cfg.context, c.control, regs, op, |c.requests| == 1).value;
    ExecuteKeepsControl(cfg.context, c.control, regs, op, |c.requests| == 1);
    var d := Operate(cfg, c, now, op, regs).value;
    IssueKeepsAdmitted(c.issuedAt, c.control, d.control, c.tcu.admitted);
    if c.control.request.Some? {
      IssueNothing(c.issuedAt, c.control, d.control);
    } else {
      IssueStages(c.issuedAt, c.control, d.control, AdmittedIds(c.tcu.admitted));
      NothingIssued(d.issuedAt, d.control.timePoint);
      SubmittedIsKept(cfg, c, now, done.effect);
    }
  }

  lemma IssueNothing(issuedAt: seq<nat>, s: T.State, t: T.State)
    requires t.nextEvent == s.nextEvent
    ensures Issue(issuedAt, s, t) == issuedAt
  {
  }

  lemma NothingIssued(issuedAt: seq<nat>, time: nat)
    ensures IssuedAt(issuedAt, [], time)
  {
  }

  lemma SubmittedIsKept(cfg: CoreConfig, c: Core, now: nat, effect: T.Effect)
    requires cfg.Valid()
    ensures effect.Submit? && cfg.Requests().Publish(c.requests, now, effect.request).Ok?
            ==> cfg.Requests().Publish(c.requests, now, effect.request).value != []
  {
  }

  // ---- The TCU's edge ----

  lemma AdmissionKeepsTimes(issuedAt: seq<nat>, admitted: seq<Q.Admission>, a: Q.Admission, time: nat)
    requires AdmittedTimes(issuedAt, admitted) && IssuedAt(issuedAt, a.request.events, time)
    requires Logical(admitted) + a.request.point.interval == time
    ensures AdmittedTimes(issuedAt, admitted + [a]) && Logical(admitted + [a]) == time
    ensures AdmittedIds(admitted + [a]) == AdmittedIds(admitted) + Ids(a.request.events)
  {
    var more := admitted + [a];
    assert more[..|admitted|] == admitted && more[..|more|] == more;
    forall i | 0 <= i < |more|
      ensures IssuedAt(issuedAt, more[i].request.events, Logical(more[..i + 1]))
    {
      if i < |admitted| {
        assert more[..i + 1] == admitted[..i + 1];
      }
    }
    hide IssuedAt;
  }

  lemma RequestIsStaged(cfg: TimingConfig, s: T.State, issuedAt: seq<nat>)
    requires ControlOk(cfg, s) && s.request.Some? && IssuedAt(issuedAt, s.pending, s.timePoint)
    ensures
      var request := s.request.value;
      && Ids(request.events) == Ids(s.pending) && IssuedAt(issuedAt, request.events, s.timePoint)
      && s.lastTime + request.point.interval == s.timePoint
  {
  }

  lemma TcuStepKeepsHistory(cfg: CoreConfig, c: Core, input: Input)
    requires cfg.Valid() && LinkOk(cfg, c) && HistoryOk(c) && TcuStep(cfg, c, input).Ok?
    ensures HistoryOk(TcuStep(cfg, c, input).value)
  {
    hide RunOk, TcuStep, Advance, AdmittedBy, FiresNow, PausedNow, ControlOk, AdmittedIds, AdmittedTimes, Logical,
      Ids, UpTo, IssuedAt, Policies, Closing, Readable;
    TcuShape(cfg, c, input);
    var offered := input.(candidate := Candidate(c));
    AdvanceSummary(cfg.tcu, c.tcu, offered);
    var a := AdmittedBy(cfg.tcu, c.tcu, offered);
    if a.Some? {
      CandidateIsRequest(c);
      RequestIsStaged(cfg.tcu.timing, c.control, c.issuedAt);
      AdmissionKeepsTimes(c.issuedAt, c.tcu.admitted, a.value, c.control.timePoint);
      assert AdmittedIds(c.tcu.admitted) + Ids(a.value.request.events) + [] == AdmittedIds(c.tcu.admitted) + Ids(a.value.request.events);
    } else {
      assert c.tcu.admitted + [] == c.tcu.admitted;
    }
  }

  lemma CandidateIsRequest(c: Core)
    requires InFlight(c) && Candidate(c).Some?
    ensures Candidate(c) == c.control.request && Requested(c) && Rest(c.requests, true) == []
  {
  }

  // ---- Pauses without zero waits ----

  /** No operation is a zero wait. */
  ghost predicate NoZeroWaits(ops: seq<CoreOp>) {
    forall i | 0 <= i < |ops| :: ops[i].Cpu? && ops[i].operation.Some? ==> ops[i].operation.value.command != T.Wait(0)
  }

  ghost predicate NeverPausing(admitted: seq<Q.Admission>) {
    forall i | 0 <= i < |admitted| ::
      admitted[i].request.point.policy != PauseWhenEmpty && (0 < i ==> 0 < admitted[i].request.point.interval)
  }

  ghost predicate PausesHold(c: Core) {
    && !c.control.allowSameTime && !c.control.waitForNext
    && NeverPausing(c.tcu.admitted)
    && c.tcu.pausedEdges == c.syncPauses
    && |c.pausesAt| == |c.tcu.fired|
    && forall i | 0 <= i < |c.tcu.fired| :: c.tcu.fired[i].pausedEdges == c.pausesAt[i]
  }

  lemma {:induction false} FoldNeverPauses(admitted: seq<Q.Admission>, n: nat)
    requires NeverPausing(admitted) && n <= |admitted|
    ensures Q.PolicyFold(admitted[..n]) != PauseWhenEmpty
    decreases n
  {
    if 0 < n {
      assert admitted[..n][..n - 1] == admitted[..n - 1];
      FoldNeverPauses(admitted, n - 1);
    }
  }

  lemma {:induction false} NoRepeats(admitted: seq<Q.Admission>, n: nat)
    requires NeverPausing(admitted) && n <= |admitted|
    ensures Repeats(admitted[..n]) == 0
    decreases n
  {
    if 1 < n {
      assert admitted[..n][..n - 1] == admitted[..n - 1];
      NoRepeats(admitted, n - 1);
    }
  }

  /** Without zero waits only synchronization pauses the timer. */
  lemma OnlySyncPauses(cfg: TcuConfig, r: Run, input: Input)
    requires cfg.Valid() && RunOk(cfg, r) && NeverPausing(r.admitted)
    ensures PausedNow(cfg, r, input) <==> cfg.start <= r.next && input.synchronizationPaused
  {
    hide Q.QueuesHold, TimeOk, FiredOk, DuesAccumulate;
    FoldNeverPauses(r.admitted, |r.fired|);
  }

  lemma OperateKeepsPauses(cfg: CoreConfig, c: Core, now: nat, op: T.Operation, regs: Registers)
    requires cfg.Valid() && LinkOk(cfg, c) && PausesHold(c) && Operate(cfg, c, now, op, regs).Ok? && op.command != T.Wait(0)
    requires op.command.Synchronize? ==> op.command.target <= MAX_SYNC_TARGET
    ensures PausesHold(Operate(cfg, c, now, op, regs).value)
  {
    OperateShape(cfg, c, now, op, regs);
    hide RunOk, T.Execute, Operate, ControlOk, FreshEvents, Issue, Closing, InFlight, NeverPausing;
    ExecuteKeepsControl(cfg.context, c.control, regs, op, |c.requests| == 1);
    NoZeroWaitBegun(cfg.context, c.control, regs, op, |c.requests| == 1);
  }

  lemma NoZeroWaitBegun(ctx: T.Context, s: T.State, regs: Registers, op: T.Operation, full: bool)
    requires T.Execute(ctx, s, regs, op, full).Ok? && op.command != T.Wait(0) && !s.waitForNext
    ensures !T.Execute(ctx, s, regs, op, full).value.state.waitForNext
  {
    hide Validate, Read, T.MakeRequest, T.CheckActions, T.CheckPorts, T.DecodeCodeword, PrepareReservation,
      CommitReservation;
  }

  lemma RequestNeverPauses(cfg: TimingConfig, s: T.State)
    requires ControlOk(cfg, s) && s.request.Some? && !s.waitForNext && !s.allowSameTime
    ensures s.request.value.point.policy != PauseWhenEmpty
    ensures 0 < s.lastLabel ==> 0 < s.request.value.point.interval
  {
  }

  lemma TcuStepKeepsPauses(cfg: CoreConfig, c: Core, input: Input)
    requires cfg.Valid() && LinkOk(cfg, c) && PausesHold(c) && TcuStep(cfg, c, input).Ok?
    ensures PausesHold(TcuStep(cfg, c, input).value)
  {
    hide RunOk, TcuStep, Advance, AdmittedBy, FiresNow, PausedNow, ControlOk, Closing, Readable, NeverPausing, Rest;
    TcuShape(cfg, c, input);
    var offered := input.(candidate := Candidate(c));
    AdvanceSummary(cfg.tcu, c.tcu, offered);
    OnlySyncPauses(cfg.tcu, c.tcu, offered);
    LabelsCount(cfg.tcu, c.tcu);
    var a := AdmittedBy(cfg.tcu, c.tcu, offered);
    if a.Some? {
      CandidateIsRequest(c);
      RequestNeverPauses(cfg.tcu.timing, c.control);
      MoreNeverPausing(c.tcu.admitted, a.value);
    } else {
      assert c.tcu.admitted + [] == c.tcu.admitted;
    }
    hide InFlight, Candidate;
    var run := Advance(cfg.tcu, c.tcu, offered).value;
    forall i | 0 <= i < |c.tcu.fired|
      ensures run.fired[i] == c.tcu.fired[i]
    {
      assert run.fired[..|c.tcu.fired|][i] == run.fired[i];
    }
  }

  lemma LabelsCount(cfg: TcuConfig, r: Run)
    requires cfg.Valid() && RunOk(cfg, r)
    ensures r.tcu.lastLabel == |r.admitted|
  {
    hide Q.QueuesHold, TimeOk, FiredOk, DuesAccumulate;
  }

  lemma MoreNeverPausing(admitted: seq<Q.Admission>, a: Q.Admission)
    requires NeverPausing(admitted) && a.request.point.policy != PauseWhenEmpty
    requires 0 < |admitted| ==> 0 < a.request.point.interval
    ensures NeverPausing(admitted + [a])
  {
  }

  // ---- Whole runs ----

  lemma StepKeepsHistory(cfg: CoreConfig, c: Core, op: CoreOp)
    requires cfg.Valid() && LinkOk(cfg, c) && HistoryOk(c) && Encodable(op) && CoreStep(cfg, c, op).Ok?
    ensures HistoryOk(CoreStep(cfg, c, op).value)
  {
    hide LinkOk, HistoryOk, Operate, AfterReply, TcuStep;
    match op {
      case Cpu(now, operation, regs) =>
        ReplyKeepsLink(cfg, c, now);
        ReplyKeepsHistory(cfg, c, now);
        if operation.Some? {
          var s := AfterReply(c, now).value;
          OperateKeepsHistory(cfg, c.(control := s, replies := Rest(c.replies, Readable(c.replies, now))), now, operation.value, regs);
        }
      case Tcu(input) => TcuStepKeepsHistory(cfg, c, input);
    }
  }

  lemma ReplyKeepsPauses(c: Core, now: nat)
    requires PausesHold(c) && AfterReply(c, now).Ok?
    ensures PausesHold(c.(control := AfterReply(c, now).value, replies := Rest(c.replies, Readable(c.replies, now))))
  {
    hide NeverPausing;
  }

  lemma StepKeepsPauses(cfg: CoreConfig, c: Core, op: CoreOp)
    requires cfg.Valid() && LinkOk(cfg, c) && PausesHold(c) && Encodable(op) && CoreStep(cfg, c, op).Ok?
    requires op.Cpu? && op.operation.Some? ==> op.operation.value.command != T.Wait(0)
    ensures PausesHold(CoreStep(cfg, c, op).value)
  {
    hide LinkOk, PausesHold, Operate, AfterReply, TcuStep;
    match op {
      case Cpu(now, operation, regs) =>
        ReplyKeepsLink(cfg, c, now);
        ReplyKeepsPauses(c, now);
        if operation.Some? {
          var s := AfterReply(c, now).value;
          OperateKeepsPauses(cfg, c.(control := s, replies := Rest(c.replies, Readable(c.replies, now))), now, operation.value, regs);
        }
      case Tcu(input) => TcuStepKeepsPauses(cfg, c, input);
    }
  }

  lemma {:induction false} RunsKeepHistory(cfg: CoreConfig, c: Core, ops: seq<CoreOp>)
    requires cfg.Valid() && LinkOk(cfg, c) && HistoryOk(c) && AllEncodable(ops) && RunCore(cfg, c, ops).Ok?
    ensures HistoryOk(RunCore(cfg, c, ops).value)
    ensures PausesHold(c) && NoZeroWaits(ops) ==> PausesHold(RunCore(cfg, c, ops).value)
    decreases |ops|
  {
    hide LinkOk, CoreStep, HistoryOk, PausesHold;
    if ops != [] {
      StepKeepsLink(cfg, c, ops[0]);
      StepKeepsHistory(cfg, c, ops[0]);
      if PausesHold(c) && NoZeroWaits(ops) {
        StepKeepsPauses(cfg, c, ops[0]);
      }
      RunsKeepHistory(cfg, CoreStep(cfg, c, ops[0]).value, ops[1..]);
    }
  }

  lemma BeginHasHistory(cfg: CoreConfig, origin: nat)
    ensures HistoryOk(BeginCore(cfg, origin)) && PausesHold(BeginCore(cfg, origin))
  {
  }

  lemma FiringTick(cfg: TcuConfig, r: Run, i: nat)
    requires cfg.Valid() && RunOk(cfg, r) && i < |r.fired|
    ensures i < |r.admitted| && DuesAccumulate(r.admitted) && FiringOk(cfg, r.fired[i], r.admitted[i])
  {
    hide Q.QueuesHold, TimeOk, DuesAccumulate, FiringOk;
  }

  /**
   * From end to end: an event that the timing control issued at logical time T launches, or is cancelled,
   * at start + (T + R) * period plus the paused edges so far, where R counts the repeated logical times of
   * zero waits up to its point. CPU, mailbox and queue delays do not appear.
   */
  lemma LaunchTick(cfg: CoreConfig, origin: nat, ops: seq<CoreOp>, i: nat, k: nat)
    requires cfg.Valid() && cfg.tcu.clock.Edge(origin) && origin <= cfg.tcu.start
    requires AllEncodable(ops) && RunCore(cfg, BeginCore(cfg, origin), ops).Ok?
    requires
      var c := RunCore(cfg, BeginCore(cfg, origin), ops).value;
      i < |c.tcu.fired| && i < |c.tcu.admitted| && k < |c.tcu.admitted[i].request.events|
    ensures
      var c := RunCore(cfg, BeginCore(cfg, origin), ops).value;
      var e := c.tcu.admitted[i].request.events[k];
      && 1 <= e.id <= |c.issuedAt|
      && c.tcu.fired[i].tick == cfg.tcu.start
                                + (c.issuedAt[e.id - 1] + Repeats(c.tcu.admitted[..i + 1]) + c.tcu.fired[i].pausedEdges) * cfg.tcu.clock.period
  {
    hide RunCore, BeginCore, LinkOk, RunOk, Repeats, Logical, AdmittedIds, DuesAccumulate;
    BeginIsLinked(cfg, origin);
    BeginHasHistory(cfg, origin);
    RunsKeepLink(cfg, BeginCore(cfg, origin), ops);
    RunsKeepHistory(cfg, BeginCore(cfg, origin), ops);
    var c := RunCore(cfg, BeginCore(cfg, origin), ops).value;
    assert RunOk(cfg.tcu, c.tcu) by { LinkHasRun(cfg, c); }
    FiringTick(cfg.tcu, c.tcu, i);
    DueIsLogical(c.tcu.admitted, i);
    assert IssuedAt(c.issuedAt, c.tcu.admitted[i].request.events, Logical(c.tcu.admitted[..i + 1]));
    hide HistoryOk, PausesHold;
  }

  lemma LinkHasRun(cfg: CoreConfig, c: Core)
    requires cfg.Valid() && LinkOk(cfg, c)
    ensures RunOk(cfg.tcu, c.tcu)
  {
    hide RunOk;
  }

  /**
   * Without zero waits, a codeword issued at logical time T launches exactly at start + T * period plus the
   * synchronization pauses so far.
   */
  lemma CodewordsLaunchOnTime(cfg: CoreConfig, origin: nat, ops: seq<CoreOp>, i: nat, k: nat)
    requires cfg.Valid() && cfg.tcu.clock.Edge(origin) && origin <= cfg.tcu.start
    requires AllEncodable(ops) && NoZeroWaits(ops) && RunCore(cfg, BeginCore(cfg, origin), ops).Ok?
    requires
      var c := RunCore(cfg, BeginCore(cfg, origin), ops).value;
      i < |c.tcu.fired| && i < |c.tcu.admitted| && k < |c.tcu.admitted[i].request.events|
    ensures
      var c := RunCore(cfg, BeginCore(cfg, origin), ops).value;
      var e := c.tcu.admitted[i].request.events[k];
      && 1 <= e.id <= |c.issuedAt| && i < |c.pausesAt|
      && c.tcu.fired[i].tick == cfg.tcu.start + c.issuedAt[e.id - 1] * cfg.tcu.clock.period + c.pausesAt[i] * cfg.tcu.clock.period
  {
    hide RunCore, BeginCore, LinkOk, Repeats, HistoryOk;
    LaunchTick(cfg, origin, ops, i, k);
    BeginIsLinked(cfg, origin);
    BeginHasHistory(cfg, origin);
    RunsKeepHistory(cfg, BeginCore(cfg, origin), ops);
    var c := RunCore(cfg, BeginCore(cfg, origin), ops).value;
    NoRepeats(c.tcu.admitted, i + 1);
    var issued := c.issuedAt[c.tcu.admitted[i].request.events[k].id - 1];
    assert (issued + c.pausesAt[i]) * cfg.tcu.clock.period == issued * cfg.tcu.clock.period + c.pausesAt[i] * cfg.tcu.clock.period;
  }

  /**
   * Nothing issued is lost, repeated or reordered: the identifiers of the admitted points' events, followed
   * by those still staged or in flight, are 1, 2, 3, ... in order.
   */
  lemma IssuedEventsAreInOnePlace(cfg: CoreConfig, origin: nat, ops: seq<CoreOp>)
    requires cfg.Valid() && cfg.tcu.clock.Edge(origin) && origin <= cfg.tcu.start
    requires AllEncodable(ops) && RunCore(cfg, BeginCore(cfg, origin), ops).Ok?
    ensures
      var c := RunCore(cfg, BeginCore(cfg, origin), ops).value;
      1 <= c.control.nextEvent && AdmittedIds(c.tcu.admitted) + Staged(c) == UpTo(c.control.nextEvent - 1)
  {
    hide RunCore, BeginCore, LinkOk, AdmittedIds, Staged, AdmittedTimes;
    BeginIsLinked(cfg, origin);
    BeginHasHistory(cfg, origin);
    RunsKeepHistory(cfg, BeginCore(cfg, origin), ops);
  }
}
