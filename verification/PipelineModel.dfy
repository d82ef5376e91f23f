/** The pipeline as the object the source runs: latches, registers and counters changed in place. */
module PipelineModel {
  import opened Errors
  import opened Time
  import opened Mailboxes
  import opened Isa
  import opened Memory
  import opened Sequential
  import P = Pipeline

  /** Issues the lanes of a bundle in order until one stalls. */
  method IssueAll(operations: seq<Command>, completed: nat, control: P.ControlPort) returns (lanes: Result<P.Lanes>)
    ensures lanes == P.IssueLanes(operations, completed, control)
  {
    var replies: seq<Word>, done := [], completed;
    FollowingNothing(P.IssueLanes(operations, completed, control));
    while done < |operations|
      invariant Following(replies, P.IssueLanes(operations, done, control)) == P.IssueLanes(operations, completed, control)
    {
      var answer :- control(done);
      if answer.None? {
        assert replies + [] == replies;
        return Ok(P.Lanes(replies, done));
      }
      FollowingAppends(replies, answer.value, P.IssueLanes(operations, done + 1, control));
      replies, done := replies + [answer.value], done + 1;
    }
    assert replies + [] == replies;
    return Ok(P.Lanes(replies, done));
  }

  function Following(replies: seq<Word>, rest: Result<P.Lanes>): Result<P.Lanes> {
    if rest.Err? then rest else Ok(P.Lanes(replies + rest.value.replies, rest.value.completed))
  }

  lemma FollowingNothing(rest: Result<P.Lanes>)
    ensures Following([], rest) == rest
  {
    if rest.Ok? {
      var none: seq<Word> := [];
      assert none + rest.value.replies == rest.value.replies;
    }
  }

  lemma FollowingAppends(replies: seq<Word>, reply: Word, rest: Result<P.Lanes>)
    ensures rest.Ok? ==> Following(replies, Ok(P.Lanes([reply] + rest.value.replies, rest.value.completed))) == Following(replies + [reply], rest)
  {
    if rest.Ok? {
      assert replies + ([reply] + rest.value.replies) == replies + [reply] + rest.value.replies;
    }
  }

  class InOrderPipeline {
    const cfg: P.CpuConfig
    var registers: seq<Word>
    var pc: Word
    var fetchPc: Word
    var fetchRequest: Option<P.Fetch>
    var fetched: Option<P.Frame>
    var decode: Option<P.Frame>
    var execute: Option<P.Frame>
    var nextFetch: nat
    var nextData: nat
    var generation: nat
    var halted: bool

    ghost predicate Valid()
      reads this
    {
      cfg.clock.Valid() && |registers| == 32
    }

    ghost function View(): P.Cpu
      reads this
    {
      P.Cpu(registers, pc, fetchPc, fetchRequest, fetched, decode, execute, nextFetch, nextData, generation, halted)
    }

    constructor (cfg: P.CpuConfig, entry: Word)
      requires cfg.clock.Valid()
      ensures Valid() && this.cfg == cfg && View() == P.ResetCpu(entry)
    {
      this.cfg := cfg;
      registers, pc, fetchPc := seq(32, _ => 0), entry, entry;
      fetchRequest, fetched, decode, execute := None, None, None, None;
      nextFetch, nextData, generation, halted := 1, 1, 0, false;
    }

    method Reset(entry: Word)
      requires Valid()
      modifies this
      ensures Valid() && View() == P.ResetCpu(entry)
    {
      registers, pc, fetchPc := seq(32, _ => 0), entry, entry;
      fetchRequest, fetched, decode, execute := None, None, None, None;
      nextFetch, nextData, generation, halted := 1, 1, 0, false;
    }

    method Receive(response: Option<Response>) returns (outcome: Result<()>)
      requires Valid()
      modifies this
      ensures Valid()
      ensures
        var r := P.ReceiveFetch(old(View()), response);
        if r.Ok? then outcome.Ok? && View() == r.value else outcome == Err(r.error) && View() == old(View())
    {
      if response.None? {
        return Ok(());
      }
      if fetchRequest.None? || response.value.id != fetchRequest.value.id {
        return Err(Protocol);
      }
      var f := fetchRequest.value;
      if f.generation == generation && !halted {
        if fetched.Some? {
          return Err(Protocol);
        }
        fetched := Some(P.FreshFrame(f.id, f.pc, response.value.value, response.value.fault));
      }
      fetchRequest := None;
      return Ok(());
    }

    /** The execute stage: the outcome, and what the frame has become. */
    method RunFrame(f: P.Frame, dataFull: bool, response: Option<Response>, control: P.ControlPort) returns (step: Result<P.ExecuteStep>)
      requires Valid()
      ensures step == P.ExecuteFrame(f, registers, nextData, dataFull, response, control)
    {
      hide Evaluate, AdaptQuantum, P.IssueLanes, P.ExecuteEffect, NextPc;
      if f.fault.Some? {
        return Err(f.fault.value);
      }
      if f.decoded.None? {
        return Err(Protocol);
      }
      var d := f.decoded.value;
      if f.bundle {
        var lanes :- IssueAll(f.operations, f.completedLanes, control);
        var commands := if f.completedLanes <= lanes.completed <= |f.operations| then f.operations[f.completedLanes..lanes.completed] else [];
        var outcome := if lanes.completed == |f.operations| then P.Completed(0, NextPc(f.pc), false, false)
                       else P.Stalled(f.(completedLanes := lanes.completed));
        return Ok(P.ExecuteStep(outcome, commands, lanes.replies, false));
      }
      if d.op == Quantum {
        var command :- AdaptQuantum(d, f.lhs, f.rhs);
        var answer :- control(0);
        if answer.None? {
          return Ok(P.ExecuteStep(P.Stalled(f), [], [], false));
        }
        return Ok(P.ExecuteStep(P.Completed(answer.value, NextPc(f.pc), false, false), [command], [answer.value], false));
      }
      if d.op == Ecall && registers[17] == EXIT_CALL {
        var answer :- control(0);
        if answer.None? {
          return Ok(P.ExecuteStep(P.Stalled(f), [], [], false));
        }
        return Ok(P.ExecuteStep(P.Completed(0, NextPc(f.pc), true, true), [Halt], [answer.value], false));
      }
      var effect: Effect;
      if f.effect.Some? {
        effect := f.effect.value;
      } else {
        effect :- Evaluate(d, f.pc, f.lhs, f.rhs);
      }
      return P.ExecuteEffect(f.(effect := Some(effect)), effect, nextData, dataFull, response);
    }

    /** Writes the register, moves the program counter and empties the execute stage; a flush drops what is behind it. */
    method RetireFrame(d: Decoded, value: Word, nextPc: Word, flush: bool, halts: bool) returns (outcome: Result<()>)
      requires Valid()
      modifies this
      ensures Valid()
      ensures
        var c := P.Retire(old(View()), d, P.Completed(value, nextPc, flush, halts));
        var r := if flush then P.Flush(c) else Ok(c);
        if r.Ok? then outcome.Ok? && View() == r.value else outcome == Err(r.error)
    {
      if d.writesRd && d.rd != 0 {
        registers := registers[d.rd := value];
      }
      registers := registers[0 := 0];
      pc, execute, halted := nextPc, None, halts;
      if flush {
        if MAX_TICK < generation + 1 {
          return Err(TimeOverflow);
        }
        decode, fetched, generation, fetchPc := None, None, generation + 1, pc;
      }
      return Ok(());
    }

    method ExecuteStage(ports: P.Ports, now: nat, control: P.ControlPort)
      returns (outcome: Result<P.Ports>, commands: seq<Command>, replies: seq<Word>, retired: Option<Retired>)
      requires Valid()
      modifies this
      ensures Valid()
      ensures
        var r := P.ExecutePhase(cfg, old(View()), ports, now, control);
        if r.Ok? then outcome == Ok(r.value.ports) && View() == r.value.cpu
                      && commands == r.value.commands && replies == r.value.replies && retired == r.value.retired
        else outcome == Err(r.error)
    {
      hide P.ExecuteFrame, P.Retire, P.Flush, P.Head, P.Drop, Link.Publish;
      commands, replies, retired := [], [], None;
      if execute.None? {
        return Ok(ports), [], [], None;
      }
      var f := execute.value;
      var step := RunFrame(f, ports.data.requests != [], P.Head(ports.data.responses, now), control);
      if step.Err? {
        return Err(step.error), [], [], None;
      }
      commands, replies := step.value.commands, step.value.replies;
      var next := ports.(data := ports.data.(responses := P.Drop(ports.data.responses, step.value.takesResponse)));
      match step.value.outcome {
        case Stalled(f') =>
          execute := Some(f');
        case Requesting(f', request) =>
          var requests := cfg.Channel().Publish(ports.data.requests, now, request);
          if requests.Err? {
            return Err(requests.error), [], [], None;
          }
          execute, nextData := Some(f'), nextData + 1;
          next := next.(data := next.data.(requests := requests.value));
        case Completed(value, nextPc, flush, halts) =>
          if f.decoded.None? {
            return Err(Protocol), [], [], None;
          }
          var done := RetireFrame(f.decoded.value, value, nextPc, flush, halts);
          if done.Err? {
            return Err(done.error), [], [], None;
          }
          retired := Some(Retired(f.pc, f.word, value, nextPc));
      }
      return Ok(next), commands, replies, retired;
    }

    /** Frames move down as stages free up. */
    method MoveStages()
      requires Valid()
      modifies this
      ensures Valid() && View() == P.MoveFrames(cfg.dual, old(View()))
    {
      hide P.IssueFrame;
      if execute.None? && decode.Some? {
        execute := Some(P.IssueFrame(cfg.dual, decode.value, registers));
        decode := None;
      }
      if decode.None? && fetched.Some? {
        decode := fetched;
        fetched := None;
      }
    }

    /** Issue, then decode, then fetch. */
    method AdvanceStages(ports: P.Ports, now: nat) returns (outcome: Result<P.Ports>)
      requires Valid()
      modifies this
      ensures Valid()
      ensures
        var r := P.Advance(cfg, old(View()), ports, now);
        if r.Ok? then outcome == Ok(r.value.ports) && View() == r.value.cpu else outcome == Err(r.error)
    {
      hide P.MoveFrames, Link.Publish, NextPc;
      MoveStages();
      if fetchRequest.None? && fetched.None? && ports.fetch.requests == [] {
        var requests :- cfg.Channel().Publish(ports.fetch.requests, now, Request(nextFetch, fetchPc, 0, 4, false, true));
        if MAX_TICK < nextFetch + 1 {
          return Err(TimeOverflow);
        }
        fetchRequest := Some(P.Fetch(nextFetch, fetchPc, generation));
        nextFetch, fetchPc := nextFetch + 1, NextPc(fetchPc);
        return Ok(ports.(fetch := ports.fetch.(requests := requests)));
      }
      return Ok(ports);
    }

    method Step(now: nat, ports: P.Ports, control: P.ControlPort)
      returns (outcome: Result<P.Ports>, commands: seq<Command>, replies: seq<Word>, retired: Option<Retired>)
      requires Valid()
      modifies this
      ensures Valid()
      ensures
        var r := P.Step(cfg, old(View()), ports, now, control);
        if r.Ok? then outcome == Ok(r.value.ports) && View() == r.value.cpu
                      && commands == r.value.commands && replies == r.value.replies && retired == r.value.retired
        else outcome == Err(r.error)
    {
      hide P.ReceiveFetch, P.ExecutePhase, P.Advance, P.Head, P.Drop;
      commands, replies, retired := [], [], None;
      if !cfg.clock.Edge(now) {
        return Err(Protocol), [], [], None;
      }
      var received := Receive(P.Head(ports.fetch.responses, now));
      if received.Err? {
        return Err(received.error), [], [], None;
      }
      var next := ports.(fetch := ports.fetch.(responses := P.Drop(ports.fetch.responses, Readable(ports.fetch.responses, now))));
      if halted {
        return Ok(next), [], [], None;
      }
      outcome, commands, replies, retired := ExecuteStage(next, now, control);
      if outcome.Ok? && !halted {
        outcome := AdvanceStages(outcome.value, now);
      }
    }
  }
}
