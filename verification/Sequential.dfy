/** The sequential specification of the processor: one instruction at a time, given the replies of its surroundings. */
module Sequential {
  import opened Errors
  import opened Isa
  import opened Memory

  /** The machine a program runs on: constant code, device addresses, and whether bundles are issued. */
  datatype Platform = Platform(code: Word -> Result<Word>, device: Word -> bool, dual: bool)

  /** What one instruction sees and changes. */
  datatype Arch = Arch(registers: seq<Word>, pc: Word, image: Image, halted: bool) {
    predicate Valid() { |registers| == 32 }
  }

  datatype Retired = Retired(pc: Word, word: Word, value: Word, nextPc: Word)

  /** An effect outside the processor: a control operation, a device access or a store. */
  datatype External = Control(command: Command) | Device(address: Word, value: Word, width: nat, write: bool) | Stored(address: Word, value: Word, width: nat)

  /** An instruction with its operands: a bundle of two codewords, or a decoded word. */
  datatype Plan = Bundle(commands: seq<Command>) | Plain(decoded: Decoded, lhs: Word, rhs: Word)

  function PlanOf(dual: bool, word: Word, registers: seq<Word>): Result<Plan>
    requires |registers| == 32
  {
    if dual && Opcode(word) == BUNDLE_OPCODE then
      var commands :- DecodeBundle(word, registers);
      Ok(Bundle(commands))
    else
      var d := Decode(word);
      if d.Err? then Err(d.error) else Ok(Plain(d.value, registers[d.value.rs1], registers[d.value.rs2]))
  }

  function NextPc(pc: Word): Word { pc + 4 }

  /** The registers after an instruction: register zero is always zero. */
  function Written(registers: seq<Word>, writes: bool, rd: RegisterId, value: Word): (r: seq<Word>)
    requires |registers| == 32
    ensures |r| == 32
  {
    (if writes && rd != 0 then registers[rd := value] else registers)[0 := 0]
  }

  const EXIT_CALL: Word := 93

  predicate Exits(d: Decoded, registers: seq<Word>)
    requires |registers| == 32
  {
    d.op == Ecall && registers[17] == EXIT_CALL
  }

  function Extended(effect: Effect, value: Word): Word {
    if effect.signExtendLoad && 0 < effect.width * 8 <= 32 then SignExtend(value, effect.width * 8) else value
  }

  datatype Accessed = Accessed(value: Word, image: Image, externals: seq<External>)

  /** A load or store: a device replies for its own addresses. */
  function Access(p: Platform, effect: Effect, image: Image, replies: seq<Word>): Result<Accessed> {
    var store := effect.memory == Store;
    if p.device(effect.address) then
      (if |replies| != 1 then Err(Protocol)
       else Ok(Accessed(replies[0], image, [Device(effect.address, effect.storeValue, effect.width, store)])))
    else if replies != [] then Err(Protocol)
    else if store then
      var written := image.Write(Location(effect.address), effect.width, effect.storeValue);
      if written.Err? then Err(written.error)
      else Ok(Accessed(0, written.value, [Stored(effect.address, effect.storeValue, effect.width)]))
    else
      var value := image.Read(Location(effect.address), effect.width);
      if value.Err? then Err(value.error) else Ok(Accessed(value.value, image, []))
  }

  datatype Done = Done(arch: Arch, retired: Retired, externals: seq<External>)

  function Finish(a: Arch, word: Word, writes: bool, rd: RegisterId, value: Word, next: Word, image: Image, halted: bool,
                  externals: seq<External>): (done: Done)
    requires a.Valid()
    ensures done.arch.Valid()
  {
    Done(Arch(Written(a.registers, writes, rd, value), next, image, halted), Retired(a.pc, word, value, next), externals)
  }

  function Run1(p: Platform, a: Arch, word: Word, plan: Plan, replies: seq<Word>): (r: Result<Done>)
    requires a.Valid()
    ensures r.Ok? ==> r.value.arch.Valid()
  {
    match plan
    case Bundle(commands) =>
      if |replies| != |commands| then Err(Protocol)
      else
        Ok(Finish(a, word, false, 0, 0, NextPc(a.pc), a.image, false, ControlsOf(commands)))
    case Plain(d, lhs, rhs) =>
      if d.op == Quantum then
        var command :- AdaptQuantum(d, lhs, rhs);
        if |replies| != 1 then Err(Protocol)
        else Ok(Finish(a, word, d.writesRd, d.rd, replies[0], NextPc(a.pc), a.image, false, [Control(command)]))
      else if Exits(d, a.registers) then
        (if |replies| != 1 then Err(Protocol)
         else Ok(Finish(a, word, d.writesRd, d.rd, 0, NextPc(a.pc), a.image, true, [Control(Halt)])))
      else
        var effect :- Evaluate(d, a.pc, lhs, rhs);
        if effect.memory == NoAccess then
          (if replies != [] then Err(Protocol)
           else Ok(Finish(a, word, d.writesRd, d.rd, effect.value, effect.nextPc, a.image, false, [])))
        else
          var accessed :- Access(p, effect, a.image, replies);
          Ok(Finish(a, word, d.writesRd, d.rd, Extended(effect, accessed.value), effect.nextPc, accessed.image, false, accessed.externals))
  }

  function ControlsOf(commands: seq<Command>): (externals: seq<External>)
    ensures |externals| == |commands|
  {
    seq(|commands|, i requires 0 <= i < |commands| => Control(commands[i]))
  }

  /** One instruction: fetch, decode, execute, retire. */
  function Execute(p: Platform, a: Arch, replies: seq<Word>): (r: Result<Done>)
    requires a.Valid()
    ensures r.Ok? ==> r.value.arch.Valid()
  {
    if a.halted then Err(Protocol)
    else
      var word :- p.code(a.pc);
      var plan :- PlanOf(p.dual, word, a.registers);
      Run1(p, a, word, plan, replies)
  }

  datatype Ran = Ran(arch: Arch, retired: seq<Retired>, externals: seq<External>)

  /** A whole run: the script holds each instruction's replies. */
  function RunSequence(p: Platform, a: Arch, script: seq<seq<Word>>): (r: Result<Ran>)
    requires a.Valid()
    ensures r.Ok? ==> r.value.arch.Valid()
  {
    if script == [] then Ok(Ran(a, [], []))
    else
      var before :- RunSequence(p, a, script[..|script| - 1]);
      var done :- Execute(p, before.arch, script[|script| - 1]);
      Ok(Ran(done.arch, before.retired + [done.retired], before.externals + done.externals))
  }

  lemma RunOneMore(p: Platform, a: Arch, script: seq<seq<Word>>, replies: seq<Word>)
    requires a.Valid() && RunSequence(p, a, script).Ok?
    ensures
      var before := RunSequence(p, a, script).value;
      var done := Execute(p, before.arch, replies);
      RunSequence(p, a, script + [replies])
      == if done.Err? then Err(done.error)
         else Ok(Ran(done.value.arch, before.retired + [done.value.retired], before.externals + done.value.externals))
  {
    hide Execute;
    assert (script + [replies])[..|script|] == script;
  }
}
