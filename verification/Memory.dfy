/** Program memory: byte storage, and ports that serve one request at a time. */
module Memory {
  import opened Errors
  import opened Time
  import opened Mailboxes
  import opened Isa

  function Location(address: Word): nat { address as nat }

  function LowByte(value: Word): Word { value & 0xff }
  function HighBytes(value: Word): Word { value >> 8 }
  function Join(low: Word, high: Word): Word { low | (high << 8) }

  /** Bytes from a base address, each in the low bits of a word. */
  datatype Image = Image(base: nat, bytes: seq<Word>) {
    function Check(address: nat, width: nat, store: bool): Result<nat> {
      if width != 1 && width != 2 && width != 4 then Err(if store then StoreAccess else LoadAccess)
      else if address % width != 0 then Err(if store then StoreMisaligned else LoadMisaligned)
      else if !(base <= address && address - base + width <= |bytes|) then Err(if store then StoreAccess else LoadAccess)
      else Ok(address - base)
    }

    function ReadBytes(at: nat, width: nat): Word
      requires at + width <= |bytes|
      decreases width
    {
      if width == 0 then 0 else Join(LowByte(bytes[at]), ReadBytes(at + 1, width - 1))
    }

    /** The little-endian value at an address. */
    function Read(address: nat, width: nat): Result<Word> {
      var checked := Check(address, width, false);
      if checked.Err? then Err(checked.error) else Ok(ReadBytes(checked.value, width))
    }

    function WriteBytes(at: nat, width: nat, value: Word): (written: seq<Word>)
      requires at + width <= |bytes|
      ensures |written| == |bytes|
      ensures forall i | 0 <= i < |bytes| && !(at <= i < at + width) :: written[i] == bytes[i]
      decreases width
    {
      if width == 0 then bytes
      else Image(base, bytes[at := LowByte(value)]).WriteBytes(at + 1, width - 1, HighBytes(value))
    }

    function Write(address: nat, width: nat, value: Word): Result<Image> {
      var checked := Check(address, width, true);
      if checked.Err? then Err(checked.error) else Ok(Image(base, WriteBytes(checked.value, width, value)))
    }
  }

  /** The low bytes of a word. */
  function LowBytes(value: Word, width: nat): Word {
    if width == 0 then 0 else Join(LowByte(value), LowBytes(HighBytes(value), width - 1))
  }

  lemma {:induction false} ReadOfWrite(image: Image, at: nat, width: nat, value: Word)
    requires at + width <= |image.bytes|
    ensures Image(image.base, image.WriteBytes(at, width, value)).ReadBytes(at, width) == LowBytes(value, width)
    decreases width
  {
    if 0 < width {
      hide LowByte, HighBytes, Join;
      var next := Image(image.base, image.bytes[at := LowByte(value)]);
      ReadOfWrite(next, at + 1, width - 1, HighBytes(value));
      LowIsLow(value);
    }
  }

  lemma LowIsLow(value: Word)
    ensures LowByte(LowByte(value)) == LowByte(value)
  {
  }

  lemma {:induction false} ReadElsewhere(a: Image, b: Image, at: nat, width: nat)
    requires at + width <= |a.bytes| == |b.bytes| && forall i | at <= i < at + width :: a.bytes[i] == b.bytes[i]
    ensures a.ReadBytes(at, width) == b.ReadBytes(at, width)
    decreases width
  {
    if 0 < width {
      ReadElsewhere(a, b, at + 1, width - 1);
    }
  }

  /** A read of what was just written returns its low bytes; a read elsewhere is not affected. */
  lemma ReadAfterWrite(image: Image, address: nat, width: nat, value: Word, other: nat, otherWidth: nat)
    requires image.Write(address, width, value).Ok?
    ensures image.Write(address, width, value).value.Read(address, width) == Ok(LowBytes(value, width))
    ensures other + otherWidth <= address || address + width <= other
            ==> image.Write(address, width, value).value.Read(other, otherWidth) == image.Read(other, otherWidth)
  {
    var written := image.Write(address, width, value).value;
    ReadOfWrite(image, address - image.base, width, value);
    if (other + otherWidth <= address || address + width <= other) && image.Read(other, otherWidth).Ok? {
      ReadElsewhere(image, written, other - image.base, otherWidth);
    }
  }

  lemma WholeWord(value: Word)
    ensures LowBytes(value, 4) == value
  {
    LowByteStep(value, 3);
    LowByteStep(HighBytes(value), 2);
    LowByteStep(HighBytes(HighBytes(value)), 1);
    LowByteStep(HighBytes(HighBytes(HighBytes(value))), 0);
    hide LowBytes;
  }

  lemma LowByteStep(value: Word, width: nat)
    ensures LowBytes(value, width + 1) == Join(LowByte(value), LowBytes(HighBytes(value), width))
    ensures LowBytes(value, 0) == 0
  {
    hide LowByte, HighBytes, Join;
  }

  // ---- Ports ----

  datatype Request = Request(id: nat, address: Word, value: Word, width: nat, write: bool, instruction: bool)
  datatype Response = Response(id: nat, value: Word, fault: Option<ErrorCode>)
  datatype Port = Port(requests: seq<Envelope<Request>>, responses: seq<Envelope<Response>>)
  datatype Pending = Pending(request: Request, completion: nat)

  /** One port of the memory: the request it serves, and the last identifier it accepted. */
  datatype Server = Server(pending: Option<Pending>, lastId: nat)

  /** What is behind the ports: code is constant; a device answers for its addresses, or asks to be retried. */
  datatype Backing = Backing(clock: Clock, latency: nat, code: Word -> Result<Word>, device: Word -> bool) {
    predicate Valid() { clock.Valid() && 0 < latency }

    function Channel(): Link { Link(1, clock, 1) }
  }

  datatype Answer = Retry | Answer(value: Word, fault: Option<ErrorCode>, image: Image)

  function OfResult(r: Result<Word>, image: Image): Answer {
    if r.Ok? then Answer(r.value, None, image) else Answer(0, Some(r.error), image)
  }

  /** The service of one request, with the device's answer at this edge. */
  function Serve(b: Backing, request: Request, image: Image, device: Result<Option<Word>>): Answer {
    if request.instruction then OfResult(b.code(request.address), image)
    else if b.device(request.address) then
      (if device.Err? then Answer(0, Some(device.error), image)
       else if device.value.None? then Retry else Answer(device.value.value, None, image))
    else if request.write then
      var written := image.Write(Location(request.address), request.width, request.value);
      if written.Ok? then Answer(0, None, written.value) else Answer(0, Some(written.error), image)
    else OfResult(image.Read(Location(request.address), request.width), image)
  }

  datatype Served = Served(server: Server, port: Port, image: Image)

  function StepPort(b: Backing, s: Server, port: Port, image: Image, now: nat, fetches: bool, device: Result<Option<Word>>): Result<Served>
    requires b.Valid()
  {
    if s.pending.Some? then
      if s.pending.value.completion <= now && port.responses == [] then
        var request := s.pending.value.request;
        var answer := Serve(b, request, image, device);
        if answer.Retry? then Ok(Served(s, port, image))
        else
          var responses :- b.Channel().Publish(port.responses, now, Response(request.id, answer.value, answer.fault));
          Ok(Served(s.(pending := None), port.(responses := responses), answer.image))
      else Ok(Served(s, port, image))
    else if port.responses == [] && Readable(port.requests, now) then
      var request := port.requests[0].value;
      if !(s.lastId < request.id && request.id != 0) then Err(Protocol)
      else if !(request.instruction == fetches && !(request.instruction && request.write)) then Err(Protocol)
      else
        var wait :- CheckedMul(b.latency, b.clock.period);
        var completion :- CheckedAdd(now, wait);
        Ok(Served(Server(Some(Pending(request, completion)), request.id), port.(requests := port.requests[1..]), image))
    else Ok(Served(s, port, image))
  }

  class MemoryModel {
    const backing: Backing
    var image: Image
    var fetchServer: Server
    var dataServer: Server

    ghost predicate Valid() reads this { backing.Valid() }

    constructor (backing: Backing, image: Image)
      requires backing.Valid()
      ensures Valid() && this.backing == backing && this.image == image
      ensures fetchServer == dataServer == Server(None, 0)
    {
      this.backing, this.image := backing, image;
      fetchServer, dataServer := Server(None, 0), Server(None, 0);
    }

    /** One edge of one port: a due request is served, or a new one is accepted. */
    method ServePort(now: nat, port: Port, fetches: bool, device: Result<Option<Word>>) returns (outcome: Result<Port>)
      requires Valid()
      modifies this
      ensures Valid()
      ensures
        var r := StepPort(backing, if fetches then old(fetchServer) else old(dataServer), port, old(image), now, fetches, device);
        if r.Ok? then
          && outcome == Ok(r.value.port) && image == r.value.image
          && (if fetches then fetchServer == r.value.server && dataServer == old(dataServer)
              else dataServer == r.value.server && fetchServer == old(fetchServer))
        else outcome == Err(r.error) && image == old(image) && fetchServer == old(fetchServer) && dataServer == old(dataServer)
    {
      hide Serve;
      var server := if fetches then fetchServer else dataServer;
      var answered := port;
      if server.pending.Some? {
        if server.pending.value.completion <= now && port.responses == [] {
          var request := server.pending.value.request;
          var answer := Serve(backing, request, image, device);
          if answer.Retry? {
            return Ok(port);
          }
          var responses :- backing.Channel().Publish(port.responses, now, Response(request.id, answer.value, answer.fault));
          answered := port.(responses := responses);
          image := answer.image;
          server := server.(pending := None);
        }
      } else if port.responses == [] && Readable(port.requests, now) {
        var request := port.requests[0].value;
        if !(server.lastId < request.id && request.id != 0) {
          return Err(Protocol);
        }
        if !(request.instruction == fetches && !(request.instruction && request.write)) {
          return Err(Protocol);
        }
        var wait :- CheckedMul(backing.latency, backing.clock.period);
        var completion :- CheckedAdd(now, wait);
        answered := port.(requests := port.requests[1..]);
        server := Server(Some(Pending(request, completion)), request.id);
      }
      if fetches {
        fetchServer := server;
      } else {
        dataServer := server;
      }
      return Ok(answered);
    }
  }
}
