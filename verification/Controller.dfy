/** The engine controller: which commands it carries out and what they do. */
module Controller {
  import opened Bytes

  const NUM_SOLENOIDS: nat := 4
  const SOLENOID_START: nat := 100
  const NUM_IGNITERS: nat := 1
  const IGNITER_START: nat := 200
  const GREEN: nat := 300
  const YELLOW: nat := 301
  const RED: nat := 302
  const BUZZER: nat := 303

  const COMMAND_SIZE: nat := 8

  type uint16 = n: int | 0 <= n < 0x1_0000

  datatype Command = Command(seqNum: uint32, control: uint16, state: uint16)

  /** Solenoids, igniters and lights (green, yellow, red, buzzer). */
  datatype Hardware = Hardware(solenoids: seq<byte>, igniters: seq<byte>, lights: seq<byte>)

  const OFF := Hardware([0, 0, 0, 0], [0], [0, 0, 0, 0])

  predicate Wired(h: Hardware) {
    |h.solenoids| == NUM_SOLENOIDS && |h.igniters| == NUM_IGNITERS && |h.lights| == 4
  }

  function Next(n: uint32): uint32 {
    (n + 1) % U32
  }

  /** The outputs of the controller, one after another. */
  datatype Output = Solenoid(n: nat) | Igniter(n: nat) | Light(n: nat)

  function OutputOf(control: uint16): (o: set<Output>)
    ensures |o| <= 1
  {
    if SOLENOID_START <= control < SOLENOID_START + NUM_SOLENOIDS then {Solenoid(control - SOLENOID_START)}
    else if IGNITER_START <= control < IGNITER_START + NUM_IGNITERS then {Igniter(control - IGNITER_START)}
    else if GREEN <= control <= BUZZER then {Light(control - GREEN)}
    else {}
  }

  /** The outputs there are: solenoids, the igniter, and the green, yellow and red light and the buzzer. */
  predicate Real(o: Output) {
    match o
    case Solenoid(n) => n < 4
    case Igniter(n) => n < 1
    case Light(n) => n < 4
  }

  /** The number by which a program names an output. */
  function ControlOf(o: Output): uint16
    requires Real(o)
  {
    match o
    case Solenoid(n) => 100 + n
    case Igniter(n) => 200 + n
    case Light(n) => 300 + n
  }

  /** Every output has just its own control number, and no other number names any. */
  lemma OutputsAreNamed(control: uint16, o: Output)
    ensures o in OutputOf(control) <==> Real(o) && control == ControlOf(o)
  {
  }

  function ValueOf(h: Hardware, o: Output): byte
    requires Wired(h)
  {
    match o
    case Solenoid(n) => if n < NUM_SOLENOIDS then h.solenoids[n] else 0
    case Igniter(n) => if n < NUM_IGNITERS then h.igniters[n] else 0
    case Light(n) => if n < 4 then h.lights[n] else 0
  }

  /** What a command does: it sets the output its control number names, unless its state does
      not fit eight bits. */
  function Executed(h: Hardware, c: Command): (h': Hardware)
    requires Wired(h)
    ensures Wired(h')
    ensures forall o :: ValueOf(h', o) == if c.state < 256 && o in OutputOf(c.control) then c.state else ValueOf(h, o)
  {
    var k := c.control;
    if c.state >= 256 then h
    else if SOLENOID_START <= k < SOLENOID_START + NUM_SOLENOIDS then
      h.(solenoids := h.solenoids[k - SOLENOID_START := c.state])
    else if IGNITER_START <= k < IGNITER_START + NUM_IGNITERS then
      h.(igniters := h.igniters[k - IGNITER_START := c.state])
    else if GREEN <= k <= BUZZER then h.(lights := h.lights[k - GREEN := c.state])
    else h
  }

  function ExecutedAll(h: Hardware, cs: seq<Command>): (h': Hardware)
    requires Wired(h)
    ensures Wired(h')
  {
    if |cs| == 0 then h else Executed(ExecutedAll(h, cs[..|cs| - 1]), cs[|cs| - 1])
  }

  /** After a list of commands each output shows the last one that concerned it. */
  lemma {:induction false} LastCommandWins(h: Hardware, cs: seq<Command>, k: nat, o: Output)
    requires Wired(h) && k < |cs| && cs[k].state < 256 && o in OutputOf(cs[k].control)
    requires forall j :: k < j < |cs| ==> cs[j].state >= 256 || o !in OutputOf(cs[j].control)
    ensures ValueOf(ExecutedAll(h, cs), o) == cs[k].state
  {
    if k < |cs| - 1 {
      LastCommandWins(h, cs[..|cs| - 1], k, o);
    }
  }

  // ---------------------------------------------------------------- the controller as a value

  datatype State = State(seqNum: uint32, hardware: Hardware)

  predicate Accepts(s: State, c: Command) {
    c.seqNum == Next(s.seqNum)
  }

  function Received(s: State, c: Command): (s': State)
    requires Wired(s.hardware)
    ensures Wired(s'.hardware)
  {
    if Accepts(s, c) then State(c.seqNum, Executed(s.hardware, c)) else s
  }

  /** A command as it lies in the receive buffer, fields in host order. */
  function Decoded(b: seq<byte>): Command
    requires |b| == COMMAND_SIZE
  {
    Command(Word(b[0], b[1], b[2], b[3]), Half(b[4], b[5]), Half(b[6], b[7]))
  }

  function Word(a: byte, b: byte, c: byte, d: byte): uint32 {
    a + 256 * b + 65536 * c + 16777216 * d
  }

  function Half(a: byte, b: byte): uint16 {
    a + 256 * b
  }

  /** The bytes a client sends. */
  function Sent(c: Command): (b: seq<byte>)
    ensures |b| == COMMAND_SIZE
  {
    var n := c.seqNum;
    [n % 256, n / 256 % 256, n / 65536 % 256, n / 16777216,
     c.control % 256, c.control / 256, c.state % 256, c.state / 256]
  }

  lemma WordSurvives(n: uint32)
    ensures Word(n % 256, n / 256 % 256, n / 65536 % 256, n / 16777216) == n
  {
    assert n / 256 / 256 == n / 65536 && n / 65536 / 256 == n / 16777216;
  }

  lemma CommandSurvives(c: Command)
    ensures Decoded(Sent(c)) == c
  {
    WordSurvives(c.seqNum);
    assert Half(c.control % 256, c.control / 256) == c.control;
    assert Half(c.state % 256, c.state / 256) == c.state;
  }

  // ---------------------------------------------------------------- the controller in place

  class EngineController {
    var seqNum: uint32
    const solenoids: array<byte>
    const igniters: array<byte>
    const lights: array<byte>
    const recvBuffer: array<byte>
    var acks: seq<uint32>

    predicate Valid()
      reads this
    {
      && solenoids.Length == NUM_SOLENOIDS && igniters.Length == NUM_IGNITERS && lights.Length == 4
      && recvBuffer.Length == COMMAND_SIZE
      && solenoids != igniters && solenoids != lights && solenoids != recvBuffer && igniters != lights
      && igniters != recvBuffer && lights != recvBuffer
    }

    function Now(): (s: State)
      requires Valid()
      reads this, solenoids, igniters, lights
      ensures Wired(s.hardware)
    {
      State(seqNum, Hardware(solenoids[..], igniters[..], lights[..]))
    }

    constructor ()
      ensures Valid() && Now() == State(0, OFF) && acks == [0]
      ensures fresh(solenoids) && fresh(igniters) && fresh(lights) && fresh(recvBuffer)
    {
      seqNum, acks := 0, [0];
      solenoids := new byte[NUM_SOLENOIDS](_ => 0);
      igniters := new byte[NUM_IGNITERS](_ => 0);
      lights := new byte[4](_ => 0);
      recvBuffer := new byte[COMMAND_SIZE](_ => 0);
      new;
      assert Now().hardware.igniters == [0];
    }

    method AckCmd()
      modifies this`acks
      ensures acks == old(acks) + [seqNum]
    {
      acks := acks + [seqNum];
    }

    /** `recvfrom`: a short datagram leaves the rest of the buffer as it was. */
    method Fill(datagram: seq<byte>)
      requires Valid() && |datagram| <= COMMAND_SIZE
      modifies recvBuffer
      ensures recvBuffer[..] == datagram + old(recvBuffer[|datagram|..])
    {
      for i := 0 to |datagram|
        invariant forall k :: 0 <= k < recvBuffer.Length ==>
          recvBuffer[k] == if k < i then datagram[k] else old(recvBuffer[k])
      {
        recvBuffer[i] := datagram[i];
      }
    }

    /** Set the output a command names. */
    method SetOutput(control: uint16, state: byte)
      requires Valid()
      modifies solenoids, igniters, lights
      ensures Now() == State(seqNum, Executed(old(Now().hardware), Command(0, control, state)))
    {
      if SOLENOID_START <= control < SOLENOID_START + NUM_SOLENOIDS {
        solenoids[control % SOLENOID_START] := state;
      }
      if IGNITER_START <= control < IGNITER_START + NUM_IGNITERS {
        igniters[control % IGNITER_START] := state;
      }
      if control == GREEN {
        lights[0] := state;
      } else if control == YELLOW {
        lights[1] := state;
      } else if control == RED {
        lights[2] := state;
      } else if control == BUZZER {
        lights[3] := state;
      }
    }

    /** One pass of the receive loop. */
    method Receive(datagram: seq<byte>)
      requires Valid()
      modifies this`seqNum, this`acks, solenoids, igniters, lights, recvBuffer
      ensures |datagram| > COMMAND_SIZE ==> Now() == old(Now()) && acks == old(acks)
      ensures |datagram| <= COMMAND_SIZE ==>
        Now() == Received(old(Now()), Decoded(datagram + old(recvBuffer[|datagram|..]))) && acks == old(acks) + [seqNum]
    {
      if |datagram| > COMMAND_SIZE {
        return;
      }
      Fill(datagram);
      var cmd := Decoded(recvBuffer[..]);
      if cmd.seqNum != (seqNum + 1) % U32 {
        AckCmd();
        return;
      }
      seqNum := cmd.seqNum;
      AckCmd();
      if cmd.state / 256 > 0 {
        return;
      }
      SetOutput(cmd.control, cmd.state);
    }
  }
}
