/** XBee API frames: a receiver that can be fed in pieces, and the sender. */
module Xbee {
  import opened Bytes
  import opened NetOrder

  const START_DELIMITER: byte := 0x7E
  const RX_FRAME_TYPE: byte := 0x90
  const TX_FRAME_TYPE: byte := 0x10
  const RX_BUFF_SIZE: nat := 2048
  const TX_BUFF_SIZE: nat := 1024

  /** Bytes of a receive frame between its header and its data. */
  const RX_PREFIX: nat := 12

  // ---------------------------------------------------------------- frames

  /** `check += b` in eight bits. */
  function AddByte(check: byte, b: byte): byte {
    (check + b) % 256
  }

  function Sum(s: seq<byte>): byte {
    if |s| == 0 then 0 else AddByte(Sum(s[..|s| - 1]), s[|s| - 1])
  }

  function Checksum(payload: seq<byte>): byte {
    255 - Sum(payload)
  }

  /** Delimiter, length, contents and a last byte. */
  function Framed(payload: seq<byte>, check: byte): (s: seq<byte>)
    requires |payload| < 0x1_0000
    ensures |s| == |payload| + 4
  {
    [START_DELIMITER, |payload| / 256, |payload| % 256] + payload + [check]
  }

  /** A frame on the wire: the last byte is the checksum. */
  function Encoded(payload: seq<byte>): (s: seq<byte>)
    requires |payload| < 0x1_0000
    ensures |s| == |payload| + 4
  {
    Framed(payload, Checksum(payload))
  }

  /** A call of the receive callback. A receive frame too short for its own prefix makes the
      source compute a length below zero; what it then passes on is not modelled. */
  datatype Call = Call(data: seq<byte>, source: nat) | ShortCall

  function CallsOf(payload: seq<byte>): seq<Call> {
    if |payload| == 0 || payload[0] != RX_FRAME_TYPE then []
    else if |payload| < RX_PREFIX then [ShortCall]
    else [Call(payload[RX_PREFIX..], Big(payload[1..9]))]
  }

  // ---------------------------------------------------------------- the receiver as a value

  datatype Phase = Hunting | AtLength | HalfLength(first: byte) | Reading(size: nat, got: seq<byte>)

  datatype Rx = Rx(phase: Phase, calls: seq<Call>)

  /** What a byte outside a frame does. */
  function HuntByte(r: Rx, b: byte): Rx {
    Rx(if b == START_DELIMITER then AtLength else Hunting, r.calls)
  }

  function Accepted(got: seq<byte>, check: byte): seq<Call> {
    if Checksum(got) == check then CallsOf(got) else []
  }

  /** What one byte does. The checksum byte is looked at again as a possible delimiter. */
  function Step(r: Rx, b: byte): Rx {
    match r.phase
    case Hunting => HuntByte(r, b)
    case AtLength => Rx(HalfLength(b), r.calls)
    case HalfLength(a) => Rx(Reading(256 * (a as int) + b, []), r.calls)
    case Reading(size, got) =>
      if |got| >= size then HuntByte(Rx(Hunting, r.calls + Accepted(got, b)), b)
      else Rx(Reading(size, got + [b]), r.calls)
  }

  function Feed(r: Rx, s: seq<byte>): Rx
    decreases |s|
  {
    if |s| == 0 then r else Feed(Step(r, s[0]), s[1..])
  }

  lemma {:induction false} FeedConcat(r: Rx, a: seq<byte>, b: seq<byte>)
    ensures Feed(r, a + b) == Feed(Feed(r, a), b)
    decreases |a|
  {
    if |a| == 0 {
      assert a + b == b;
    } else {
      FeedConcat(Step(r, a[0]), a[1..], b);
      assert (a + b)[1..] == a[1..] + b;
    }
  }

  lemma FeedNext(r: Rx, s: seq<byte>, i: nat)
    requires i < |s|
    ensures Feed(r, s[i..]) == Feed(Step(r, s[i]), s[i + 1..])
  {
  }

  /** Contents are gathered byte by byte. */
  lemma {:induction false} FeedContents(size: nat, got: seq<byte>, rest: seq<byte>, calls: seq<Call>)
    requires |got| + |rest| <= size
    ensures Feed(Rx(Reading(size, got), calls), rest) == Rx(Reading(size, got + rest), calls)
    decreases |rest|
  {
    if |rest| == 0 {
      assert got + rest == got;
    } else {
      FeedContents(size, got + [rest[0]], rest[1..], calls);
      assert got + [rest[0]] + rest[1..] == got + rest;
    }
  }

  lemma FeedOne(r: Rx, b: byte)
    ensures Feed(r, [b]) == Step(r, b)
  {
  }

  lemma FeedHeader(calls: seq<Call>, a: byte, b: byte)
    ensures Feed(Rx(Hunting, calls), [START_DELIMITER, a, b]) == Rx(Reading(256 * a + b, []), calls)
  {
    var s := [START_DELIMITER, a, b];
    assert s[1..] == [a, b] && [a, b][1..] == [b];
    FeedOne(Rx(HalfLength(a), calls), b);
    assert Feed(Rx(AtLength, calls), [a, b]) == Feed(Rx(HalfLength(a), calls), [b]);
  }

  /** Contents with a header and some checksum byte. */
  lemma FeedFramed(payload: seq<byte>, check: byte, calls: seq<Call>)
    requires |payload| < 0x1_0000
    ensures Feed(Rx(Hunting, calls), Framed(payload, check))
         == Rx(if check == START_DELIMITER then AtLength else Hunting, calls + Accepted(payload, check))
  {
    var head := [START_DELIMITER, |payload| / 256, |payload| % 256];
    FeedConcat(Rx(Hunting, calls), head + payload, [check]);
    FeedConcat(Rx(Hunting, calls), head, payload);
    FeedHeader(calls, |payload| / 256, |payload| % 256);
    FeedContents(|payload|, [], payload, calls);
    assert [] + payload == payload;
    FeedOne(Rx(Reading(|payload|, payload), calls), check);
  }

  /** One whole frame: exactly its callback is made, and the receiver is between frames again -
      unless the checksum happens to look like a delimiter. */
  lemma FeedFrame(payload: seq<byte>, calls: seq<Call>)
    requires |payload| < 0x1_0000
    ensures Feed(Rx(Hunting, calls), Encoded(payload))
         == Rx(if Checksum(payload) == START_DELIMITER then AtLength else Hunting, calls + CallsOf(payload))
  {
    FeedFramed(payload, Checksum(payload), calls);
  }

  // ---------------------------------------------------------------- the checksum

  function Total(s: seq<byte>): nat {
    if |s| == 0 then 0 else Total(s[..|s| - 1]) + s[|s| - 1]
  }

  lemma AddThenWrap(a: nat, b: nat)
    ensures (a % 256 + b) % 256 == (a + b) % 256
  {
  }

  lemma {:induction false} SumIsTotal(s: seq<byte>)
    ensures Sum(s) == Total(s) % 256
  {
    if |s| != 0 {
      SumIsTotal(s[..|s| - 1]);
      AddThenWrap(Total(s[..|s| - 1]), s[|s| - 1]);
    }
  }

  lemma {:induction false} TotalOfChanged(s: seq<byte>, i: nat, b: byte)
    requires i < |s|
    ensures Total(s[i := b]) == Total(s) - s[i] + b
  {
    var front := s[..|s| - 1];
    if i < |s| - 1 {
      TotalOfChanged(front, i, b);
      assert s[i := b][..|s| - 1] == front[i := b];
    } else {
      assert s[i := b][..|s| - 1] == front;
    }
  }

  lemma OffByLessThanAByte(a: nat, b: nat)
    requires a % 256 == b % 256 && -256 < a - b < 256
    ensures a == b
  {
  }

  /** The contents of a frame and its checksum add up to 255 in eight bits. */
  lemma ChecksumAddsUp(payload: seq<byte>)
    ensures (Total(payload) + Checksum(payload)) % 256 == 255
  {
    SumIsTotal(payload);
  }

  /** A frame in which one byte of the contents arrives wrong, whichever it is, is refused. */
  lemma OneWrongByteIsRefused(payload: seq<byte>, i: nat, b: byte, calls: seq<Call>)
    requires i < |payload| < 0x1_0000 && b != payload[i]
    ensures Feed(Rx(Hunting, calls), Encoded(payload)[i + 3 := b]).calls == calls
  {
    var wrong := payload[i := b];
    SumIsTotal(payload);
    SumIsTotal(wrong);
    TotalOfChanged(payload, i, b);
    if Sum(wrong) == Sum(payload) {
      OffByLessThanAByte(Total(wrong), Total(payload));
    }
    FeedFramed(wrong, Checksum(payload), calls);
    assert Encoded(payload)[i + 3 := b] == Framed(wrong, Checksum(payload));
  }

  /** A frame that comes right after a delimiter is taken for the length and contents of another:
      its own delimiter becomes the high byte of a length that no frame of this size fills. */
  lemma FeedAfterDelimiter(payload: seq<byte>, calls: seq<Call>)
    requires |payload| + 2 < RX_BUFF_SIZE
    ensures Feed(Rx(AtLength, calls), Encoded(payload))
         == Rx(Reading(256 * START_DELIMITER + |payload| / 256,
                       [|payload| % 256] + payload + [Checksum(payload)]), calls)
  {
    var a, b := |payload| / 256, |payload| % 256;
    var rest := [b] + payload + [Checksum(payload)];
    assert Encoded(payload) == [START_DELIMITER, a] + rest;
    FeedConcat(Rx(AtLength, calls), [START_DELIMITER, a], rest);
    assert [START_DELIMITER, a][1..] == [a];
    FeedOne(Rx(HalfLength(START_DELIMITER), calls), a);
    FeedContents(256 * START_DELIMITER + a, [], rest, calls);
    assert [] + rest == rest;
  }

  lemma SameCalls(a: seq<Call>, b: seq<Call>)
    ensures a + b == a <==> b == []
  {
    assert |a + b| == |a| + |b|;
  }

  /** Of two frames back to back, the second is heard exactly if the first one's checksum is not the
      delimiter, or if there is nothing to hear in the second. */
  lemma NextFrameHeardExactlyWhen(first: seq<byte>, second: seq<byte>, calls: seq<Call>)
    requires |first| < RX_BUFF_SIZE && |second| + 2 < RX_BUFF_SIZE
    ensures Feed(Rx(Hunting, calls), Encoded(first) + Encoded(second)).calls == calls + CallsOf(first) + CallsOf(second)
       <==> Checksum(first) != START_DELIMITER || CallsOf(second) == []
  {
    FeedConcat(Rx(Hunting, calls), Encoded(first), Encoded(second));
    FeedFrame(first, calls);
    if Checksum(first) == START_DELIMITER {
      FeedAfterDelimiter(second, calls + CallsOf(first));
      SameCalls(calls + CallsOf(first), CallsOf(second));
    } else {
      FeedFrame(second, calls + CallsOf(first));
    }
  }

  // ---------------------------------------------------------------- what a frame says

  /** A frame as the radio means it: data from an address, or something without a callback. */
  datatype Frame =
    | Receive(source: seq<byte>, reserved: seq<byte>, options: byte, data: seq<byte>)
    | Other(contents: seq<byte>)

  predicate Proper(f: Frame) {
    match f
    case Receive(source, reserved, _, _) => |source| == 8 && |reserved| == 2
    case Other(contents) => |contents| > 0 ==> contents[0] != RX_FRAME_TYPE
  }

  /** Its contents on the wire. */
  function Contents(f: Frame): seq<byte> {
    match f
    case Receive(source, reserved, options, data) => [0x90] + source + reserved + [options] + data
    case Other(contents) => contents
  }

  /** What the program is told of it: the data, and the address read as a number. */
  function Heard(f: Frame): seq<Call> {
    match f
    case Receive(source, _, _, data) => [Call(data, Big(source))]
    case Other(_) => []
  }

  function AllHeard(fs: seq<Frame>): seq<Call> {
    if |fs| == 0 then [] else Heard(fs[0]) + AllHeard(fs[1..])
  }

  function AllContents(fs: seq<Frame>): (ps: seq<seq<byte>>)
    ensures |ps| == |fs| && forall k :: 0 <= k < |fs| ==> ps[k] == Contents(fs[k])
  {
    seq(|fs|, k requires 0 <= k < |fs| => Contents(fs[k]))
  }

  /** The callback gets the data and the source address, and nothing else of the frame. */
  lemma CallsOfContents(f: Frame)
    requires Proper(f)
    ensures CallsOf(Contents(f)) == Heard(f)
  {
    if f.Receive? {
      var p := Contents(f);
      assert p[1..9] == f.source;
      assert p[RX_PREFIX..] == f.data;
    }
  }

  lemma {:induction false} AllCallsOfContents(fs: seq<Frame>)
    requires forall k :: 0 <= k < |fs| ==> Proper(fs[k])
    ensures AllCalls(AllContents(fs)) == AllHeard(fs)
  {
    if |fs| > 0 {
      CallsOfContents(fs[0]);
      AllCallsOfContents(fs[1..]);
      assert AllContents(fs)[1..] == AllContents(fs[1..]);
    }
  }

  /** A receive frame fed to the receiver makes just the callback with its data and address. */
  lemma FrameIsHeard(f: Frame, calls: seq<Call>)
    requires Proper(f) && |Contents(f)| < 0x1_0000
    ensures Feed(Rx(Hunting, calls), Encoded(Contents(f))).calls == calls + Heard(f)
  {
    FeedFrame(Contents(f), calls);
    CallsOfContents(f);
  }

  // ---------------------------------------------------------------- streams and chunks

  predicate WellFormed(payload: seq<byte>) {
    && |payload| < RX_BUFF_SIZE && Checksum(payload) != START_DELIMITER
    && (|payload| > 0 && payload[0] == RX_FRAME_TYPE ==> |payload| >= RX_PREFIX)
  }

  function Stream(payloads: seq<seq<byte>>): seq<byte>
    requires forall k :: 0 <= k < |payloads| ==> WellFormed(payloads[k])
  {
    if |payloads| == 0 then [] else (assert WellFormed(payloads[0]); Encoded(payloads[0])) + Stream(payloads[1..])
  }

  function AllCalls(payloads: seq<seq<byte>>): seq<Call> {
    if |payloads| == 0 then [] else CallsOf(payloads[0]) + AllCalls(payloads[1..])
  }

  lemma JoinCalls(a: seq<Call>, b: seq<Call>, c: seq<Call>)
    ensures a + b + c == a + (b + c)
  {
  }

  /** Back-to-back frames in one piece: one callback for each receive frame, in order. */
  lemma {:induction false} FeedStream(payloads: seq<seq<byte>>, calls: seq<Call>)
    requires forall k :: 0 <= k < |payloads| ==> WellFormed(payloads[k])
    ensures Feed(Rx(Hunting, calls), Stream(payloads)) == Rx(Hunting, calls + AllCalls(payloads))
  {
    if |payloads| == 0 {
      assert calls + [] == calls;
    } else {
      var first, rest := payloads[0], payloads[1..];
      assert WellFormed(first);
      FeedConcat(Rx(Hunting, calls), Encoded(first), Stream(rest));
      FeedFrame(first, calls);
      FeedStream(rest, calls + CallsOf(first));
      JoinCalls(calls, CallsOf(first), AllCalls(rest));
    }
  }

  /** Between two calls the first length byte is not kept: the next call finds `junk` there. */
  function Forget(r: Rx, junk: byte): Rx {
    if r.phase.HalfLength? then Rx(HalfLength(junk), r.calls) else r
  }

  /** The receiver fed chunk by chunk. */
  function FeedChunks(r: Rx, chunks: seq<seq<byte>>, junk: seq<byte>): Rx
    requires |junk| == |chunks|
    decreases |chunks|
  {
    if |chunks| == 0 then r else FeedChunks(Feed(Forget(r, junk[0]), chunks[0]), chunks[1..], junk[1..])
  }

  function Joined(chunks: seq<seq<byte>>): seq<byte> {
    if |chunks| == 0 then [] else chunks[0] + Joined(chunks[1..])
  }

  /** No chunk ends between the two length bytes of a frame. */
  predicate LengthsWhole(r: Rx, chunks: seq<seq<byte>>)
    decreases |chunks|
  {
    !r.phase.HalfLength? && (|chunks| > 0 ==> LengthsWhole(Feed(r, chunks[0]), chunks[1..]))
  }

  lemma {:induction false} ChunksJoin(r: Rx, chunks: seq<seq<byte>>, junk: seq<byte>)
    requires |junk| == |chunks| && LengthsWhole(r, chunks)
    ensures FeedChunks(r, chunks, junk) == Feed(r, Joined(chunks))
    decreases |chunks|
  {
    if |chunks| > 0 {
      ChunksJoin(Feed(r, chunks[0]), chunks[1..], junk[1..]);
      FeedConcat(r, chunks[0], Joined(chunks[1..]));
    }
  }

  /** Chunk independence: however a stream of well-formed frames is cut into chunks, as long as
      no cut falls between two length bytes, the callbacks are those of the frames. */
  lemma ChunkingDoesNotMatter(payloads: seq<seq<byte>>, chunks: seq<seq<byte>>, junk: seq<byte>)
    requires forall k :: 0 <= k < |payloads| ==> WellFormed(payloads[k])
    requires |junk| == |chunks| && Joined(chunks) == Stream(payloads) && LengthsWhole(Rx(Hunting, []), chunks)
    ensures FeedChunks(Rx(Hunting, []), chunks, junk) == Rx(Hunting, AllCalls(payloads))
  {
    ChunksJoin(Rx(Hunting, []), chunks, junk);
    FeedStream(payloads, []);
    assert [] + AllCalls(payloads) == AllCalls(payloads);
  }

  /** A cut between the length bytes does matter: the length is then read right exactly when the
      forgotten byte happens to be what the next call finds in its place. */
  lemma SplitLengthReadRightExactlyWhen(a: byte, b: byte, junk: byte, calls: seq<Call>)
    ensures FeedChunks(Rx(AtLength, calls), [[a], [b]], [junk, junk]).phase == Reading(256 * a + b, []) <==> junk == a
  {
    var r := Rx(AtLength, calls);
    FeedOne(r, a);
    FeedOne(Rx(HalfLength(junk), calls), b);
    var rest: seq<seq<byte>>, left: seq<byte> := [[b]], [junk];
    assert [[a], [b]][1..] == rest && [junk, junk][1..] == left;
    assert rest[1..] == [] && left[1..] == [];
    assert FeedChunks(Rx(HalfLength(a), calls), rest, left) == Feed(Rx(HalfLength(junk), calls), [b]);
  }

  /** A frame whose length has been read fits the buffer with its checksum. */
  predicate FrameFits(r: Rx) {
    r.phase.Reading? ==> r.phase.size < RX_BUFF_SIZE
  }

  // ---------------------------------------------------------------- the receiver in place

  datatype State = WaitingForFrame | WaitingForLength | ReadingPayload

  lemma SumOneMore(s: seq<byte>, b: byte)
    ensures Sum(s + [b]) == AddByte(Sum(s), b)
  {
  }

  class XbeeReceiver {
    var state: State
    var rxIndex: nat
    var toRead: nat
    var payloadSize: nat
    var check: byte
    const rxBuff: array<byte>
    /** The request: how many bytes the driver may deliver next, and where in the buffer. */
    var reqLen: nat
    var reqAt: nat
    var calls: seq<Call>

    /** The fields as a value; `first` is the length byte held in the running call. */
    function Now(first: byte): Rx
      requires rxIndex <= rxBuff.Length
      reads this, rxBuff
    {
      Rx(match state
         case WaitingForFrame => Hunting
         case WaitingForLength => if rxIndex == 0 then AtLength else HalfLength(first)
         case ReadingPayload => Reading(payloadSize, rxBuff[..rxIndex]), calls)
    }

    predicate Consistent()
      reads this, rxBuff
    {
      && rxBuff.Length == RX_BUFF_SIZE && rxIndex <= RX_BUFF_SIZE
      && (state.WaitingForLength? ==> rxIndex < 2)
      && (!state.ReadingPayload? ==> check == 0)
      && (state.ReadingPayload? ==>
            payloadSize < RX_BUFF_SIZE && rxIndex <= payloadSize && toRead == payloadSize + 1 - rxIndex
            && check == Sum(rxBuff[..rxIndex]))
    }

    /** How many bytes the parser asks for where it stands. */
    function Wanted(): nat
      reads this
    {
      match state
      case WaitingForFrame => 3
      case WaitingForLength => if rxIndex < 2 then 2 - rxIndex else 0
      case ReadingPayload => toRead
    }

    /** Between calls. */
    predicate Valid()
      reads this, rxBuff
    {
      Consistent() && reqLen == Wanted() && reqAt == if state.ReadingPayload? then rxIndex else 0
    }

    /** The statics, after the first call has been made with no bytes. */
    constructor ()
      ensures Valid() && Now(0) == Rx(Hunting, []) && fresh(rxBuff)
    {
      state, rxIndex, toRead, payloadSize, check := WaitingForFrame, 0, 0, 0, 0;
      rxBuff := new byte[RX_BUFF_SIZE](_ => 0);
      reqLen, reqAt, calls := 3, 0, [];
    }

    /** The driver puts what it read where it was asked to. */
    method Deliver(chunk: seq<byte>)
      requires Valid() && |chunk| <= reqLen
      modifies rxBuff
      ensures Valid() && Now(0) == old(Now(0))
      ensures InPlace(chunk, 0)
    {
      for i := 0 to |chunk|
        invariant Valid() && Now(0) == old(Now(0))
        invariant state.ReadingPayload? ==> forall k :: rxIndex <= k < rxIndex + i ==> rxBuff[k] == chunk[k - rxIndex]
      {
        ghost var was := rxBuff[..rxIndex];
        rxBuff[reqAt + i] := chunk[i];
        assert state.ReadingPayload? ==> rxBuff[..rxIndex] == was;
      }
    }

    /** The bytes still to look at are where the payload goes, if a payload is being read. */
    predicate InPlace(chunk: seq<byte>, i: nat)
      reads this, rxBuff
    {
      && i <= |chunk| && Consistent() && |chunk| - i <= Wanted()
      && (state.ReadingPayload? ==>
            forall k :: rxIndex <= k < rxIndex + |chunk| - i ==> rxBuff[k] == chunk[k - rxIndex + i])
    }

    /** `WAITING_FOR_FRAME`: look for a delimiter. */
    method Hunt(chunk: seq<byte>, from: nat, first: byte) returns (i: nat)
      requires InPlace(chunk, from) && state.WaitingForFrame?
      modifies this
      ensures from <= i <= |chunk| && InPlace(chunk, i) && calls == old(calls)
      ensures state.WaitingForFrame? ==> i == |chunk|
      ensures !state.WaitingForFrame? ==> state.WaitingForLength? && rxIndex == 0 && i > from
      ensures Feed(Now(first), chunk[i..]) == Feed(old(Now(first)), chunk[from..])
    {
      i := from;
      while i < |chunk|
        invariant from <= i <= |chunk| && InPlace(chunk, i) && state.WaitingForFrame? && calls == old(calls)
        invariant Feed(Now(first), chunk[i..]) == Feed(old(Now(first)), chunk[from..])
      {
        assert chunk[i..][1..] == chunk[i + 1..];
        if chunk[i] == START_DELIMITER {
          state := WaitingForLength;
          rxIndex := 0;
          i := i + 1;
          return;
        }
        i := i + 1;
      }
    }

    /** `ntoh16` of the two length bytes. */
    static method LengthOf(lenBuff: array<byte>) returns (n: nat)
      requires lenBuff.Length == 2
      ensures n == 256 * (lenBuff[0] as int) + lenBuff[1]
    {
      var s := lenBuff[..];
      LittleBound(s);
      n := Hton(Little(s), 2);
      BytesOfLittle(s);
      LittleOfBytes(n, 2);
      assert LittleBytes(n, 2) == [lenBuff[1], lenBuff[0]];
      assert [lenBuff[1], lenBuff[0]][1..] == [lenBuff[0]] && [lenBuff[0]][1..] == [];
    }

    /** `WAITING_FOR_LENGTH`: the two length bytes, kept in a local buffer. */
    method ReadLength(chunk: seq<byte>, from: nat, lenBuff: array<byte>) returns (i: nat)
      requires InPlace(chunk, from) && state.WaitingForLength? && lenBuff.Length == 2 && lenBuff != rxBuff
      requires FrameFits(Feed(Now(lenBuff[0]), chunk[from..]))
      modifies this, lenBuff
      ensures from <= i <= |chunk| && calls == old(calls)
      ensures InPlace(chunk, i) && i == |chunk|
      ensures state.WaitingForLength? || (state.ReadingPayload? && rxIndex == 0)
      ensures Feed(Now(lenBuff[0]), chunk[i..]) == Feed(old(Now(lenBuff[0])), chunk[from..])
    {
      i := from;
      while i < |chunk|
        invariant from <= i <= |chunk| && InPlace(chunk, i) && state.WaitingForLength? && calls == old(calls)
        invariant Feed(Now(lenBuff[0]), chunk[i..]) == Feed(old(Now(lenBuff[0])), chunk[from..])
      {
        assert chunk[i..][1..] == chunk[i + 1..];
        lenBuff[rxIndex] := chunk[i];
        rxIndex := rxIndex + 1;
        if rxIndex == 2 {
          payloadSize := LengthOf(lenBuff);
          toRead := payloadSize + 1;
          rxIndex := 0;
          state := ReadingPayload;
          i := i + 1;
          assert rxBuff[..0] == [] && chunk[i..] == [];
          return;
        }
        i := i + 1;
      }
    }

    /** Pick the callback by the frame type. */
    method Dispatch(ghost got: seq<byte>)
      requires rxBuff.Length == RX_BUFF_SIZE && payloadSize == |got| < RX_BUFF_SIZE && got == rxBuff[..payloadSize]
      requires |got| == 0 ==> rxBuff[0] != RX_FRAME_TYPE
      modifies this`calls
      ensures calls == old(calls) + CallsOf(got)
    {
      if rxBuff[0] == RX_FRAME_TYPE {
        if payloadSize < RX_PREFIX {
          calls := calls + [ShortCall];
        } else {
          calls := calls + [Call(rxBuff[RX_PREFIX..payloadSize], Big(rxBuff[1..9]))];
          assert got[1..9] == rxBuff[1..9];
        }
      }
    }

    /** The checksum byte, just counted in: the frame is accepted or thrown away. */
    method EndFrame(ghost got: seq<byte>)
      requires rxBuff.Length == RX_BUFF_SIZE && payloadSize == |got| < RX_BUFF_SIZE && got == rxBuff[..payloadSize]
      requires rxIndex == payloadSize + 1 && check == Sum(got)
      modifies this`calls, this`check, this`state
      ensures state.WaitingForFrame? && check == 0
      ensures calls == old(calls) + Accepted(got, rxBuff[payloadSize])
    {
      var checksum := 255 - check;
      if checksum == rxBuff[rxIndex - 1] {
        Dispatch(got);
      } else {
        assert calls + [] == calls;
      }
      check := 0;
      state := WaitingForFrame;
    }

    /** `check += b`. */
    method AddCheck(ghost got: seq<byte>, b: byte)
      requires check == Sum(got)
      modifies this`check
      ensures check == Sum(got + [b])
    {
      SumOneMore(got, b);
      check := AddByte(check, b);
    }

    /** A byte that is not the last one of its frame. */
    method AddContent(b: byte)
      requires Consistent() && state.ReadingPayload? && toRead > 1 && rxBuff[rxIndex] == b
      modifies this`rxIndex, this`toRead, this`check
      ensures Consistent() && rxIndex == old(rxIndex) + 1 && toRead == old(toRead) - 1
      ensures rxBuff[..rxIndex] == old(rxBuff[..rxIndex]) + [b]
    {
      ghost var got := rxBuff[..rxIndex];
      rxIndex, toRead := rxIndex + 1, toRead - 1;
      assert rxBuff[..rxIndex] == got + [b];
      AddCheck(got, b);
    }

    /** One byte of contents or the checksum. */
    method PayloadByte(b: byte) returns (done: bool)
      requires Consistent() && state.ReadingPayload? && rxBuff[rxIndex] == b
      modifies this`rxIndex, this`toRead, this`calls, this`check, this`state
      ensures Consistent() && done == (old(toRead) == 1)
      ensures done ==> state.WaitingForFrame?
                       && calls == old(calls) + Accepted(old(rxBuff[..rxIndex]), b)
      ensures !done ==> state.ReadingPayload? && rxIndex == old(rxIndex) + 1 && toRead == old(toRead) - 1
                        && calls == old(calls) && rxBuff[..rxIndex] == old(rxBuff[..rxIndex]) + [b]
    {
      if toRead - 1 == 0 {
        ghost var got := rxBuff[..rxIndex];
        rxIndex, toRead := rxIndex + 1, toRead - 1;
        EndFrame(got);
        return true;
      }
      AddContent(b);
      return false;
    }

    /** `READING_PAYLOAD`: contents and checksum. When the checksum has been read the parser
        starts over at that very byte. */
    method ReadPayload(chunk: seq<byte>, from: nat, first: byte) returns (i: nat)
      requires InPlace(chunk, from) && state.ReadingPayload?
      modifies this`rxIndex, this`toRead, this`calls, this`check, this`state
      ensures from <= i <= |chunk| && InPlace(chunk, i)
      ensures state.ReadingPayload? ==> i == |chunk|
      ensures !state.ReadingPayload? ==> state.WaitingForFrame?
      ensures Feed(Now(first), chunk[i..]) == Feed(old(Now(first)), chunk[from..])
    {
      i := from;
      ghost var target := Feed(Now(first), chunk[from..]);
      while i < |chunk|
        invariant from <= i <= |chunk| && Consistent() && state.ReadingPayload?
        invariant rxIndex - i == old(rxIndex) - from && |chunk| - i <= toRead
        invariant Feed(Now(first), chunk[i..]) == target
      {
        ghost var was := Now(first);
        FeedNext(was, chunk, i);
        assert rxBuff[rxIndex] == chunk[rxIndex - old(rxIndex) + from];
        var done := PayloadByte(chunk[i]);
        if done {
          FeedNext(Now(first), chunk, i);
          assert Step(was, chunk[i]) == Step(Now(first), chunk[i]);
          return;
        }
        assert Step(was, chunk[i]) == Now(first);
        i := i + 1;
      }
    }

    /** `xb_rx_complete`, after the driver has delivered `chunk`. `junk` is what the length
        buffer, a local of the call, happens to hold at first. */
    method RxComplete(chunk: seq<byte>, junk: byte)
      requires Valid() && |chunk| <= reqLen
      requires FrameFits(Feed(Forget(Now(0), junk), chunk))
      modifies this, rxBuff
      ensures Valid()
      ensures Now(0) == Forget(Feed(Forget(old(Now(0)), junk), chunk), 0)
    {
      Deliver(chunk);
      ghost var target := Feed(Forget(Now(0), junk), chunk);
      var lenBuff := new byte[2](_ => junk);
      var i := 0;
      assert chunk[0..] == chunk;
      var again := true;
      while again
        invariant InPlace(chunk, i) && lenBuff.Length == 2 && fresh(lenBuff)
        invariant Feed(Now(lenBuff[0]), chunk[i..]) == target
        invariant !again ==> i == |chunk|
        decreases again, |chunk| - i, state.ReadingPayload?
      {
        again := false;
        if state.WaitingForFrame? {
          i := Hunt(chunk, i, lenBuff[0]);
        }
        if state.WaitingForLength? {
          i := ReadLength(chunk, i, lenBuff);
        }
        if state.ReadingPayload? {
          i := ReadPayload(chunk, i, lenBuff[0]);
          again := state.WaitingForFrame?;
        }
      }
      assert chunk[i..] == [];
      reqLen := Wanted();
      reqAt := if state.ReadingPayload? then rxIndex else 0;
    }
  }

  // ---------------------------------------------------------------- from the wire to the callbacks

  /** Part of a well-formed stream never announces a frame that does not fit. */
  lemma {:induction false} PrefixFits(payloads: seq<seq<byte>>, calls: seq<Call>, n: nat)
    requires (forall k :: 0 <= k < |payloads| ==> WellFormed(payloads[k])) && n <= |Stream(payloads)|
    ensures FrameFits(Feed(Rx(Hunting, calls), Stream(payloads)[..n]))
  {
    if |payloads| > 0 {
      var first, rest := payloads[0], payloads[1..];
      assert WellFormed(first);
      var frame := Encoded(first);
      if n < |frame| {
        FramePrefixFits(first, calls, n);
        assert Stream(payloads)[..n] == frame[..n];
      } else {
        assert Stream(payloads)[..n] == frame + Stream(rest)[..n - |frame|];
        FeedConcat(Rx(Hunting, calls), frame, Stream(rest)[..n - |frame|]);
        FeedFrame(first, calls);
        PrefixFits(rest, calls + CallsOf(first), n - |frame|);
      }
    }
  }

  lemma FramePrefixFits(payload: seq<byte>, calls: seq<Call>, n: nat)
    requires WellFormed(payload) && n < |Encoded(payload)|
    ensures FrameFits(Feed(Rx(Hunting, calls), Encoded(payload)[..n]))
  {
    var a, b := |payload| / 256, |payload| % 256;
    var r := Rx(Hunting, calls);
    if n == 0 {
    } else if n == 1 {
      assert Encoded(payload)[..n] == [START_DELIMITER];
      FeedOne(r, START_DELIMITER);
    } else if n == 2 {
      assert Encoded(payload)[..n] == [START_DELIMITER] + [a];
      FeedConcat(r, [START_DELIMITER], [a]);
      FeedOne(r, START_DELIMITER);
      FeedOne(Rx(AtLength, calls), a);
    } else {
      assert Encoded(payload)[..n] == [START_DELIMITER, a, b] + payload[..n - 3];
      FeedConcat(r, [START_DELIMITER, a, b], payload[..n - 3]);
      FeedHeader(calls, a, b);
      FeedContents(|payload|, [], payload[..n - 3], calls);
    }
  }

  /** How many bytes the receiver asks for. */
  function Requested(r: Rx): nat {
    match r.phase
    case Hunting => 3
    case AtLength => 2
    case HalfLength(_) => 1
    case Reading(size, got) => if |got| <= size then size + 1 - |got| else 0
  }

  /** No read gives more than was asked for. */
  predicate NoMoreThanRequested(r: Rx, chunks: seq<seq<byte>>)
    decreases |chunks|
  {
    |chunks| > 0 ==> |chunks[0]| <= Requested(r) && NoMoreThanRequested(Feed(r, chunks[0]), chunks[1..])
  }

  lemma {:induction false} JoinedOneMore(chunks: seq<seq<byte>>, i: nat)
    requires i < |chunks|
    ensures Joined(chunks[..i + 1]) == Joined(chunks[..i]) + chunks[i]
    decreases i
  {
    if i == 0 {
      assert chunks[..1] == [chunks[0]] && chunks[..1][1..] == [];
      assert Joined(chunks[..1]) == chunks[0] + [];
    } else {
      JoinedOneMore(chunks[1..], i - 1);
      assert chunks[..i + 1][1..] == chunks[1..][..i] && chunks[..i][1..] == chunks[1..][..i - 1];
    }
  }

  lemma {:induction false} JoinedPrefix(chunks: seq<seq<byte>>, i: nat)
    requires i <= |chunks|
    ensures Joined(chunks[..i]) <= Joined(chunks)
    decreases |chunks| - i
  {
    if i < |chunks| {
      JoinedOneMore(chunks, i);
      JoinedPrefix(chunks, i + 1);
    } else {
      assert chunks[..i] == chunks;
    }
  }

  /** One chunk more of the stream, and the frame it ends in fits the buffer. */
  lemma NextChunkFits(payloads: seq<seq<byte>>, chunks: seq<seq<byte>>, i: nat)
    requires (forall k :: 0 <= k < |payloads| ==> WellFormed(payloads[k])) && i < |chunks|
    requires Joined(chunks) == Stream(payloads)
    ensures var r := Feed(Feed(Rx(Hunting, []), Joined(chunks[..i])), chunks[i]);
      r == Feed(Rx(Hunting, []), Joined(chunks[..i + 1])) && FrameFits(r)
  {
    var next := Joined(chunks[..i + 1]);
    JoinedOneMore(chunks, i);
    JoinedPrefix(chunks, i + 1);
    FeedConcat(Rx(Hunting, []), Joined(chunks[..i]), chunks[i]);
    assert next == Stream(payloads)[..|next|];
    PrefixFits(payloads, [], |next|);
  }

  lemma TwoChunks(head: seq<byte>, body: seq<byte>, more: seq<seq<byte>>)
    ensures var chunks := [head] + ([body] + more);
      && chunks[0] == head && chunks[1..] == [body] + more
      && ([body] + more)[0] == body && ([body] + more)[1..] == more
      && Joined(chunks) == head + (body + Joined(more))
  {
  }

  /** The two reads of a frame, one after the other. */
  lemma HeadThenBody(payload: seq<byte>, head: seq<byte>, body: seq<byte>, calls: seq<Call>)
    requires WellFormed(payload)
    requires head == [START_DELIMITER, |payload| / 256, |payload| % 256] && body == payload + [Checksum(payload)]
    ensures Feed(Rx(Hunting, calls), head) == Rx(Reading(|payload|, []), calls)
    ensures Feed(Rx(Reading(|payload|, []), calls), body) == Rx(Hunting, calls + CallsOf(payload))
    ensures head + body == Encoded(payload)
  {
    FeedHeader(calls, |payload| / 256, |payload| % 256);
    FeedConcat(Rx(Hunting, calls), head, body);
    assert head + body == Encoded(payload);
    FeedFrame(payload, calls);
  }

  /** A line that always has enough to give: every read returns all that is asked for, first the
      header of a frame, then its contents and checksum. Such reads are never more than requested
      and never cut a length, whatever the frames. */
  lemma {:induction false} FullReads(payloads: seq<seq<byte>>, calls: seq<Call>) returns (chunks: seq<seq<byte>>)
    requires forall k :: 0 <= k < |payloads| ==> WellFormed(payloads[k])
    ensures Joined(chunks) == Stream(payloads) && |chunks| == 2 * |payloads|
    ensures LengthsWhole(Rx(Hunting, calls), chunks) && NoMoreThanRequested(Rx(Hunting, calls), chunks)
  {
    if |payloads| == 0 {
      chunks := [];
    } else {
      var first, rest := payloads[0], payloads[1..];
      assert WellFormed(first);
      var head, body := [START_DELIMITER, |first| / 256, |first| % 256], first + [Checksum(first)];
      var more := FullReads(rest, calls + CallsOf(first));
      chunks := [head] + ([body] + more);
      HeadThenBody(first, head, body, calls);
      TwoChunks(head, body, more);
      assert Encoded(first) + Stream(rest) == head + (body + Stream(rest));
    }
  }

  /** The loop of the bridge: whatever each read returns, the program is told exactly the data of
      the receive frames that were sent, each with its source address, in order. */
  method Bridge(x: XbeeReceiver, ghost frames: seq<Frame>, chunks: seq<seq<byte>>, junk: seq<byte>)
    requires x.Valid() && x.Now(0) == Rx(Hunting, [])
    requires forall k :: 0 <= k < |frames| ==> Proper(frames[k]) && WellFormed(Contents(frames[k]))
    requires |junk| == |chunks| && Joined(chunks) == Stream(AllContents(frames))
    requires LengthsWhole(Rx(Hunting, []), chunks) && NoMoreThanRequested(Rx(Hunting, []), chunks)
    modifies x, x.rxBuff
    ensures x.Valid() && x.calls == AllHeard(frames)
  {
    ghost var payloads := AllContents(frames);
    ghost var start := Rx(Hunting, []);
    assert chunks[..0] == [] && chunks[0..] == chunks;
    for i := 0 to |chunks|
      invariant x.Valid() && x.Now(0) == Feed(start, Joined(chunks[..i]))
      invariant LengthsWhole(x.Now(0), chunks[i..]) && NoMoreThanRequested(x.Now(0), chunks[i..])
    {
      NextChunkFits(payloads, chunks, i);
      assert chunks[i..][0] == chunks[i] && chunks[i..][1..] == chunks[i + 1..];
      x.RxComplete(chunks[i], junk[i]);
    }
    assert chunks[..|chunks|] == chunks;
    FeedStream(payloads, []);
    assert [] + AllCalls(payloads) == AllCalls(payloads);
    AllCallsOfContents(frames);
  }

  // ---------------------------------------------------------------- sending

  /** Contents of the two frames the station sends. Multi-byte fields are in network order. */
  function TxPayload(addr: seq<byte>, data: seq<byte>): seq<byte> {
    [TX_FRAME_TYPE, 0] + addr + [0xFF, 0xFE, 0, 0x80] + data
  }

  function RemoteAtPayload(addr: seq<byte>, cmd: seq<byte>, param: seq<byte>): seq<byte> {
    [0x17, 0] + addr + [0xFF, 0xFE, 0x02] + cmd + param
  }

  /** What the radio that gets a transmit frame makes the one at the other end put out: a receive
      frame with the data, from the sender's own address. The fields are where the transmit frame
      has them: type, id, destination, two reserved bytes, radius, options, data. */
  function Relayed(tx: seq<byte>, sender: seq<byte>, options: byte): Frame
    requires |tx| >= 14
  {
    if tx[0] == 0x10 then Receive(sender, tx[10..12], options, tx[14..]) else Other([])
  }

  /** A transmit frame names its destination, asks for no answer, for the largest number of hops and
      for delivery to the network, and the data arrives as it was sent. */
  lemma SentIsHeard(addr: seq<byte>, data: seq<byte>, sender: seq<byte>, options: byte, calls: seq<Call>)
    requires |addr| == |sender| == 8 && |data| + 18 <= TX_BUFF_SIZE
    ensures var tx := TxPayload(addr, data);
      && tx[0..2] == [0x10, 0] && tx[2..10] == addr && tx[10..14] == [0xFF, 0xFE, 0, 0x80]
      && Feed(Rx(Hunting, calls), Encoded(Contents(Relayed(tx, sender, options)))).calls
         == calls + [Call(data, Big(sender))]
  {
    var tx := TxPayload(addr, data);
    assert tx[2..10] == addr && tx[10..14] == [0xFF, 0xFE, 0, 0x80] && tx[14..] == data;
    FrameIsHeard(Relayed(tx, sender, options), calls);
  }

  /** A remote command names its destination, asks for no answer, is to be applied at once, and
      carries the command and its parameter whole. */
  lemma RemoteCommandFields(addr: seq<byte>, cmd: seq<byte>, param: seq<byte>)
    requires |addr| == 8 && |cmd| == 2
    ensures var p := RemoteAtPayload(addr, cmd, param);
      && p[0..2] == [0x17, 0] && p[2..10] == addr && p[10..13] == [0xFF, 0xFE, 0x02]
      && p[13..15] == cmd && p[15..] == param
  {
  }

  class XbeeSender {
    const txBuff: array<byte>

    constructor ()
      ensures txBuff.Length == TX_BUFF_SIZE && fresh(txBuff)
    {
      txBuff := new byte[TX_BUFF_SIZE](_ => 0);
    }

    method Put(at: nat, bytes: seq<byte>)
      requires at + |bytes| <= txBuff.Length
      modifies txBuff
      ensures txBuff[..at + |bytes|] == old(txBuff[..at]) + bytes
    {
      for i := 0 to |bytes|
        invariant txBuff[..at + i] == old(txBuff[..at]) + bytes[..i]
      {
        txBuff[at + i] := bytes[i];
        assert txBuff[..at + i + 1] == txBuff[..at + i] + [bytes[i]];
      }
    }

    /** The header, from the length of what follows it. */
    method PutHeader(length: nat)
      requires length < 0x1_0000 && txBuff.Length == TX_BUFF_SIZE
      modifies txBuff
      ensures txBuff[..3] == [START_DELIMITER, length / 256, length % 256]
    {
      assert Pow256(1) == 256 && Pow256(2) == 65536;
      var n := Hton(length, 2);
      assert LittleBytes(length, 2) == [length % 256, length / 256];
      Put(0, [START_DELIMITER]);
      Put(1, LittleBytes(n, 2));
    }

    /** The checksum loop, over everything after the header. */
    method PutChecksum(payload: seq<byte>)
      requires |payload| + 4 <= txBuff.Length == TX_BUFF_SIZE
      requires txBuff[..3 + |payload|] == [START_DELIMITER, |payload| / 256, |payload| % 256] + payload
      modifies txBuff
      ensures txBuff[..|payload| + 4] == Encoded(payload)
    {
      var check: byte := 0;
      ghost var framed := [START_DELIMITER, |payload| / 256, |payload| % 256] + payload;
      for i := 3 to 3 + |payload|
        invariant txBuff[..3 + |payload|] == framed && check == Sum(payload[..i - 3])
      {
        assert txBuff[i] == framed[i] == payload[i - 3];
        assert payload[..i + 1 - 3] == payload[..i - 3] + [payload[i - 3]];
        SumOneMore(payload[..i - 3], payload[i - 3]);
        check := AddByte(check, txBuff[i]);
      }
      assert payload[..|payload|] == payload;
      Put(3 + |payload|, [255 - check]);
    }

    /** `xb_sendto`: what is written is the encoded frame, with the checksum receivers accept. */
    method SendTo(addr: seq<byte>, data: seq<byte>) returns (written: seq<byte>)
      requires txBuff.Length == TX_BUFF_SIZE && |addr| == 8 && |data| + 18 <= TX_BUFF_SIZE
      modifies txBuff
      ensures |TxPayload(addr, data)| < 0x1_0000 && written == Encoded(TxPayload(addr, data))
    {
      PutHeader(|data| + 14);
      Put(3, [TX_FRAME_TYPE, 0]);
      Put(5, addr);
      Put(13, [0xFF, 0xFE, 0, 0x80]);
      Put(17, data);
      assert txBuff[..17 + |data|] ==
        [START_DELIMITER, (|data| + 14) / 256, (|data| + 14) % 256] + TxPayload(addr, data);
      PutChecksum(TxPayload(addr, data));
      return txBuff[..|data| + 18];
    }

    /** `xb_remote_at_cmd`. */
    method RemoteAtCmd(addr: seq<byte>, cmd: seq<byte>, param: seq<byte>) returns (written: seq<byte>)
      requires txBuff.Length == TX_BUFF_SIZE && |addr| == 8 && |cmd| == 2 && |param| + 19 <= TX_BUFF_SIZE
      modifies txBuff
      ensures |RemoteAtPayload(addr, cmd, param)| < 0x1_0000 && written == Encoded(RemoteAtPayload(addr, cmd, param))
    {
      PutHeader(|param| + 15);
      Put(3, [0x17, 0]);
      Put(5, addr);
      Put(13, [0xFF, 0xFE, 0x02]);
      Put(16, cmd);
      Put(18, param);
      assert txBuff[..18 + |param|]
          == [START_DELIMITER, (|param| + 15) / 256, (|param| + 15) % 256] + RemoteAtPayload(addr, cmd, param);
      PutChecksum(RemoteAtPayload(addr, cmd, param));
      return txBuff[..|param| + 19];
    }
  }
}
