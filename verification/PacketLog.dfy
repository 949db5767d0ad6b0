/** Log records of telemetry packets: how they are written and how they are read back. */
module PacketLog {
  import opened Wrappers
  import opened Bytes

  const MAX_Q_SIZE: nat := 2048

  /** `sizeof(struct timeval)` and `sizeof(size_t)` on the 64-bit host. */
  const TIME_SIZE: nat := 16
  const SIZE_SIZE: nat := 8

  const OPEN_TIME: byte := '[' as byte
  const CLOSE_TIME: byte := ']' as byte
  const OPEN_NAME: byte := '<' as byte
  const CLOSE_NAME: byte := '>' as byte

  datatype Record = Record(timestamp: seq<byte>, device: seq<byte>, data: seq<byte>)

  /** What `strlen` sees of a string. */
  function CString(s: seq<byte>): (r: seq<byte>)
    ensures |r| <= |s| && r == s[..|r|] && 0 !in r
    ensures 0 !in s ==> r == s
  {
    if |s| == 0 || s[0] == 0 then [] else [s[0]] + CString(s[1..])
  }

  function Encode(r: Record): seq<byte> {
    [OPEN_TIME] + (r.timestamp + ([CLOSE_TIME] + (Header(r.device) + (LittleBytes(|r.data|, SIZE_SIZE) + r.data))))
  }

  function Header(device: seq<byte>): seq<byte> {
    CString([OPEN_NAME] + device + [CLOSE_NAME])
  }

  lemma Nest(a: seq<byte>, b: seq<byte>, c: seq<byte>)
    ensures (a + b) + c == a + (b + c)
  {
  }

  /** Where the first `b` is. */
  function Find(s: seq<byte>, b: byte): (n: nat)
    ensures n <= |s| && (n < |s| ==> s[n] == b) && b !in s[..n]
  {
    if |s| == 0 || s[0] == b then 0 else 1 + Find(s[1..], b)
  }

  lemma {:induction false} FindPast(a: seq<byte>, b: byte, rest: seq<byte>)
    requires b !in a
    ensures Find(a + [b] + rest, b) == |a|
  {
    if |a| > 0 {
      FindPast(a[1..], b, rest);
      assert (a + [b] + rest)[1..] == a[1..] + [b] + rest;
    }
  }

  datatype Parsed = Parsed(record: Record, rest: seq<byte>)

  /** What `retrieve_record` makes of the bytes ahead of it. */
  function Parse(s: seq<byte>): Option<Parsed> {
    var at := Find(s, OPEN_TIME);
    if at == |s| then None else ParseTime(s[at + 1..])
  }

  function ParseTime(s: seq<byte>): Option<Parsed> {
    if |s| <= TIME_SIZE || s[TIME_SIZE] != CLOSE_TIME then None
    else ParseName(s[..TIME_SIZE], s[TIME_SIZE + 1..])
  }

  function ParseName(time: seq<byte>, s: seq<byte>): Option<Parsed> {
    if |s| == 0 || s[0] != OPEN_NAME then None
    else
      var end := Find(s[1..], CLOSE_NAME);
      if end == |s| - 1 then None else ParseData(time, s[1..end + 1], s[end + 2..])
  }

  function ParseData(time: seq<byte>, device: seq<byte>, s: seq<byte>): Option<Parsed> {
    if |s| < SIZE_SIZE then None
    else
      var size := Little(s[..SIZE_SIZE]);
      if |s| < SIZE_SIZE + size then None
      else Some(Parsed(Record(time, device, s[SIZE_SIZE..SIZE_SIZE + size]), s[SIZE_SIZE + size..]))
  }

  /** A timestamp and its closing bracket follow the first opening one. */
  predicate TimeAhead(s: seq<byte>) {
    var at := Find(s, OPEN_TIME);
    at + 1 + TIME_SIZE < |s| && s[at + 1 + TIME_SIZE] == CLOSE_TIME
  }

  function TimeOf(s: seq<byte>): seq<byte>
    requires TimeAhead(s)
  {
    var at := Find(s, OPEN_TIME);
    s[at + 1..at + 1 + TIME_SIZE]
  }

  function PastTime(s: seq<byte>): seq<byte>
    requires TimeAhead(s)
  {
    s[Find(s, OPEN_TIME) + TIME_SIZE + 2..]
  }

  lemma ParseAfterTime(s: seq<byte>)
    ensures Parse(s) == if TimeAhead(s) then ParseName(TimeOf(s), PastTime(s)) else None
  {
    var at := Find(s, OPEN_TIME);
    if at < |s| {
      var t := s[at + 1..];
      if TimeAhead(s) {
        assert t[..TIME_SIZE] == TimeOf(s) && t[TIME_SIZE + 1..] == PastTime(s);
      }
    }
  }

  /** Device names hold no '>' and no NUL; the timestamp and the data may hold anything. */
  predicate Loggable(r: Record) {
    && |r.timestamp| == TIME_SIZE && CLOSE_NAME !in r.device && 0 !in r.device
    && |Encode(r)| <= MAX_Q_SIZE
  }

  lemma {:induction false} EightBytes(n: nat)
    requires n <= MAX_Q_SIZE
    ensures n < Pow256(SIZE_SIZE)
  {
  }

  /** The parts of an encoded record with more bytes behind it. */
  lemma EncodeParts(r: Record, rest: seq<byte>)
    requires CLOSE_NAME !in r.device && 0 !in r.device
    ensures var tail := LittleBytes(|r.data|, SIZE_SIZE) + r.data + rest;
      Encode(r) + rest ==
        [OPEN_TIME] + (r.timestamp + ([CLOSE_TIME] + ([OPEN_NAME] + (r.device + [CLOSE_NAME] + tail))))
  {
    var size := LittleBytes(|r.data|, SIZE_SIZE);
    var e4 := size + r.data;
    var e3 := Header(r.device) + e4;
    var e2 := [CLOSE_TIME] + e3;
    var e1 := r.timestamp + e2;
    Nest([OPEN_TIME], e1, rest);
    Nest(r.timestamp, e2, rest);
    Nest([CLOSE_TIME], e3, rest);
    Nest(Header(r.device), e4, rest);
    HeaderParts(r.device, e4 + rest);
  }

  lemma HeaderParts(device: seq<byte>, tail: seq<byte>)
    requires 0 !in device
    ensures Header(device) + tail == [OPEN_NAME] + (device + [CLOSE_NAME] + tail)
  {
  }

  /** Reading back gives the record that was written, and leaves what follows it. */
  lemma ParseOfEncode(r: Record, rest: seq<byte>)
    requires Loggable(r)
    ensures Parse(Encode(r) + rest) == Some(Parsed(r, rest))
  {
    var size := LittleBytes(|r.data|, SIZE_SIZE);
    var tail := size + r.data + rest;
    var named := r.device + [CLOSE_NAME] + tail;
    var s := r.timestamp + ([CLOSE_TIME] + ([OPEN_NAME] + named));
    EncodeParts(r, rest);
    assert Find([OPEN_TIME] + s, OPEN_TIME) == 0;
    assert ([OPEN_TIME] + s)[1..] == s;
    assert s[..TIME_SIZE] == r.timestamp && s[TIME_SIZE + 1..] == [OPEN_NAME] + named;
    NameOfEncode(r, tail);
    DataOfEncode(r, rest);
  }

  lemma NameOfEncode(r: Record, tail: seq<byte>)
    requires CLOSE_NAME !in r.device
    ensures ParseName(r.timestamp, [OPEN_NAME] + (r.device + [CLOSE_NAME] + tail))
         == ParseData(r.timestamp, r.device, tail)
  {
    var named := r.device + [CLOSE_NAME] + tail;
    var s := [OPEN_NAME] + named;
    assert s[1..] == named;
    FindPast(r.device, CLOSE_NAME, tail);
    assert s[1..|r.device| + 1] == r.device && s[|r.device| + 2..] == tail;
  }

  lemma DataOfEncode(r: Record, rest: seq<byte>)
    requires Loggable(r)
    ensures ParseData(r.timestamp, r.device, LittleBytes(|r.data|, SIZE_SIZE) + r.data + rest) == Some(Parsed(r, rest))
  {
    var size := LittleBytes(|r.data|, SIZE_SIZE);
    var s := size + r.data + rest;
    EightBytes(|r.data|);
    LittleOfBytes(|r.data|, SIZE_SIZE);
    assert s[..SIZE_SIZE] == size;
    assert s[SIZE_SIZE..SIZE_SIZE + |r.data|] == r.data && s[SIZE_SIZE + |r.data|..] == rest;
  }

  /** Of the names without NUL, exactly those without '>' survive. */
  lemma NameSurvivesExactlyWhen(r: Record, rest: seq<byte>)
    requires |r.timestamp| == TIME_SIZE && 0 !in r.device && |Encode(r)| <= MAX_Q_SIZE
    ensures Parse(Encode(r) + rest) == Some(Parsed(r, rest)) <==> CLOSE_NAME !in r.device
  {
    if CLOSE_NAME !in r.device {
      ParseOfEncode(r, rest);
    } else {
      ParsedNames(Encode(r) + rest);
    }
  }

  // ---------------------------------------------------------------- any bytes

  /** A record as it lies in a file: the brackets, the parts between them, and the size of the data
      in eight bytes. */
  function Written(r: Record): seq<byte> {
    ['[' as byte] + (r.timestamp + ([']' as byte] + (['<' as byte] + (r.device + ['>' as byte]
      + (LittleBytes(|r.data|, 8) + r.data)))))
  }

  /** The bytes are some without '[', then a record whose name has no '>', then `rest`. */
  predicate Spells(s: seq<byte>, skipped: seq<byte>, r: Record, rest: seq<byte>) {
    && '[' as byte !in skipped && |r.timestamp| == 16 && '>' as byte !in r.device && |r.data| < Pow256(8)
    && s == skipped + (Written(r) + rest)
  }

  lemma {:induction false} FindFirst(a: seq<byte>, b: byte, rest: seq<byte>)
    requires b !in a && |rest| > 0 && rest[0] == b
    ensures Find(a + rest, b) == |a|
  {
    FindPast(a, b, rest[1..]);
    assert a + [b] + rest[1..] == a + rest;
  }

  lemma SpelledName(time: seq<byte>, device: seq<byte>, tail: seq<byte>)
    requires CLOSE_NAME !in device
    ensures ParseName(time, [OPEN_NAME] + (device + [CLOSE_NAME] + tail)) == ParseData(time, device, tail)
  {
    NameOfEncode(Record(time, device, []), tail);
  }

  lemma SpelledData(r: Record, rest: seq<byte>)
    requires |r.data| < Pow256(8)
    ensures ParseData(r.timestamp, r.device, LittleBytes(|r.data|, 8) + r.data + rest) == Some(Parsed(r, rest))
  {
    var size := LittleBytes(|r.data|, 8);
    var s := size + r.data + rest;
    LittleOfBytes(|r.data|, 8);
    assert s[..8] == size;
    assert s[8..8 + |r.data|] == r.data && s[8 + |r.data|..] == rest;
  }

  lemma WrittenWith(r: Record, rest: seq<byte>)
    ensures var tail := LittleBytes(|r.data|, 8) + r.data + rest;
      Written(r) + rest ==
        [OPEN_TIME] + (r.timestamp + ([CLOSE_TIME] + ([OPEN_NAME] + (r.device + [CLOSE_NAME] + tail))))
  {
    var sized := LittleBytes(|r.data|, 8) + r.data;
    var e4 := r.device + [CLOSE_NAME] + sized;
    assert r.device + ([CLOSE_NAME] + sized) == e4;
    var e3 := [OPEN_NAME] + e4;
    var e2 := [CLOSE_TIME] + e3;
    var e1 := r.timestamp + e2;
    Nest([OPEN_TIME], e1, rest);
    Nest(r.timestamp, e2, rest);
    Nest([CLOSE_TIME], e3, rest);
    Nest([OPEN_NAME], e4, rest);
    Nest(r.device + [CLOSE_NAME], sized, rest);
  }

  lemma SplitAt(s: seq<byte>, n: nat, b: byte)
    requires n < |s| && s[n] == b
    ensures s == s[..n] + ([b] + s[n + 1..])
  {
  }

  lemma SpelledIsParsed(s: seq<byte>, skipped: seq<byte>, r: Record, rest: seq<byte>)
    requires Spells(s, skipped, r, rest)
    ensures Parse(s) == Some(Parsed(r, rest))
  {
    var tail := LittleBytes(|r.data|, 8) + r.data + rest;
    var named := [OPEN_NAME] + (r.device + [CLOSE_NAME] + tail);
    var timed := r.timestamp + ([CLOSE_TIME] + named);
    WrittenWith(r, rest);
    FindFirst(skipped, OPEN_TIME, [OPEN_TIME] + timed);
    assert s[|skipped| + 1..] == timed;
    assert timed[..TIME_SIZE] == r.timestamp && timed[TIME_SIZE + 1..] == named;
    SpelledName(r.timestamp, r.device, tail);
    SpelledData(r, rest);
  }

  lemma ParsedData(time: seq<byte>, device: seq<byte>, s: seq<byte>)
    requires ParseData(time, device, s).Some?
    ensures var p := ParseData(time, device, s).value;
      && p.record.timestamp == time && p.record.device == device && |p.record.data| < Pow256(8)
      && s == LittleBytes(|p.record.data|, 8) + p.record.data + p.rest
  {
    LittleBound(s[..8]);
    BytesOfLittle(s[..8]);
  }

  lemma ParsedName(time: seq<byte>, s: seq<byte>)
    requires ParseName(time, s).Some?
    ensures var r := ParseName(time, s).value.record;
      CLOSE_NAME !in r.device && r.timestamp == time && |r.data| < Pow256(8)
    ensures var p := ParseName(time, s).value; var r := p.record;
      s == [OPEN_NAME] + (r.device + [CLOSE_NAME] + (LittleBytes(|r.data|, 8) + r.data + p.rest))
  {
    var named := s[1..];
    var end := Find(named, CLOSE_NAME);
    assert s == [OPEN_NAME] + named && s[1..end + 1] == named[..end] && s[end + 2..] == named[end + 1..];
    ParsedData(time, named[..end], named[end + 1..]);
    SplitAt(named, end, CLOSE_NAME);
    Nest(named[..end], [CLOSE_NAME], named[end + 1..]);
  }

  lemma ParsedIsSpelled(s: seq<byte>)
    requires Parse(s).Some?
    ensures Spells(s, s[..Find(s, OPEN_TIME)], Parse(s).value.record, Parse(s).value.rest)
  {
    var at, p := Find(s, OPEN_TIME), Parse(s).value;
    var timed := s[at + 1..];
    ParsedName(timed[..TIME_SIZE], timed[TIME_SIZE + 1..]);
    SplitAt(s, at, OPEN_TIME);
    SplitAt(timed, TIME_SIZE, CLOSE_TIME);
    WrittenWith(p.record, p.rest);
  }

  /** On any bytes at all, a record is read exactly when they spell one behind bytes without '[': then
      it is that record, and the rest is what follows it. */
  lemma ParsedExactlyWhenSpelled(s: seq<byte>, r: Record, rest: seq<byte>)
    ensures Parse(s) == Some(Parsed(r, rest)) <==> exists skipped :: Spells(s, skipped, r, rest)
  {
    if Parse(s) == Some(Parsed(r, rest)) {
      ParsedIsSpelled(s);
    } else if skipped :| Spells(s, skipped, r, rest) {
      SpelledIsParsed(s, skipped, r, rest);
    }
  }

  lemma ParsedNames(s: seq<byte>)
    ensures Parse(s).Some? ==> CLOSE_NAME !in Parse(s).value.record.device
  {
  }

  /** Repeated `retrieve_record` on one file, until it fails. */
  function ParseAll(s: seq<byte>): seq<Record>
    decreases |s|
  {
    match Parse(s)
    case None => []
    case Some(p) => if |p.rest| < |s| then [p.record] + ParseAll(p.rest) else [p.record]
  }

  function EncodeAll(rs: seq<Record>): seq<byte> {
    if |rs| == 0 then [] else Encode(rs[0]) + EncodeAll(rs[1..])
  }

  lemma ParseAllStep(s: seq<byte>)
    ensures match Parse(s)
      case None => ParseAll(s) == []
      case Some(p) => |p.rest| < |s| && ParseAll(s) == [p.record] + ParseAll(p.rest)
  {
  }

  lemma {:induction false} ParseAllOfEncodeAll(rs: seq<Record>)
    requires forall k :: 0 <= k < |rs| ==> Loggable(rs[k])
    ensures ParseAll(EncodeAll(rs)) == rs
  {
    if |rs| > 0 {
      var rest := EncodeAll(rs[1..]);
      ParseOfEncode(rs[0], rest);
      ParseAllOfEncodeAll(rs[1..]);
      ParseAllStep(Encode(rs[0]) + rest);
      assert rs == [rs[0]] + rs[1..];
    }
  }

  // ---------------------------------------------------------------- in place

  class PacketLogger {
    const deviceName: seq<byte>
    const outBuff: array<byte>

    constructor (name: seq<byte>)
      ensures deviceName == name && outBuff.Length == MAX_Q_SIZE && fresh(outBuff)
    {
      deviceName := name;
      outBuff := new byte[MAX_Q_SIZE](_ => 0);
    }

    /** `memcpy(ptr, bytes, |bytes|); ptr += |bytes|`. */
    method Append(ptr: nat, bytes: seq<byte>) returns (next: nat)
      requires ptr + |bytes| <= outBuff.Length
      modifies outBuff
      ensures next == ptr + |bytes| && outBuff[..next] == old(outBuff[..ptr]) + bytes
    {
      for i := 0 to |bytes|
        invariant outBuff[..ptr + i] == old(outBuff[..ptr]) + bytes[..i]
      {
        outBuff[ptr + i] := bytes[i];
        assert outBuff[..ptr + i + 1] == outBuff[..ptr + i] + [bytes[i]];
      }
      next := ptr + |bytes|;
    }

    /** `log_packet`: the message put on the queue. */
    method LogPacket(now: seq<byte>, buffer: seq<byte>) returns (msg: seq<byte>)
      requires outBuff.Length == MAX_Q_SIZE && |now| == TIME_SIZE
      requires |Encode(Record(now, deviceName, buffer))| <= MAX_Q_SIZE
      modifies outBuff
      ensures msg == Encode(Record(now, deviceName, buffer))
    {
      var header, size := Header(deviceName), LittleBytes(|buffer|, SIZE_SIZE);
      var outSize := 2 + TIME_SIZE + |header| + |buffer| + SIZE_SIZE;
      assert |Encode(Record(now, deviceName, buffer))| == outSize;
      var ptr := Append(0, [OPEN_TIME]);
      assert outBuff[..ptr] == [OPEN_TIME];
      ptr := Append(ptr, now);
      ptr := Append(ptr, [CLOSE_TIME]);
      ptr := Append(ptr, header);
      ptr := Append(ptr, size);
      ptr := Append(ptr, buffer);
      NestAll(now, header, size, buffer);
      return outBuff[..outSize];
    }
  }

  lemma NestAll(now: seq<byte>, header: seq<byte>, size: seq<byte>, data: seq<byte>)
    ensures [OPEN_TIME] + now + [CLOSE_TIME] + header + size + data
         == [OPEN_TIME] + (now + ([CLOSE_TIME] + (header + (size + data))))
  {
  }

  /** An input stream: what is left of it, and whether no read has failed yet. */
  class Stream {
    var left: seq<byte>
    var good: bool

    constructor (bytes: seq<byte>)
      ensures left == bytes && good
    {
      left, good := bytes, true;
    }

    /** `f.read(&c, 1)`, which leaves `c` alone when it fails. */
    method ReadChar(c: byte) returns (r: byte)
      modifies this
      ensures good == (old(good) && |old(left)| > 0)
      ensures good ==> r == old(left)[0] && left == old(left)[1..]
      ensures !good ==> r == c && left == if old(good) then [] else old(left)
    {
      r := c;
      if good && |left| > 0 {
        r, left := left[0], left[1..];
      } else {
        left := if good then [] else left;
        good := false;
      }
    }

    /** `f.read(buff, n)`. */
    method ReadMany(n: nat) returns (r: seq<byte>)
      modifies this
      ensures good == (old(good) && |old(left)| >= n)
      ensures good ==> r == old(left)[..n] && left == old(left)[n..]
    {
      r := [];
      if good && |left| >= n {
        r, left := left[..n], left[n..];
      } else {
        good := false;
      }
    }
  }

  /** `buff` is what has been read of `s` since its `n`-th byte, and `left` is what follows. */
  predicate Gathered(s: seq<byte>, n: nat, buff: seq<byte>, left: seq<byte>) {
    n + |buff| <= |s| && buff == s[n..n + |buff|] && left == s[n + |buff|..]
  }

  lemma GatherOneMore(s: seq<byte>, n: nat, buff: seq<byte>, left: seq<byte>)
    requires Gathered(s, n, buff, left)
    ensures |left| == |s| - n - |buff|
    ensures |left| > 0 ==> left[0] == s[n + |buff|] && Gathered(s, n, buff + [left[0]], left[1..])
  {
  }

  /** Look for the start of a record and read the timestamp, byte by byte. */
  method RetrieveTime(f: Stream) returns (r: Option<seq<byte>>)
    requires f.good
    modifies f
    ensures TimeAhead(old(f.left)) <==> r.Some? && f.good
    ensures TimeAhead(old(f.left)) ==> r.value == TimeOf(old(f.left)) && f.left == PastTime(old(f.left))
  {
    var buff: seq<byte> := [];
    var c: byte := 0;
    ghost var s := f.left;
    ghost var at := Find(s, OPEN_TIME);
    ghost var n := 0;
    while true
      invariant f.good && buff == [] && n <= at && n <= |s| && f.left == s[n..]
      decreases |f.left|
    {
      c := f.ReadChar(c);
      if !f.good {
        return None;
      }
      n := n + 1;
      if c == OPEN_TIME {
        FirstIsFound(s, OPEN_TIME, n - 1);
        break;
      }
    }
    assert at == n - 1 && f.left == s[n..];
    while f.good
      invariant f.good ==> |buff| <= TIME_SIZE && Gathered(s, n, buff, f.left)
      invariant !f.good ==> |s| <= n + TIME_SIZE
      decreases f.good, |f.left|
    {
      GatherOneMore(s, n, buff, f.left);
      c := f.ReadChar(c);
      if c == CLOSE_TIME && |buff| == TIME_SIZE {
        return Some(buff);
      }
      buff := buff + [c];
      if |buff| > TIME_SIZE {
        return None;
      }
    }
    return None;
  }

  lemma {:induction false} FirstIsFound(s: seq<byte>, b: byte, n: nat)
    requires n < |s| && s[n] == b && n <= Find(s, b)
    ensures Find(s, b) == n
  {
  }

  /** The device name, byte by byte up to '>'. */
  method RetrieveName(f: Stream) returns (r: Option<seq<byte>>)
    requires f.good
    modifies f
    ensures var s := old(f.left); var end := Find(s, CLOSE_NAME);
      && (r.Some? <==> end < |s|)
      && (r.Some? ==> f.good && r.value == s[..end] && f.left == s[end + 1..])
  {
    var device: seq<byte> := [];
    var c: byte := 0;
    ghost var s := f.left;
    while true
      invariant f.good && |device| <= Find(s, CLOSE_NAME) && device == s[..|device|] && f.left == s[|device|..]
      decreases |f.left|
    {
      c := f.ReadChar(c);
      if !f.good {
        return None;
      }
      if c == CLOSE_NAME {
        FirstIsFound(s, CLOSE_NAME, |device|);
        return Some(device);
      }
      device := device + [c];
    }
  }

  /** `retrieve_record`: exactly what `Parse` says, for any bytes at all. */
  method RetrieveRecord(f: Stream) returns (r: Option<Record>)
    requires f.good
    modifies f
    ensures r == match Parse(old(f.left)) case None => None case Some(p) => Some(p.record)
    ensures r.Some? ==> f.good && f.left == Parse(old(f.left)).value.rest
  {
    ParseAfterTime(f.left);
    var time := RetrieveTime(f);
    if time.None? {
      return None;
    }
    ghost var named := f.left;
    var c := f.ReadChar(0);
    if !f.good || c != OPEN_NAME {
      return None;
    }
    assert named[1..] == f.left;
    var device := RetrieveName(f);
    if device.None? {
      return None;
    }
    r := RetrieveData(f, time.value, device.value);
    assert named[1..][..|device.value|] == named[1..|device.value| + 1];
  }

  /** The size and the data. */
  method RetrieveData(f: Stream, time: seq<byte>, device: seq<byte>) returns (r: Option<Record>)
    requires f.good
    modifies f
    ensures r == match ParseData(time, device, old(f.left)) case None => None case Some(p) => Some(p.record)
    ensures r.Some? ==> f.good && f.left == ParseData(time, device, old(f.left)).value.rest
  {
    ghost var s := f.left;
    var size := f.ReadMany(SIZE_SIZE);
    if !f.good {
      return None;
    }
    var n := Little(size);
    var data := f.ReadMany(n);
    if !f.good {
      return None;
    }
    assert s[SIZE_SIZE..][..n] == s[SIZE_SIZE..SIZE_SIZE + n] && s[SIZE_SIZE..][n..] == s[SIZE_SIZE + n..];
    return Some(Record(time, device, data));
  }
}
