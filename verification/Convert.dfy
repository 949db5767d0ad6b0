/** Integers to and from the bytes of a measurement. */
module Convert {
  import opened Wrappers
  import opened Bytes
  import opened Layout

  const INT_MIN: int := -0x8000_0000
  const INT_MAX: int := 0x7fff_ffff

  type int32 = n: int | INT_MIN <= n <= INT_MAX

  /** What a byte string stands for in a byte order. */
  function Value(e: Endian, s: seq<byte>): nat {
    if e.BigEndian? then Big(s) else Little(s)
  }

  /** The `n` bytes that stand for `v`. */
  function Encode(e: Endian, v: nat, n: nat): (s: seq<byte>)
    ensures |s| == n
  {
    if e.BigEndian? then Reversed(LittleBytes(v, n)) else LittleBytes(v, n)
  }

  /** A number of `n` bytes read as two's complement. */
  function TwosComplement(v: nat, n: nat): int {
    if 2 * v >= Pow256(n) then v - Pow256(n) else v
  }

  /** A signed number that fits in `n` bytes, and its bit pattern there. */
  predicate FitsSigned(x: int, n: nat) {
    -(Pow256(n) as int) <= 2 * x < Pow256(n)
  }

  function PatternIn(x: int, n: nat): nat
    requires FitsSigned(x, n)
  {
    if x < 0 then x + Pow256(n) else x
  }

  lemma PatternBack(x: int, n: nat)
    requires FitsSigned(x, n)
    ensures PatternIn(x, n) < Pow256(n) && TwosComplement(PatternIn(x, n), n) == x
  {
  }

  /** The bit pattern of a signed 32-bit number. */
  function Pattern(x: int32): uint32 {
    if x < 0 then x + U32 else x
  }

  lemma {:induction false} EncodeThenValue(e: Endian, v: nat, n: nat)
    requires v < Pow256(n)
    ensures Value(e, Encode(e, v, n)) == v
  {
    LittleOfBytes(v, n);
    if e.BigEndian? {
      BigIsLittleReversed(Encode(e, v, n));
      ReversedTwice(LittleBytes(v, n));
    }
  }

  lemma {:induction false} ValueThenEncode(e: Endian, s: seq<byte>)
    ensures Encode(e, Value(e, s), |s|) == s
  {
    if e.BigEndian? {
      BigIsLittleReversed(s);
      BytesOfLittle(Reversed(s));
      ReversedTwice(s);
    } else {
      BytesOfLittle(s);
    }
  }

  lemma ValueInHostOrder(m: Measurement, s: seq<byte>)
    ensures Value(m.endian, s) == Little(Ordered(m, s))
  {
    BigIsLittleReversed(s);
  }

  lemma {:induction false} FourBytes()
    ensures Pow256(4) == U32
  {
  }

  lemma {:induction false} PowSum(a: nat, b: nat)
    ensures Pow256(a + b) == Pow256(a) * Pow256(b)
  {
    if a != 0 {
      PowSum(a - 1, b);
      TimesAssociates(256, Pow256(a - 1), Pow256(b));
    }
  }

  // ---------------------------------------------------------------- reading

  predicate ReadsUnsigned(m: Measurement) {
    m.kind.Integer? && m.sign.Unsigned? && m.size <= 4
  }

  predicate ReadsSigned(m: Measurement) {
    m.kind.Integer? && m.sign.Signed? && m.size <= 4
  }

  /** The four bytes both `convert_to` forms build: the measurement in host order, then `fill`. */
  method HostBytes(m: Measurement, data: seq<byte>, fill: byte) returns (val: array<byte>)
    requires |data| == m.size <= 4
    ensures fresh(val) && val.Length == 4
    ensures val[..] == Ordered(m, data) + seq(4 - m.size, _ => fill)
  {
    val := new byte[4](_ => fill);
    if m.endian != HOST {
      for i := 0 to m.size
        invariant forall k :: 0 <= k < 4 ==>
          val[k] == if m.size - i <= k < m.size then data[m.size - 1 - k] else fill
      {
        val[m.size - i - 1] := data[i];
      }
    } else {
      for i := 0 to m.size
        invariant forall k :: 0 <= k < 4 ==> val[k] == if k < i then data[k] else fill
      {
        val[i] := data[i];
      }
    }
  }

  /** Zero bytes above the number do not change it. */
  lemma ZerosAbove(s: seq<byte>, n: nat)
    ensures Little(s + Zeros(n)) == Little(s)
  {
    LittleConcat(s, Zeros(n));
    LittleZeros(n);
  }

  lemma {:induction false} LittleOnes(n: nat)
    ensures Little(seq(n, _ => 255 as byte)) == Pow256(n) - 1
  {
    if n != 0 {
      LittleOnes(n - 1);
      assert seq(n, _ => 255 as byte)[1..] == seq(n - 1, _ => 255 as byte);
    }
  }

  /** Ones above a negative number make the same number of 32 bits. */
  lemma OnesAbove(s: seq<byte>)
    requires |s| <= 4
    ensures Little(s + seq(4 - |s|, _ => 255 as byte)) == Little(s) + U32 - Pow256(|s|)
  {
    var n := 4 - |s|;
    LittleConcat(s, seq(n, _ => 255 as byte));
    LittleOnes(n);
    PowSum(|s|, n);
    assert Pow256(|s|) * Pow256(n) == U32 by { FourBytes(); }
    Distribute(Pow256(|s|), Pow256(n), Little(seq(n, _ => 255 as byte)));
  }

  lemma Distribute(a: int, b: int, c: int)
    requires c == b - 1
    ensures a * c == a * b - a
  {
  }

  /** `convert_to` for unsigned integers gives the number the bytes stand for. */
  method ToUnsigned(m: Measurement, data: seq<byte>) returns (r: Option<uint32>)
    requires |data| == m.size
    ensures ReadsUnsigned(m) ==> r.Some? && r.value == Value(m.endian, data)
    ensures !ReadsUnsigned(m) ==> r.None?
  {
    if !m.kind.Integer? || !m.sign.Unsigned? {
      return None;
    }
    if m.size > 4 {
      return None;
    }
    var val := HostBytes(m, data, 0);
    assert val[..] == Ordered(m, data) + Zeros(4 - m.size);
    ZerosAbove(Ordered(m, data), 4 - m.size);
    ValueInHostOrder(m, data);
    LittleBound(val[..]);
    FourBytes();
    r := Some(Little(val[..]));
  }

  lemma SignStep(b: byte, rest: nat, p: nat)
    requires rest < p && p % 2 == 0
    ensures 2 * (b + 256 * rest) >= 256 * p <==> 2 * rest >= p
  {
  }

  /** The sign bit of a number is that of its last byte in little-endian order. */
  lemma {:induction false} SignOfLittle(s: seq<byte>)
    requires |s| > 0
    ensures 2 * Little(s) >= Pow256(|s|) <==> s[|s| - 1] >= 128
  {
    if |s| == 1 {
      assert Little(s[1..]) == 0 && Pow256(1) == 256;
    } else {
      var rest := s[1..];
      SignOfLittle(rest);
      LittleBound(rest);
      assert Pow256(|rest|) == 256 * Pow256(|rest| - 1);
      SignStep(s[0], Little(rest), Pow256(|rest|));
      assert s[|s| - 1] == rest[|rest| - 1];
    }
  }

  /** `convert_to` for signed integers gives the two's complement number of the bytes. */
  method ToSigned(m: Measurement, data: seq<byte>) returns (r: Option<int32>)
    requires |data| == m.size > 0
    ensures ReadsSigned(m) ==> r.Some? && r.value == TwosComplement(Value(m.endian, data), m.size)
    ensures !ReadsSigned(m) ==> r.None?
  {
    if !m.kind.Integer? || !m.sign.Signed? {
      return None;
    }
    if m.size > 4 {
      return None;
    }
    var signByte := if m.endian.BigEndian? then data[0] else data[m.size - 1];
    var fill: byte := if signByte >= 128 then 255 else 0;
    var val := HostBytes(m, data, fill);
    ghost var s := Ordered(m, data);
    SignedInHostOrder(s, fill, val[..]);
    ValueInHostOrder(m, data);
    var pattern := Little(val[..]);
    r := Some(if pattern >= 0x8000_0000 then pattern - U32 else pattern);
  }

  lemma SignedInHostOrder(s: seq<byte>, fill: byte, val: seq<byte>)
    requires 0 < |s| <= 4 && fill == (if s[|s| - 1] >= 128 then 255 else 0)
    requires val == s + seq(4 - |s|, _ => fill)
    ensures Little(val) < U32
    ensures TwosComplement(Little(s), |s|) == if Little(val) >= 0x8000_0000 then Little(val) - U32 else Little(val)
  {
    SignOfLittle(s);
    SignOfLittle(val);
    LittleBound(val);
    FourBytes();
    if fill == 0 {
      assert val == s + Zeros(4 - |s|);
      ZerosAbove(s, 4 - |s|);
    } else {
      assert val == s + seq(4 - |s|, _ => 255 as byte);
      OnesAbove(s);
    }
  }

  // ---------------------------------------------------------------- writing

  /** The bytes both `convert_from` forms write: zeros to the wide side of four bytes. */
  function Padded(e: Endian, pattern: uint32, n: nat): (s: seq<byte>)
    requires n >= 4
    ensures |s| == n
  {
    if e.BigEndian? then Zeros(n - 4) + Encode(e, pattern, 4) else Encode(e, pattern, 4) + Zeros(n - 4)
  }

  method FromPattern(m: Measurement, output: array<byte>, pattern: uint32) returns (ok: bool)
    requires output.Length >= m.size
    modifies output
    ensures ok == (m.size >= 4)
    ensures !ok ==> output[..] == old(output[..])
    ensures ok ==> output[..] == Padded(m.endian, pattern, m.size) + old(output[m.size..])
  {
    if m.size < 4 {
      return false;
    }
    var valb := LittleBytes(pattern, 4);
    ghost var was := output[..];
    if HOST != m.endian {
      for k := 0 to m.size - 4
        invariant forall j :: 0 <= j < output.Length ==> output[j] == if j < k then 0 else was[j]
      {
        output[k] := 0;
      }
      for i := 0 to 4
        invariant forall j :: 0 <= j < output.Length ==>
          output[j] == if j < m.size - 4 then 0 else if j < m.size - 4 + i then valb[m.size - 1 - j] else was[j]
      {
        output[m.size - 4 + i] := valb[4 - i - 1];
      }
    } else {
      for i := 0 to 4
        invariant forall j :: 0 <= j < output.Length ==> output[j] == if j < i then valb[j] else was[j]
      {
        output[i] := valb[i];
      }
      for k := 4 to m.size
        invariant forall j :: 0 <= j < output.Length ==>
          output[j] == if j < 4 then valb[j] else if j < k then 0 else was[j]
      {
        output[k] := 0;
      }
    }
    ok := true;
    assert output[..] == Padded(m.endian, pattern, m.size) + was[m.size..];
  }

  lemma ReversedConcat(a: seq<byte>, b: seq<byte>)
    ensures Reversed(a + b) == Reversed(b) + Reversed(a)
  {
  }

  /** Padding with zeros is the right encoding of an unsigned number at every size. */
  lemma PaddedValue(e: Endian, pattern: uint32, n: nat)
    requires n >= 4
    ensures Value(e, Padded(e, pattern, n)) == pattern
  {
    FourBytes();
    var low := LittleBytes(pattern, 4);
    LittleOfBytes(pattern, 4);
    ZerosAbove(low, n - 4);
    if e.BigEndian? {
      var s := Padded(e, pattern, n);
      BigIsLittleReversed(s);
      ReversedConcat(Zeros(n - 4), Reversed(low));
      ReversedTwice(low);
      assert Reversed(Zeros(n - 4)) == Zeros(n - 4);
    }
  }

  /** `convert_from` for `uint32`: whenever there is room, the bytes stand for the number. */
  method FromUnsigned(m: Measurement, output: array<byte>, val: uint32) returns (ok: bool)
    requires output.Length >= m.size
    modifies output
    ensures ok == (m.size >= 4)
    ensures output[m.size..] == old(output[m.size..])
    ensures ok ==> Value(m.endian, output[..m.size]) == val
    ensures !ok ==> output[..] == old(output[..])
  {
    ok := FromPattern(m, output, val);
    if ok {
      PaddedValue(m.endian, val, m.size);
      assert output[..m.size] == Padded(m.endian, val, m.size);
      assert output[m.size..] == old(output[m.size..]);
    }
  }

  /** `convert_from` for `int32` writes the same bytes for the bit pattern of the number. */
  method FromSigned(m: Measurement, output: array<byte>, val: int32) returns (ok: bool)
    requires output.Length >= m.size
    modifies output
    ensures ok == (m.size >= 4)
    ensures output[m.size..] == old(output[m.size..])
    ensures ok ==> output[..m.size] == Padded(m.endian, Pattern(val), m.size)
    ensures !ok ==> output[..] == old(output[..])
  {
    ok := FromPattern(m, output, Pattern(val));
    if ok {
      assert output[..m.size] == Padded(m.endian, Pattern(val), m.size);
      assert output[m.size..] == old(output[m.size..]);
    }
  }

  /** What `convert_from` writes for a signed number reads back as that number exactly when it
      is not negative or the measurement is four bytes long: the padding is zeros, not the sign. */
  lemma SignedPaddingCorrectExactlyWhen(e: Endian, val: int32, n: nat)
    requires n >= 4
    ensures TwosComplement(Value(e, Padded(e, Pattern(val), n)), n) == val <==> val >= 0 || n == 4
  {
    PaddedValue(e, Pattern(val), n);
    FourBytes();
    if n > 4 {
      PowSum(4, n - 4);
      assert Pow256(n - 4) == 256 * Pow256(n - 5);
      AtLeast(U32, Pow256(n - 4), 256);
    }
  }

  lemma AtLeast(a: nat, b: int, c: int)
    requires b >= c
    ensures a * b >= a * c
  {
  }

  /** The one failing family, shown: minus one in five bytes reads back as 4294967295. */
  lemma MinusOneInFiveBytes()
    ensures TwosComplement(Value(LittleEndian, Padded(LittleEndian, Pattern(-1), 5)), 5) == 0xFFFF_FFFF
  {
  }

  /** Unsigned numbers of four bytes survive `convert_from` followed by `convert_to`. */
  method UnsignedRoundTrip(m: Measurement, val: uint32) returns (r: Option<uint32>)
    requires ReadsUnsigned(m) && m.size == 4
    ensures r == Some(val)
  {
    var buf := new byte[4];
    var ok := FromUnsigned(m, buf, val);
    assert buf[..] == buf[..m.size];
    r := ToUnsigned(m, buf[..]);
  }

  /** Signed numbers of four bytes too. */
  method SignedRoundTrip(m: Measurement, val: int32) returns (r: Option<int32>)
    requires ReadsSigned(m) && m.size == 4
    ensures r == Some(val)
  {
    var buf := new byte[4];
    var ok := FromSigned(m, buf, val);
    assert buf[..] == buf[..m.size];
    SignedPaddingCorrectExactlyWhen(m.endian, val, 4);
    r := ToSigned(m, buf[..]);
  }
}
