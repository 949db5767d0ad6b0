/** Bytes, byte strings and the numbers they stand for. */
module Bytes {

  type byte = b: int | 0 <= b < 256

  /** One more than the largest value of the source's `uint32_t`. */
  const U32: nat := 0x1_0000_0000

  type uint32 = n: int | 0 <= n < U32

  function Zeros(n: nat): (z: seq<byte>)
    ensures |z| == n && forall k :: 0 <= k < n ==> z[k] == 0
  {
    seq(n, _ => 0)
  }

  function Reversed(s: seq<byte>): (r: seq<byte>)
    ensures |r| == |s| && forall k :: 0 <= k < |s| ==> r[k] == s[|s| - 1 - k]
  {
    seq(|s|, k requires 0 <= k < |s| => s[|s| - 1 - k])
  }

  lemma ReversedTwice(s: seq<byte>)
    ensures Reversed(Reversed(s)) == s
  {
  }

  /** `buf` with `data` copied in at `off`, as by `memcpy(buf + off, data, |data|)`. */
  function Blit(buf: seq<byte>, off: nat, data: seq<byte>): (r: seq<byte>)
    requires off + |data| <= |buf|
    ensures |r| == |buf|
    ensures r[off..off + |data|] == data
    ensures forall k :: 0 <= k < |buf| && !(off <= k < off + |data|) ==> r[k] == buf[k]
  {
    buf[..off] + data + buf[off + |data|..]
  }

  /** A slice that a copy does not overlap is left as it was. */
  lemma BlitElsewhere(buf: seq<byte>, off: nat, data: seq<byte>, lo: nat, hi: nat)
    requires off + |data| <= |buf| && lo <= hi <= |buf|
    requires hi <= off || off + |data| <= lo
    ensures Blit(buf, off, data)[lo..hi] == buf[lo..hi]
  {
  }

  function Pow256(n: nat): (p: nat)
    ensures p >= 1
  {
    if n == 0 then 1 else 256 * Pow256(n - 1)
  }

  /** The unsigned value of a byte string, least significant byte first. */
  function Little(s: seq<byte>): nat {
    if s == [] then 0 else s[0] + 256 * Little(s[1..])
  }

  /** The unsigned value of a byte string, most significant byte first. */
  function Big(s: seq<byte>): nat {
    if s == [] then 0 else 256 * Big(s[..|s| - 1]) + s[|s| - 1]
  }

  /** The `n` low bytes of `v`, least significant first. */
  function LittleBytes(v: nat, n: nat): (s: seq<byte>)
    ensures |s| == n
  {
    if n == 0 then [] else [v % 256] + LittleBytes(v / 256, n - 1)
  }

  lemma {:induction false} BigIsLittleReversed(s: seq<byte>)
    ensures Big(s) == Little(Reversed(s))
  {
    if s != [] {
      var front := s[..|s| - 1];
      BigIsLittleReversed(front);
      assert Reversed(s)[1..] == Reversed(front);
    }
  }

  lemma {:induction false} LittleBound(s: seq<byte>)
    ensures Little(s) < Pow256(|s|)
  {
    if s != [] {
      LittleBound(s[1..]);
    }
  }

  /** Decoding after encoding gives back every value that fits. */
  lemma {:induction false} LittleOfBytes(v: nat, n: nat)
    requires v < Pow256(n)
    ensures Little(LittleBytes(v, n)) == v
  {
    if n != 0 {
      LittleOfBytes(v / 256, n - 1);
      assert LittleBytes(v, n)[1..] == LittleBytes(v / 256, n - 1);
    }
  }

  /** Encoding after decoding gives back every byte string. */
  lemma {:induction false} BytesOfLittle(s: seq<byte>)
    ensures LittleBytes(Little(s), |s|) == s
  {
    if s != [] {
      BytesOfLittle(s[1..]);
      assert Little(s) % 256 == s[0] && Little(s) / 256 == Little(s[1..]);
    }
  }

  /** The value of a concatenation, least significant part first. */
  lemma {:induction false} LittleConcat(a: seq<byte>, b: seq<byte>)
    ensures Little(a + b) == Little(a) + Pow256(|a|) * Little(b)
  {
    if a == [] {
      assert a + b == b;
    } else {
      LittleConcat(a[1..], b);
      assert (a + b)[1..] == a[1..] + b;
      TimesAssociates(256, Pow256(|a| - 1), Little(b));
    }
  }

  lemma TimesAssociates(x: int, y: int, z: int)
    ensures x * (y * z) == (x * y) * z
  {
  }

  lemma {:induction false} LittleZeros(n: nat)
    ensures Little(Zeros(n)) == 0
  {
    if n != 0 {
      LittleZeros(n - 1);
      assert Zeros(n)[1..] == Zeros(n - 1);
    }
  }
}
