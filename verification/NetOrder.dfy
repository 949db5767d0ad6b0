/** Network byte order on a little-endian host, by byte loops. */
module NetOrder {
  import opened Bytes

  /** `n >>= 8`, done `k` times. */
  function Shifted(n: nat, k: nat): nat {
    if k == 0 then n else Shifted(n / 256, k - 1)
  }

  lemma {:induction false} ShiftedOnce(n: nat, k: nat)
    ensures Shifted(n, k + 1) == Shifted(n, k) / 256
  {
    if k != 0 {
      ShiftedOnce(n / 256, k - 1);
    }
  }

  lemma {:induction false} ByteAt(n: nat, width: nat, k: nat)
    requires k < width
    ensures LittleBytes(n, width)[k] == Shifted(n, k) % 256
  {
    if k != 0 {
      ByteAt(n / 256, width - 1, k - 1);
    }
  }

  /** The three `hton` functions are this loop for 2, 4 and 8 bytes: the result, stored on this
      host, has the bytes of `n` most significant first. */
  method Hton(n: nat, width: nat) returns (r: nat)
    requires n < Pow256(width)
    ensures r < Pow256(width)
    ensures LittleBytes(r, width) == Reversed(LittleBytes(n, width))
    ensures Big(LittleBytes(r, width)) == n
  {
    var ret := new byte[width](_ => 0);
    var rest := n;
    for i := width downto 0
      invariant rest == Shifted(n, width - i)
      invariant forall k :: i <= k < width ==> ret[k] == LittleBytes(n, width)[width - 1 - k]
    {
      ret[i] := rest % 256;
      ByteAt(n, width, width - 1 - i);
      ShiftedOnce(n, width - 1 - i);
      rest := rest / 256;
    }
    assert ret[..] == Reversed(LittleBytes(n, width));
    r := Little(ret[..]);
    LittleBound(ret[..]);
    BytesOfLittle(ret[..]);
    BigIsLittleReversed(ret[..]);
    ReversedTwice(LittleBytes(n, width));
    LittleOfBytes(n, width);
  }

  /** `ntoh` is the same loop, and undoes `hton`. */
  method NtohOfHton(n: nat, width: nat) returns (back: nat)
    requires n < Pow256(width)
    ensures back == n
  {
    var r := Hton(n, width);
    back := Hton(r, width);
    ReversedTwice(LittleBytes(n, width));
    LittleOfBytes(n, width);
    LittleOfBytes(back, width);
  }
}
