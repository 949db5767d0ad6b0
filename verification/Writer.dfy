/** `TelemetryWriter`: private copies of the virtual packets, edited in place and flushed. */
module Writer {
  import opened Bytes
  import opened Layout
  import opened Caches
  import opened Handle

  /** What `write` calls change in the shared blocks. */
  datatype Store = Store(nonce: nat, nonces: seq<nat>, packets: seq<seq<byte>>)

  /** The shared blocks after a `write` of packet `i`. */
  function StoreOne(s: Store, i: nat, data: seq<byte>): (t: Store)
    requires i < |s.nonces| == |s.packets|
    ensures |t.nonces| == |s.nonces| && |t.packets| == |s.packets|
  {
    var nonce := (s.nonce + 1) % U32;
    Store(nonce, s.nonces[i := nonce], s.packets[i := data])
  }

  /** The shared blocks after the first `n` packets have been flushed: each one marked is written
      with a nonce of its own. */
  function FlushTo(d: Drafts, s: Store, n: nat): (t: Store)
    requires n <= |d.dirty| == |d.buffers| == |s.nonces| == |s.packets|
    ensures |t.nonces| == |s.nonces| && |t.packets| == |s.packets|
  {
    if n == 0 then s
    else
      var t := FlushTo(d, s, n - 1);
      if d.dirty[n - 1] then StoreOne(t, n - 1, d.buffers[n - 1]) else t
  }

  /** A flush stores the marked packets and leaves the others with their bytes and nonces. */
  lemma {:induction false} FlushStoresTheMarked(d: Drafts, s: Store, n: nat, j: nat)
    requires n <= |d.dirty| == |d.buffers| == |s.nonces| == |s.packets| && j < |d.dirty|
    ensures var t := FlushTo(d, s, n);
      && t.packets[j] == (if j < n && d.dirty[j] then d.buffers[j] else s.packets[j])
      && (!(j < n && d.dirty[j]) ==> t.nonces[j] == s.nonces[j])
  {
    if n != 0 {
      FlushStoresTheMarked(d, s, n - 1, j);
    }
  }

  function Marked(d: Drafts, n: nat): nat
    requires n <= |d.dirty|
  {
    if n == 0 then 0 else Marked(d, n - 1) + if d.dirty[n - 1] then 1 else 0
  }

  /** A call of a packet's logger. */
  datatype Logged = Logged(packet: nat, data: seq<byte>)

  /** What a flush passes to the loggers: each marked packet once, in order. */
  function LogTo(d: Drafts, n: nat): seq<Logged>
    requires n <= |d.dirty| == |d.buffers|
  {
    if n == 0 then []
    else LogTo(d, n - 1) + if d.dirty[n - 1] then [Logged(n - 1, d.buffers[n - 1])] else []
  }

  /** The calls are about marked packets below `n` and pass on their buffers, in the order of the
      packets, and none of these packets is left out. */
  predicate OfTheMarked(calls: seq<Logged>, d: Drafts, n: nat) {
    && |d.dirty| == |d.buffers|
    && (forall k :: 0 <= k < |calls| ==>
          var i := calls[k].packet; i < n && i < |d.dirty| && d.dirty[i] && calls[k].data == d.buffers[i])
    && (forall a, b :: 0 <= a < b < |calls| ==> calls[a].packet < calls[b].packet)
    && (forall i :: 0 <= i < n && i < |d.dirty| && d.dirty[i] ==> Logged(i, d.buffers[i]) in calls)
  }

  lemma {:induction false} LogIsOfTheMarked(d: Drafts, n: nat)
    requires n <= |d.dirty| == |d.buffers|
    ensures OfTheMarked(LogTo(d, n), d, n)
  {
    if n != 0 {
      LogIsOfTheMarked(d, n - 1);
    }
  }

  /** The loggers of all the marked packets succeeded. */
  predicate AllLogged(dirty: seq<bool>, results: seq<bool>, n: nat)
    requires n <= |dirty| == |results|
  {
    forall i :: 0 <= i < n && dirty[i] ==> results[i]
  }

  /** What a flush has come to: the marks left, the shared blocks, the calls of the loggers and
      the value to return. */
  datatype Flushed = Flushed(dirty: seq<bool>, store: Store, logged: seq<Logged>, ok: bool)

  function Unmarked(dirty: seq<bool>, n: nat): (r: seq<bool>)
    ensures |r| == |dirty| && forall k :: 0 <= k < |r| ==> r[k] == (k >= n && dirty[k])
  {
    seq(|dirty|, k requires 0 <= k < |dirty| => k >= n && dirty[k])
  }

  function FlushedTo(d: Drafts, s: Store, results: seq<bool>, n: nat): Flushed
    requires n <= |d.dirty| == |d.buffers| == |s.nonces| == |s.packets| == |results|
  {
    Flushed(Unmarked(d.dirty, n), FlushTo(d, s, n), LogTo(d, n), AllLogged(d.dirty, results, n))
  }

  lemma FlushOneMore(d: Drafts, s: Store, results: seq<bool>, i: nat)
    requires i < |d.dirty| == |d.buffers| == |s.nonces| == |s.packets| == |results|
    ensures var f := FlushedTo(d, s, results, i);
      FlushedTo(d, s, results, i + 1) ==
        if d.dirty[i] then Flushed(f.dirty[i := false], StoreOne(f.store, i, d.buffers[i]),
                                   f.logged + [Logged(i, d.buffers[i])], f.ok && results[i])
        else f
  {
    assert Unmarked(d.dirty, i + 1) == Unmarked(d.dirty, i)[i := false];
    assert !d.dirty[i] ==> Unmarked(d.dirty, i + 1) == Unmarked(d.dirty, i);
  }

  /** A flushed packet keeps the nonce its own write gave it. */
  lemma {:induction false} FlushKeepsNonce(d: Drafts, s: Store, n: nat, j: nat)
    requires n <= |d.dirty| == |d.buffers| == |s.nonces| == |s.packets| && j < n && d.dirty[j]
    ensures FlushTo(d, s, n).nonces[j] == FlushTo(d, s, j + 1).nonce
  {
    if j < n - 1 {
      FlushKeepsNonce(d, s, n - 1, j);
    }
  }

  lemma NextInStep(a: nat, b: nat)
    requires a % U32 == b % U32
    ensures ((a + 1) % U32) % U32 == (b + 1) % U32
  {
  }

  /** Each packet flushed moves the master nonce on by one. */
  lemma {:induction false} NonceCounts(d: Drafts, s: Store, n: nat)
    requires n <= |d.dirty| == |d.buffers| == |s.nonces| == |s.packets|
    ensures FlushTo(d, s, n).nonce % U32 == (s.nonce + Marked(d, n)) % U32
  {
    if n != 0 {
      NonceCounts(d, s, n - 1);
      NextInStep(FlushTo(d, s, n - 1).nonce, s.nonce + Marked(d, n - 1));
    }
  }

  lemma {:induction false} MarkedGrows(d: Drafts, j: nat, n: nat)
    requires j < n <= |d.dirty| && d.dirty[j]
    ensures Marked(d, j) < Marked(d, n) <= Marked(d, j) + n - j
  {
    if j < n - 1 {
      MarkedGrows(d, j, n - 1);
    }
  }

  /** The nonce of a flushed packet is the count of the marked packets up to it above the master
      nonce before the flush. */
  lemma FlushedNonce(d: Drafts, s: Store, n: nat, j: nat)
    requires n <= |d.dirty| == |d.buffers| == |s.nonces| == |s.packets| && j < n && d.dirty[j]
    ensures FlushTo(d, s, n).nonces[j] == (s.nonce + Marked(d, j + 1)) % U32
  {
    FlushKeepsNonce(d, s, n, j);
    NonceCounts(d, s, j + 1);
    NonceWraps(FlushTo(d, s, j).nonce);
  }

  lemma NonceWraps(nonce: nat)
    ensures (nonce + 1) % U32 % U32 == (nonce + 1) % U32
  {
  }

  lemma ApartMod(a: nat, b: nat)
    requires a < b < a + U32
    ensures a % U32 != b % U32
  {
  }

  /** Every packet a flush writes gets a nonce of its own, also where the nonce wraps around. */
  lemma FlushedNoncesDiffer(d: Drafts, s: Store, n: nat, j: nat, k: nat)
    requires n <= |d.dirty| == |d.buffers| == |s.nonces| == |s.packets| && n < U32
    requires j < k < n && d.dirty[j] && d.dirty[k]
    ensures FlushTo(d, s, n).nonces[j] != FlushTo(d, s, n).nonces[k]
  {
    FlushedNonce(d, s, n, j);
    FlushedNonce(d, s, n, k);
    MarkedGrows(d, j, j + 1);
    MarkedGrows(d, k, k + 1);
    MarkedUpTo(d, j + 1, k);
    ApartMod(s.nonce + Marked(d, j + 1), s.nonce + Marked(d, k + 1));
  }

  lemma {:induction false} MarkedUpTo(d: Drafts, j: nat, n: nat)
    requires j <= n <= |d.dirty|
    ensures Marked(d, j) <= Marked(d, n) <= Marked(d, j) + n - j
  {
    if j < n {
      MarkedUpTo(d, j, n - 1);
    }
  }

  /** One cached packet changed and marked. */
  function Put(d: Drafts, loc: Location, bytes: seq<byte>): Drafts
    requires loc.packet < |d.buffers| == |d.dirty| && loc.offset + |bytes| <= |d.buffers[loc.packet]|
  {
    Drafts(d.buffers[loc.packet := Blit(d.buffers[loc.packet], loc.offset, bytes)], d.dirty[loc.packet := true])
  }

  /** `WriteAt` one place further. */
  lemma WriteOneMore(v: Vehicle, locs: seq<Location>, bytes: seq<byte>, d: Drafts, i: nat)
    requires Fits(v, locs, |bytes|, d) && i < |locs|
    ensures Fits(v, locs[..i], |bytes|, d) && Fits(v, locs[..i + 1], |bytes|, d)
    ensures var loc, e := locs[i], WriteAt(v, locs[..i], bytes, d);
      WriteAt(v, locs[..i + 1], bytes, d) == if v.packets[loc.packet].isVirtual then Put(e, loc, bytes) else e
  {
    assert locs[..i + 1][..i] == locs[..i];
  }

  // ---------------------------------------------------------------- copying backwards

  /** The first `n` bytes of `src` copied so that the first one comes last. */
  function CopiedBack(buf: seq<byte>, off: nat, src: seq<byte>, n: nat): (r: seq<byte>)
    requires off + |src| <= |buf| && n <= |src|
    ensures |r| == |buf| && (n == 0 ==> r == buf)
  {
    seq(|buf|, k requires 0 <= k < |buf| =>
      if off + |src| - n <= k < off + |src| then src[off + |src| - 1 - k] else buf[k])
  }

  lemma BackOneMore(buf: seq<byte>, off: nat, src: seq<byte>, i: nat)
    requires off + |src| <= |buf| && i < |src|
    ensures CopiedBack(buf, off, src, i + 1) == CopiedBack(buf, off, src, i)[off + |src| - i - 1 := src[i]]
  {
  }

  lemma BackIsReversed(buf: seq<byte>, off: nat, src: seq<byte>)
    requires off + |src| <= |buf|
    ensures CopiedBack(buf, off, src, |src|) == Blit(buf, off, Reversed(src))
  {
  }

  // ---------------------------------------------------------------- locks

  /** The first virtual packet that the handle holds (`want`), or does not hold, if there is one. */
  function FirstWith(v: Vehicle, locked: seq<bool>, want: bool): (n: nat)
    requires |locked| == |v.packets|
    ensures n <= |v.packets| && (n < |v.packets| ==> Lockable(v, n) && locked[n] == want)
    ensures forall k :: 0 <= k < n && Lockable(v, k) ==> locked[k] != want
  {
    FirstFrom(v, locked, want, 0)
  }

  function FirstFrom(v: Vehicle, locked: seq<bool>, want: bool, i: nat): (n: nat)
    requires i <= |locked| == |v.packets|
    ensures i <= n <= |v.packets| && (n < |v.packets| ==> Lockable(v, n) && locked[n] == want)
    ensures forall k :: i <= k < n && Lockable(v, k) ==> locked[k] != want
    decreases |locked| - i
  {
    if i == |locked| || (Lockable(v, i) && locked[i] == want) then i else FirstFrom(v, locked, want, i + 1)
  }

  /** No virtual packet is locked by another handle. */
  predicate Available(v: Vehicle, locked: seq<bool>, locks: seq<nat>) {
    && |locked| == |locks| == |v.packets|
    && forall k :: 0 <= k < |locked| && Lockable(v, k) && !locked[k] ==> locks[k] > 0
  }

  /** The locks of the virtual packets below `n` have been taken, and no others. */
  predicate LocksTaken(v: Vehicle, locked: seq<bool>, locked': seq<bool>, locks: seq<nat>, locks': seq<nat>, n: nat) {
    && |locked| == |locked'| == |locks| == |locks'| == |v.packets|
    && (forall k :: 0 <= k < |locked| ==> locked'[k] == (locked[k] || (k < n && Lockable(v, k))))
    && (forall k :: 0 <= k < |locks| ==> locks'[k] + (if k < n && Lockable(v, k) then 1 else 0) == locks[k])
  }

  /** They have been given back. */
  predicate LocksGiven(v: Vehicle, locked: seq<bool>, locked': seq<bool>, locks: seq<nat>, locks': seq<nat>, n: nat) {
    && |locked| == |locked'| == |locks| == |locks'| == |v.packets|
    && (forall k :: 0 <= k < |locked| ==> locked'[k] == (locked[k] && !(k < n && Lockable(v, k))))
    && (forall k :: 0 <= k < |locks| ==> locks'[k] == locks[k] + if k < n && Lockable(v, k) then 1 else 0)
  }

  /** The virtual packets below `n`, all of them or those flagged, have been copied into the cache. */
  predicate Loaded(v: Vehicle, bufs: seq<seq<byte>>, bufs': seq<seq<byte>>, packets: seq<seq<byte>>,
                   flags: seq<bool>, all: bool, n: nat)
  {
    && |bufs| == |bufs'| == |packets| == |flags| == |v.packets|
    && forall k :: 0 <= k < |bufs| ==>
         bufs'[k] == if k < n && Lockable(v, k) && (all || flags[k]) then packets[k] else bufs[k]
  }

  lemma TakeOneMore(v: Vehicle, locked: seq<bool>, locked': seq<bool>, locks: seq<nat>, locks': seq<nat>, i: nat)
    requires LocksTaken(v, locked, locked', locks, locks', i) && i < |v.packets|
    requires Lockable(v, i) && !locked[i] ==> locks[i] > 0
    ensures locked'[i] == locked[i] && locks'[i] == locks[i]
    ensures !Lockable(v, i) ==> LocksTaken(v, locked, locked', locks, locks', i + 1)
    ensures Lockable(v, i) && !locked[i] ==>
      LocksTaken(v, locked, locked'[i := true], locks, locks'[i := locks'[i] - 1], i + 1)
    ensures Lockable(v, i) && locked[i] ==> LocksTaken(v, locked, locked'[i := true], locks, locks', i)
  {
  }

  lemma GiveOneMore(v: Vehicle, locked: seq<bool>, locked': seq<bool>, locks: seq<nat>, locks': seq<nat>, i: nat)
    requires LocksGiven(v, locked, locked', locks, locks', i) && i < |v.packets|
    ensures locked'[i] == locked[i] && locks'[i] == locks[i]
    ensures !Lockable(v, i) ==> LocksGiven(v, locked, locked', locks, locks', i + 1)
    ensures Lockable(v, i) ==>
      LocksGiven(v, locked, locked'[i := false], locks, locks'[i := locks'[i] + 1], i + 1)
  {
  }

  lemma LoadOneMore(v: Vehicle, bufs: seq<seq<byte>>, bufs': seq<seq<byte>>, packets: seq<seq<byte>>,
                    flags: seq<bool>, all: bool, i: nat)
    requires Loaded(v, bufs, bufs', packets, flags, all, i) && i < |v.packets|
    ensures !(Lockable(v, i) && (all || flags[i])) ==> Loaded(v, bufs, bufs', packets, flags, all, i + 1)
    ensures Lockable(v, i) && (all || flags[i]) ==>
      Loaded(v, bufs, bufs'[i := packets[i]], packets, flags, all, i + 1)
  {
  }

  /** Only virtual packets have a buffer. */
  function CacheSize(v: Vehicle, i: nat): nat
    requires i < |v.packets|
  {
    if v.packets[i].isVirtual then v.packets[i].size else 0
  }

  class TelemetryWriter {
    const vehicle: Vehicle
    const shm: TelemetryShm
    const packetBuffers: seq<array<byte>>
    const packetSizes: seq<nat>
    const updated: array<bool>

    /** The buffers; those of packets that are not virtual are null in the source, empty here. */
    function Buffers(): (bs: seq<seq<byte>>)
      reads packetBuffers
      ensures |bs| == |packetBuffers| && forall i :: 0 <= i < |bs| ==> bs[i] == packetBuffers[i][..]
    {
      seq(|packetBuffers|, i requires 0 <= i < |packetBuffers| reads packetBuffers => packetBuffers[i][..])
    }

    function Cache(): Drafts
      reads packetBuffers, updated
    {
      Drafts(Buffers(), updated[..])
    }

    ghost predicate Valid()
      reads this, packetBuffers, updated, shm, shm.lastNonces, shm.updated, shm.lockedPackets,
            shm.shared, shm.shared.nonces, shm.shared.packets, shm.shared.locks
    {
      && shm.Valid() && shm.num == |vehicle.packets| == |packetBuffers| == |packetSizes| == updated.Length
      && updated != shm.updated && updated != shm.lockedPackets
      && (forall i, j :: 0 <= i < j < |packetBuffers| ==> packetBuffers[i] != packetBuffers[j])
      && (forall i :: 0 <= i < |packetBuffers| ==>
            packetSizes[i] == packetBuffers[i].Length == CacheSize(vehicle, i))
      && (forall i :: 0 <= i < |packetBuffers| ==> |shm.shared.packets[i]| == vehicle.packets[i].size)
      && (forall i :: 0 <= i < |packetBuffers| ==> updated[i] ==> vehicle.packets[i].isVirtual)
    }

    /** The constructor and `init`: zeroed buffers for the virtual packets, nothing marked. */
    constructor (v: Vehicle, s: TelemetryShm)
      requires s.Valid() && s.num == |v.packets|
      requires forall i :: 0 <= i < |v.packets| ==> |s.shared.packets[i]| == v.packets[i].size
      ensures Valid() && vehicle == v && shm == s && fresh(updated) && (forall b :: b in packetBuffers ==> fresh(b))
      ensures forall i :: 0 <= i < |v.packets| ==> !updated[i] && packetBuffers[i][..] == Zeros(packetSizes[i])
    {
      var bufs: seq<array<byte>> := [];
      var sizes: seq<nat> := [];
      for i := 0 to |v.packets|
        invariant |bufs| == |sizes| == i && (forall b :: b in bufs ==> fresh(b))
        invariant forall j, k :: 0 <= j < k < i ==> bufs[j] != bufs[k]
        invariant forall k :: 0 <= k < i ==> sizes[k] == bufs[k].Length == CacheSize(v, k)
        invariant forall k, t :: 0 <= k < i && 0 <= t < sizes[k] ==> bufs[k][t] == 0
      {
        var size := CacheSize(v, i);
        var b := new byte[size](_ => 0);
        bufs, sizes := bufs + [b], sizes + [size];
      }
      vehicle, shm, packetBuffers, packetSizes := v, s, bufs, sizes;
      updated := new bool[|v.packets|](_ => false);
    }

    /** The loop of `telemetry_copy` that copies backwards. */
    method CopyBackwards(dst: array<byte>, off: nat, src: seq<byte>)
      requires off + |src| <= dst.Length
      modifies dst
      ensures dst[..] == Blit(old(dst[..]), off, Reversed(src))
    {
      var len := |src|;
      ghost var was := dst[..];
      for i := 0 to len
        invariant dst[..] == CopiedBack(was, off, src, i)
      {
        BackOneMore(was, off, src, i);
        dst[off + len - i - 1] := src[i];
      }
      BackIsReversed(was, off, src);
    }

    /** Its loop that copies forwards, and `memcpy` into a buffer. */
    method CopyBytes(dst: array<byte>, off: nat, src: seq<byte>)
      requires off + |src| <= dst.Length
      modifies dst
      ensures dst[..] == Blit(old(dst[..]), off, src)
    {
      ghost var was := dst[..];
      for i := 0 to |src|
        invariant forall k :: 0 <= k < dst.Length ==> dst[k] == if off <= k < off + i then src[k - off] else was[k]
      {
        dst[off + i] := src[i];
      }
      assert dst[..] == Blit(was, off, src);
    }

    /** `telemetry_copy`: the bytes land in the byte order of the measurement. */
    method TelemetryCopy(m: Measurement, dst: array<byte>, off: nat, src: seq<byte>)
      requires off + |src| <= dst.Length
      modifies dst
      ensures dst[..] == Blit(old(dst[..]), off, Ordered(m, src))
    {
      if HOST != m.endian {
        CopyBackwards(dst, off, src);
      } else {
        CopyBytes(dst, off, src);
      }
    }

    method PutAt(loc: Location, m: Measurement, data: seq<byte>, raw: bool)
      requires Valid() && loc.packet < |vehicle.packets| && vehicle.packets[loc.packet].isVirtual
      requires loc.offset + |data| <= |Buffers()[loc.packet]|
      modifies updated, packetBuffers[loc.packet]
      ensures Valid()
      ensures Cache() == Put(old(Cache()), loc, if raw then data else Ordered(m, data))
    {
      ghost var bytes := if raw then data else Ordered(m, data);
      if raw {
        CopyBytes(packetBuffers[loc.packet], loc.offset, data);
      } else {
        TelemetryCopy(m, packetBuffers[loc.packet], loc.offset, data);
      }
      updated[loc.packet] := true;
      assert Buffers() == old(Buffers())[loc.packet := Blit(old(Buffers()[loc.packet]), loc.offset, bytes)];
    }

    /** One turn of the loop of `write` and of `write_raw`. */
    method PutNext(m: Measurement, data: seq<byte>, raw: bool, i: nat, ghost was: Drafts)
      requires Valid() && i < |m.locations| && Fits(vehicle, m.locations, |data|, was)
      requires Fits(vehicle, m.locations[..i], |data|, was)
      requires Cache() == WriteAt(vehicle, m.locations[..i], if raw then data else Ordered(m, data), was)
      modifies updated, packetBuffers
      ensures Valid() && Fits(vehicle, m.locations[..i + 1], |data|, was)
      ensures Cache() == WriteAt(vehicle, m.locations[..i + 1], if raw then data else Ordered(m, data), was)
    {
      var loc := m.locations[i];
      WriteOneMore(vehicle, m.locations, if raw then data else Ordered(m, data), was, i);
      if vehicle.packets[loc.packet].isVirtual {
        PutAt(loc, m, data, raw);
      }
    }

    /** The loop of `write` and of `write_raw`. */
    method PutEverywhere(m: Measurement, data: seq<byte>, raw: bool)
      requires Valid() && Fits(vehicle, m.locations, |data|, Cache())
      modifies updated, packetBuffers
      ensures Valid()
      ensures Cache() == WriteAt(vehicle, m.locations, if raw then data else Ordered(m, data), old(Cache()))
    {
      ghost var was := Cache();
      for i := 0 to |m.locations|
        invariant Valid() && Fits(vehicle, m.locations[..i], |data|, was)
        invariant Cache() == WriteAt(vehicle, m.locations[..i], if raw then data else Ordered(m, data), was)
      {
        PutNext(m, data, raw, i, was);
      }
      assert m.locations[..|m.locations|] == m.locations;
    }

    /** `write`: the whole measurement, at every place it has in a virtual packet. */
    method Write(m: Measurement, data: seq<byte>) returns (ok: bool)
      requires Valid() && Fits(vehicle, m.locations, m.size, Cache())
      modifies updated, packetBuffers
      ensures Valid() && ok == (|data| == m.size)
      ensures Cache() == if ok then WriteAt(vehicle, m.locations, Ordered(m, data), old(Cache())) else old(Cache())
    {
      if |data| != m.size {
        return false;
      }
      PutEverywhere(m, data, false);
      return true;
    }

    /** `write_raw`: up to the whole measurement, in the order given. */
    method WriteRaw(m: Measurement, data: seq<byte>) returns (ok: bool)
      requires Valid() && Fits(vehicle, m.locations, m.size, Cache())
      modifies updated, packetBuffers
      ensures Valid() && ok == (|data| <= m.size)
      ensures Cache() == if ok then WriteAt(vehicle, m.locations, data, old(Cache())) else old(Cache())
    {
      if |data| > m.size {
        return false;
      }
      PutEverywhere(m, data, true);
      return true;
    }

    function Shared(): Store
      reads shm, shm.shared, shm.shared.nonces, shm.shared.packets
    {
      Store(shm.shared.nonce, shm.shared.nonces[..], shm.shared.packets[..])
    }

    method FlushOne(i: nat)
      requires Valid() && i < |vehicle.packets| && updated[i]
      modifies updated, shm.shared`nonce, shm.shared.nonces, shm.shared.packets
      ensures Valid() && Buffers() == old(Buffers())
      ensures updated[..] == old(updated[..])[i := false]
      ensures Shared() == StoreOne(old(Shared()), i, Buffers()[i])
    {
      var ok := shm.Write(i, packetBuffers[i][..]);
      updated[i] := false;
    }

    /** `flush`: every marked packet is logged and written, in order, and no mark is left. Whether
        the loggers succeed is up to them; the writes go on either way. */
    method Flush(logResults: seq<bool>) returns (ok: bool, logged: seq<Logged>)
      requires Valid() && |logResults| == |vehicle.packets|
      modifies updated, shm.shared`nonce, shm.shared.nonces, shm.shared.packets
      ensures Valid() && Buffers() == old(Buffers())
      ensures Shared() == FlushTo(old(Cache()), old(Shared()), |vehicle.packets|)
      ensures forall i :: 0 <= i < |vehicle.packets| ==> !updated[i]
      ensures logged == LogTo(old(Cache()), |vehicle.packets|)
      ensures ok == AllLogged(old(updated[..]), logResults, |vehicle.packets|)
    {
      ghost var was, store := Cache(), Shared();
      ok, logged := true, [];
      assert updated[..] == Unmarked(was.dirty, 0);
      for i := 0 to |packetBuffers|
        invariant Valid() && Buffers() == was.buffers
        invariant Flushed(updated[..], Shared(), logged, ok) == FlushedTo(was, store, logResults, i)
      {
        FlushOneMore(was, store, logResults, i);
        if updated[i] {
          logged := logged + [Logged(i, packetBuffers[i][..])];
          ok := ok && logResults[i];
          FlushOne(i);
        }
      }
    }

    /** The part of `lock` for one virtual packet. */
    method LockOne(i: nat, copy: bool) returns (ok: bool)
      requires Valid() && Lockable(vehicle, i) && (!shm.lockedPackets[i] ==> shm.shared.locks[i] > 0)
      modifies packetBuffers[i], shm.lockedPackets, shm.shared.locks
      ensures Valid() && ok == !old(shm.lockedPackets[i])
      ensures shm.lockedPackets[..] == old(shm.lockedPackets[..])[i := true]
      ensures ok ==> shm.shared.locks[..] == old(shm.shared.locks[..])[i := old(shm.shared.locks[i]) - 1]
      ensures !ok ==> shm.shared.locks[..] == old(shm.shared.locks[..])
      ensures Buffers() == if ok && copy then old(Buffers())[i := shm.shared.packets[i]] else old(Buffers())
    {
      ok := shm.WriteLock(i);
      if ok && copy {
        CopyBytes(packetBuffers[i], 0, shm.shared.packets[i]);
        assert packetBuffers[i][..] == shm.shared.packets[i];
      }
    }

    /** One turn of the loop of `lock`. */
    method LockNext(i: nat, all: bool, ghost locked: seq<bool>, ghost locks: seq<nat>, ghost was: seq<seq<byte>>)
        returns (ok: bool)
      requires Valid() && i < |vehicle.packets|
      requires LocksTaken(vehicle, locked, shm.lockedPackets[..], locks, shm.shared.locks[..], i)
      requires Loaded(vehicle, was, Buffers(), shm.shared.packets[..], shm.updated[..], all, i)
      requires Available(vehicle, locked, locks)
      modifies packetBuffers[i], shm.lockedPackets, shm.shared.locks
      ensures Valid() && ok == !(Lockable(vehicle, i) && locked[i])
      ensures var n := if ok then i + 1 else i;
        && LocksTaken(vehicle, locked, shm.lockedPackets[..], locks, shm.shared.locks[..], n)
        && Loaded(vehicle, was, Buffers(), shm.shared.packets[..], shm.updated[..], all, n)
    {
      TakeOneMore(vehicle, locked, shm.lockedPackets[..], locks, shm.shared.locks[..], i);
      LoadOneMore(vehicle, was, Buffers(), shm.shared.packets[..], shm.updated[..], all, i);
      ok := true;
      if packetSizes[i] != 0 {
        ok := LockOne(i, all || shm.updated[i]);
      }
    }

    /** `lock`: takes the write lock of every virtual packet in ascending order, and copies what
        it holds into the cache - always, or only if the last read lock flagged it. It stops at the
        first one this handle has locked already, and keeps what it has taken up to there. */
    method Lock(checkForUpdates: bool) returns (ok: bool)
      requires Valid() && Available(vehicle, shm.lockedPackets[..], shm.shared.locks[..])
      modifies packetBuffers, shm.lockedPackets, shm.shared.locks
      ensures Valid()
      ensures var n := FirstWith(vehicle, old(shm.lockedPackets[..]), true);
        && ok == (n == |vehicle.packets|)
        && LocksTaken(vehicle, old(shm.lockedPackets[..]), shm.lockedPackets[..],
                      old(shm.shared.locks[..]), shm.shared.locks[..], n)
        && Loaded(vehicle, old(Buffers()), Buffers(), shm.shared.packets[..], shm.updated[..],
                  checkForUpdates, n)
    {
      ghost var was, locked, locks := Buffers(), shm.lockedPackets[..], shm.shared.locks[..];
      ghost var n := FirstWith(vehicle, locked, true);
      for i := 0 to |packetBuffers|
        invariant Valid() && n == FirstFrom(vehicle, locked, true, i)
        invariant LocksTaken(vehicle, locked, shm.lockedPackets[..], locks, shm.shared.locks[..], i)
        invariant Loaded(vehicle, was, Buffers(), shm.shared.packets[..], shm.updated[..], checkForUpdates, i)
      {
        var mine := LockNext(i, checkForUpdates, locked, locks, was);
        if !mine {
          return false;
        }
      }
      return true;
    }

    /** `unlock`: gives back the write lock of every virtual packet, up to the first one that this
        handle does not hold. */
    method Unlock() returns (ok: bool)
      requires Valid()
      modifies shm.lockedPackets, shm.shared.locks
      ensures Valid() && Cache() == old(Cache())
      ensures var n := FirstWith(vehicle, old(shm.lockedPackets[..]), false);
        && ok == (n == |vehicle.packets|)
        && LocksGiven(vehicle, old(shm.lockedPackets[..]), shm.lockedPackets[..],
                      old(shm.shared.locks[..]), shm.shared.locks[..], n)
    {
      ghost var was, locked, locks := Cache(), shm.lockedPackets[..], shm.shared.locks[..];
      ghost var n := FirstWith(vehicle, locked, false);
      for i := 0 to |packetBuffers|
        invariant Valid() && Cache() == was && n == FirstFrom(vehicle, locked, false, i)
        invariant LocksGiven(vehicle, locked, shm.lockedPackets[..], locks, shm.shared.locks[..], i)
      {
        GiveOneMore(vehicle, locked, shm.lockedPackets[..], locks, shm.shared.locks[..], i);
        if packetSizes[i] != 0 {
          var unlocked := shm.WriteUnlock(i);
          if !unlocked {
            return false;
          }
        }
      }
      return true;
    }
  }
}
