/** One process's handle on the telemetry shared memory, updated in place. The waits on
    semaphores and on the futex are the concern of `Protocol`; here each method is what the
    call does to the memory and to the handle while it is alone inside. */
module Handle {
  import opened Wrappers
  import opened Bytes
  import opened Layout
  import opened Caches
  import opened Protocol
  import opened Recency

  /** How many hold the read lock, and the value of the semaphore the first of them takes. */
  datatype ReaderCount = ReaderCount(readers: uint32, resource: nat)

  predicate CanComeIn(c: ReaderCount) {
    c.readers == 0 ==> c.resource > 0
  }

  /** `resource` is taken exactly while somebody reads, so that nobody writes meanwhile. */
  predicate Gated(c: ReaderCount) {
    c.resource == if c.readers == 0 then 1 else 0
  }

  /** The first reader in takes `resource`. */
  function OneIn(c: ReaderCount): (c': ReaderCount)
    requires CanComeIn(c)
    ensures Gated(c) && c.readers < U32 - 1 ==> Gated(c') && c'.readers == c.readers + 1
  {
    ReaderCount((c.readers + 1) % U32, if c.readers == 0 then c.resource - 1 else c.resource)
  }

  /** The last one out gives it back. */
  function OneOut(c: ReaderCount): (c': ReaderCount)
    ensures Gated(c) && c.readers > 0 ==> Gated(c') && c'.readers == c.readers - 1
  {
    ReaderCount((c.readers - 1) % U32, if c.readers == 1 then c.resource + 1 else c.resource)
  }

  /** Whoever comes in and goes out again leaves everything as it was. */
  lemma InAndOut(c: ReaderCount)
    requires CanComeIn(c)
    ensures OneOut(OneIn(c)) == c
  {
  }

  /** The master block, the nonces, the packets and the per-packet write locks. */
  class Shared {
    var nonce: uint32
    var readers: uint32
    var resource: nat
    const nonces: array<uint32>
    const packets: array<seq<byte>>
    const locks: array<nat>

    predicate Valid()
      reads this, nonces, packets, locks
    {
      nonces.Length == packets.Length == locks.Length
    }

    function Counts(): ReaderCount
      reads this
    {
      ReaderCount(readers, resource)
    }

    /** A reader that comes in now does not have to wait for `resource`. */
    predicate Free()
      reads this
    {
      CanComeIn(Counts())
    }

    /** `TelemetryShm::create`. */
    constructor (v: Vehicle)
      ensures Valid() && fresh(nonces) && fresh(packets) && fresh(locks) && packets.Length == |v.packets|
      ensures readers == 0 && Gated(Counts())
      ensures nonce == 1 && (forall i :: 0 <= i < |v.packets| ==> nonces[i] == 1 && locks[i] == 1)
      ensures forall i :: 0 <= i < |v.packets| ==> packets[i] == Zeros(v.packets[i].size)
    {
      nonce, readers, resource := 1, 0, 1;
      nonces := new uint32[|v.packets|](_ => 1);
      locks := new nat[|v.packets|](_ => 1);
      packets := new seq<byte>[|v.packets|](i requires 0 <= i < |v.packets| => Zeros(v.packets[i].size));
    }
  }

  class TelemetryShm {
    const shared: Shared
    const num: nat
    var lastNonce: uint32
    const lastNonces: array<uint32>
    const updated: array<bool>
    const lockedPackets: array<bool>
    var readMode: Mode
    var readLocked: bool

    predicate Valid()
      reads this, lastNonces, updated, lockedPackets, shared, shared.nonces, shared.packets, shared.locks
    {
      && shared.Valid() && shared.packets.Length == num
      && lastNonces.Length == updated.Length == lockedPackets.Length == num
      && lastNonces != shared.nonces && lockedPackets != updated
    }

    /** What the handle remembers, as a value. */
    function Seen(): (w: View)
      requires Valid()
      reads this, lastNonces, updated, lockedPackets, shared, shared.nonces, shared.packets, shared.locks
      ensures Sized(w, num)
    {
      View(lastNonce, lastNonces[..], updated[..])
    }

    function SharedNonces(): (ns: seq<nat>)
      requires Valid()
      reads this, lastNonces, updated, lockedPackets, shared, shared.nonces, shared.packets, shared.locks
      ensures |ns| == num && forall i :: 0 <= i < num ==> ns[i] == shared.nonces[i]
    {
      shared.nonces[..]
    }

    /** `init`. */
    constructor (s: Shared)
      requires s.Valid()
      ensures Valid() && shared == s && fresh(lastNonces) && fresh(updated) && fresh(lockedPackets)
      ensures Seen() == View(1, seq(num, _ => 1), seq(num, _ => false)) && !readLocked && readMode.Standard?
      ensures forall i :: 0 <= i < num ==> !lockedPackets[i]
    {
      shared, num := s, s.packets.Length;
      lastNonce := 1;
      lastNonces := new uint32[s.packets.Length](_ => 1);
      updated := new bool[s.packets.Length](_ => false);
      lockedPackets := new bool[s.packets.Length](_ => false);
      readMode, readLocked := Standard, false;
    }

    /** `write`: the packet, its nonce and the master nonce change together. */
    method Write(id: nat, data: seq<byte>) returns (ok: bool)
      requires Valid() && (id < num ==> |data| == |shared.packets[id]|)
      modifies shared`nonce, shared.nonces, shared.packets
      ensures Valid() && ok == (id < num)
      ensures !ok ==> shared.nonce == old(shared.nonce) && shared.nonces[..] == old(shared.nonces[..])
                      && shared.packets[..] == old(shared.packets[..])
      ensures ok ==> shared.nonce == (old(shared.nonce) + 1) % U32
      ensures ok ==> shared.nonces[..] == old(shared.nonces[..])[id := shared.nonce]
      ensures ok ==> shared.packets[..] == old(shared.packets[..])[id := data]
    {
      if id >= num {
        return false;
      }
      shared.packets[id] := data;
      shared.nonce := (shared.nonce + 1) % U32;
      shared.nonces[id] := shared.nonce;
      return true;
    }

    /** The way in of `read_lock`. */
    method Enter()
      requires Valid() && shared.Free()
      modifies shared`readers, shared`resource
      ensures Valid() && shared.Counts() == OneIn(old(shared.Counts()))
    {
      shared.readers := (shared.readers + 1) % U32;
      if shared.readers == 1 {
        shared.resource := shared.resource - 1;
      }
    }

    method ClearUpdated()
      requires Valid()
      modifies updated
      ensures Valid() && Seen() == ClearFlags(old(Seen()))
    {
      for i := 0 to num
        invariant forall k :: 0 <= k < i ==> !updated[k]
      {
        updated[i] := false;
      }
      assert updated[..] == ClearFlags(old(Seen())).updated;
    }

    /** The loop over all packets of the all-packets `read_lock`. */
    method Refresh()
      requires Valid()
      modifies this`lastNonce, lastNonces, updated
      ensures Valid() && Seen() == RefreshAll(old(Seen()), shared.nonce, SharedNonces())
    {
      for i := 0 to num
        invariant forall k :: 0 <= k < num ==> lastNonces[k] == if k < i then shared.nonces[k] else old(lastNonces[k])
        invariant forall k :: 0 <= k < num ==>
          updated[k] == (old(updated[k]) || (k < i && old(lastNonces[k]) != shared.nonces[k]))
      {
        var nonce := shared.nonces[i];
        if lastNonces[i] != nonce {
          updated[i] := true;
          lastNonces[i] := nonce;
        }
      }
      lastNonce := shared.nonce;
      assert lastNonces[..] == shared.nonces[..];
      assert updated[..] == RefreshAll(old(Seen()), shared.nonce, SharedNonces()).updated;
    }

    /** The loop over the list of the listed `read_lock`; `block` says nothing had changed. */
    method RefreshThese(ids: seq<nat>) returns (block: bool)
      requires Valid() && forall k :: 0 <= k < |ids| ==> ids[k] < num
      modifies this`lastNonce, lastNonces, updated
      ensures Valid() && Seen() == RefreshListed(old(Seen()), ids, shared.nonce, SharedNonces())
      ensures block <==> !AnyChanged(old(Seen()), ids, SharedNonces())
    {
      ghost var was := Seen();
      lastNonce := shared.nonce;
      block := true;
      for i := 0 to |ids|
        invariant forall k :: 0 <= k < num ==>
          lastNonces[k] == if k in ids[..i] then shared.nonces[k] else was.lastNonces[k]
        invariant forall k :: 0 <= k < num ==>
          updated[k] == (was.updated[k] || (k in ids[..i] && was.lastNonces[k] != shared.nonces[k]))
        invariant lastNonce == shared.nonce
        invariant block <==> forall k :: 0 <= k < i ==> was.lastNonces[ids[k]] == shared.nonces[ids[k]]
      {
        var id := ids[i];
        assert ids[..i + 1] == ids[..i] + [id];
        if shared.nonces[id] != lastNonces[id] {
          lastNonces[id] := shared.nonces[id];
          block := false;
          updated[id] := true;
        }
        assert id in ids[..i] ==> exists k :: 0 <= k < i && ids[k] == id;
      }
      assert ids[..|ids|] == ids;
      assert lastNonces[..] == RefreshListed(was, ids, shared.nonce, SharedNonces()).lastNonces;
      assert updated[..] == RefreshListed(was, ids, shared.nonce, SharedNonces()).updated;
    }

    /** One pass of the all-packets `read_lock`, from `updated` being cleared to the decision to
        hold the lock (`Success`), to report `Blocked`, or to wait (`NoOutcome`). */
    method ReadLockAll() returns (r: Outcome)
      requires Valid() && shared.Free()
      modifies this`lastNonce, this`readLocked, lastNonces, updated, shared`readers, shared`resource
      ensures Valid()
      ensures shared.Counts() == if r.Success? then OneIn(old(shared.Counts())) else old(shared.Counts())
      ensures r.Failed? <==> old(readLocked)
      ensures r.Failed? ==> Seen() == old(Seen()) && readLocked
      ensures !r.Failed? ==> readLocked == r.Success?
      ensures !r.Failed? ==> (r.Success? <==> readMode.Standard? || old(lastNonce) != shared.nonce)
      ensures r.Success? ==> Seen() == RefreshAll(ClearFlags(old(Seen())), shared.nonce, SharedNonces())
      ensures !r.Failed? && !r.Success? ==> Seen() == ClearFlags(old(Seen()))
      ensures !r.Failed? && !r.Success? ==> r == (if readMode.Blocking? then NoOutcome else Blocked)
    {
      if readLocked {
        return Failed;
      }
      ClearUpdated();
      Enter();
      if !readMode.Standard? && lastNonce == shared.nonce {
        var left := ReadUnlock(true);
        InAndOut(old(shared.Counts()));
        return if readMode.Blocking? then NoOutcome else Blocked;
      }
      Refresh();
      readLocked := true;
      return Success;
    }

    /** One pass of the listed `read_lock`. */
    method ReadLockThese(ids: seq<nat>) returns (r: Outcome)
      requires Valid() && shared.Free() && forall k :: 0 <= k < |ids| ==> ids[k] < num
      modifies this`lastNonce, this`readLocked, lastNonces, updated, shared`readers, shared`resource
      ensures Valid()
      ensures shared.Counts() == if r.Success? then OneIn(old(shared.Counts())) else old(shared.Counts())
      ensures r.Failed? <==> old(readLocked)
      ensures r.Failed? ==> Seen() == old(Seen()) && readLocked
      ensures !r.Failed? ==> Seen() == RefreshListed(ClearFlags(old(Seen())), ids, shared.nonce, SharedNonces())
      ensures !r.Failed? ==> readLocked == r.Success?
      ensures !r.Failed? ==> (r.Success? <==> readMode.Standard? || AnyChanged(old(Seen()), ids, SharedNonces()))
      ensures !r.Failed? && !r.Success? ==> r == (if readMode.Blocking? then NoOutcome else Blocked)
    {
      if readLocked {
        return Failed;
      }
      ClearUpdated();
      Enter();
      var block := RefreshThese(ids);
      if !block || readMode.Standard? {
        readLocked := true;
        return Success;
      }
      var left := ReadUnlock(true);
      InAndOut(old(shared.Counts()));
      return if readMode.Blocking? then NoOutcome else Blocked;
    }

    /** `read_unlock`: counts this reader out, and the last one gives `resource` back. Without the
        lock it does nothing, unless it is forced. */
    method ReadUnlock(force: bool) returns (ok: bool)
      modifies this`readLocked, shared`readers, shared`resource
      ensures ok == (old(readLocked) || force) && !readLocked
      ensures shared.Counts() == if ok then OneOut(old(shared.Counts())) else old(shared.Counts())
    {
      if !readLocked && !force {
        return false;
      }
      shared.readers := (shared.readers - 1) % U32;
      if shared.readers == 0 {
        shared.resource := shared.resource + 1;
      }
      readLocked := false;
      return true;
    }

    method WriteLock(id: nat) returns (ok: bool)
      requires Valid() && (id < num && !lockedPackets[id] ==> shared.locks[id] > 0)
      modifies lockedPackets, shared.locks
      ensures Valid() && ok == (id < num && !old(lockedPackets[id]))
      ensures lockedPackets[..] == if ok then old(lockedPackets[..])[id := true] else old(lockedPackets[..])
      ensures shared.locks[..] ==
        if ok then old(shared.locks[..])[id := old(shared.locks[id]) - 1] else old(shared.locks[..])
    {
      if id >= num || lockedPackets[id] {
        return false;
      }
      shared.locks[id] := shared.locks[id] - 1;
      lockedPackets[id] := true;
      return true;
    }

    method WriteUnlock(id: nat) returns (ok: bool)
      requires Valid()
      modifies lockedPackets, shared.locks
      ensures Valid() && ok == (id < num && old(lockedPackets[id]))
      ensures lockedPackets[..] == if ok then old(lockedPackets[..])[id := false] else old(lockedPackets[..])
      ensures shared.locks[..] ==
        if ok then old(shared.locks[..])[id := old(shared.locks[id]) + 1] else old(shared.locks[..])
    {
      if id >= num || !lockedPackets[id] {
        return false;
      }
      shared.locks[id] := shared.locks[id] + 1;
      lockedPackets[id] := false;
      return true;
    }

    /** `update_value`. */
    method UpdateValue(id: nat) returns (value: Option<uint32>)
      requires Valid()
      ensures value == if id < num then Some(Distance(lastNonce, lastNonces[id])) else None
    {
      if id >= num {
        return None;
      }
      return Some((lastNonce - lastNonces[id]) % U32);
    }
  }
}
