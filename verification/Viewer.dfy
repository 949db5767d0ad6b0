/** `TelemetryViewer`: the packets a process tracks and its copies of them, updated in place. */
module Viewer {
  import opened Wrappers
  import opened Bytes
  import opened Layout
  import opened Convert
  import opened Caches
  import opened Protocol
  import opened Recency
  import opened Handle

  /** The buffers after the copy loop of `update`: only tracked and flagged packets are copied. */
  function CopyFlagged(buffers: seq<seq<byte>>, ids: seq<nat>, updated: seq<bool>, packets: seq<seq<byte>>)
      : (r: seq<seq<byte>>)
    requires |buffers| == |updated| == |packets|
    ensures |r| == |buffers|
    ensures forall i :: 0 <= i < |r| ==> r[i] == if i in ids && updated[i] then packets[i] else buffers[i]
  {
    seq(|buffers|, i requires 0 <= i < |buffers| => if i in ids && updated[i] then packets[i] else buffers[i])
  }

  /** What the buffers of a process in the copy loop of `Protocol` will be at its end. */
  function Copied(m: Memory, p: Proc): seq<seq<byte>>
    requires p.pc.Copying? && p.pc.next <= |p.ids| && |p.buffers| == |p.view.updated| == |m.packets|
  {
    CopyFlagged(p.buffers, p.ids[p.pc.next..], p.view.updated, m.packets)
  }

  /** `p'` is `p` one packet further in the copy loop. */
  predicate CopiedOne(m: Memory, p: Proc, p': Proc) {
    && p.pc.Copying? && p.pc.next < |p.ids| && p'.pc == Copying(p.pc.next + 1) && p'.ids == p.ids && p'.view == p.view
    && var id := p.ids[p.pc.next];
       id < |p.buffers| == |p.view.updated| == |m.packets|
       && p'.buffers == if p.view.updated[id] then p.buffers[id := m.packets[id]] else p.buffers
  }

  /** Every step of that loop keeps what it will lead to, and at the end it is there: taken step
      by step, the copy loop gives what the copy loop of this class gives. */
  lemma CopyStepsAreCopyFlagged(v: Vehicle, m: Memory, p: Proc)
    requires ShapedMem(v, m) && Shaped1(v, p) && p.pc.Copying?
    ensures p.pc.next == |p.ids| ==> Copied(m, p) == p.buffers
    ensures p.pc.next < |p.ids| ==>
      CopiedOne(m, p, ViewStep(v, m, p).proc) && Copied(m, ViewStep(v, m, p).proc) == Copied(m, p)
  {
  }

  /** Tracking a packet again after `remove_all` gives it a zeroed buffer but leaves the nonce
      kept for it. The next successful update then fills the buffer exactly if the packet was
      written in between, or holds nothing but zeros anyway. */
  lemma ReaddedIsCurrentExactlyWhen(w: View, nonce: nat, nonces: seq<nat>, buffers: seq<seq<byte>>,
                                    all: bool, ids: seq<nat>, packets: seq<seq<byte>>, j: nat)
    requires Sized(w, |nonces|) && |buffers| == |packets| == |nonces| && j < |nonces| && j in ids
    requires buffers[j] == Zeros(|packets[j]|)
    ensures var w' := if all then RefreshAll(ClearFlags(w), nonce, nonces)
                      else RefreshListed(ClearFlags(w), ids, nonce, nonces);
      (CopyFlagged(buffers, ids, w'.updated, packets)[j] == packets[j])
      <==> (w.lastNonces[j] != nonces[j] || packets[j] == Zeros(|packets[j]|))
  {
  }

  function Below(n: nat): (s: set<nat>)
    ensures |s| == n && forall i: nat :: i in s <==> i < n
  {
    if n == 0 then {} else Below(n - 1) + {n - 1}
  }

  function Elements(ids: seq<nat>): set<nat> {
    set i | i in ids
  }

  lemma {:induction false} DistinctSize(ids: seq<nat>)
    requires forall a, b :: 0 <= a < b < |ids| ==> ids[a] != ids[b]
    ensures |Elements(ids)| == |ids|
  {
    if |ids| != 0 {
      var front, last := ids[..|ids| - 1], ids[|ids| - 1];
      DistinctSize(front);
      assert ids == front + [last];
      assert Elements(ids) == Elements(front) + {last};
    }
  }

  lemma {:induction false} SubsetSize(a: set<nat>, b: set<nat>)
    requires a <= b
    ensures |a| <= |b|
    decreases a
  {
    if x :| x in a {
      SubsetSize(a - {x}, b - {x});
    }
  }

  /** Distinct ids below `n` that leave one out are fewer than `n`. */
  lemma OneMissing(ids: seq<nat>, n: nat, id: nat)
    requires forall a :: 0 <= a < |ids| ==> ids[a] < n
    requires forall a, b :: 0 <= a < b < |ids| ==> ids[a] != ids[b]
    requires id < n && id !in ids
    ensures |ids| < n
  {
    DistinctSize(ids);
    SubsetSize(Elements(ids), Below(n) - {id});
  }

  class TelemetryViewer {
    const vehicle: Vehicle
    const shm: TelemetryShm
    var checkAll: bool
    const packetIds: array<nat>
    var numPackets: nat
    const packetBuffers: array<seq<byte>>

    ghost predicate Valid()
      reads this, packetIds, packetBuffers, shm, shm.lastNonces, shm.updated, shm.lockedPackets,
            shm.shared, shm.shared.nonces, shm.shared.packets, shm.shared.locks
    {
      && shm.Valid() && shm.num == |vehicle.packets| == packetIds.Length == packetBuffers.Length
      && packetBuffers != shm.shared.packets && packetIds != shm.shared.locks
      && numPackets <= packetIds.Length
      && (forall k :: 0 <= k < numPackets ==> packetIds[k] < |vehicle.packets|)
      && (forall j, k :: 0 <= j < k < numPackets ==> packetIds[j] != packetIds[k])
    }

    function Ids(): (ids: seq<nat>)
      requires numPackets <= packetIds.Length
      reads this, packetIds
      ensures |ids| == numPackets && forall k :: 0 <= k < numPackets ==> ids[k] == packetIds[k]
    {
      packetIds[..numPackets]
    }

    /** The constructor and `init`; `check_all` starts as false. */
    constructor (v: Vehicle, s: TelemetryShm)
      requires s.Valid() && s.num == |v.packets|
      ensures Valid() && vehicle == v && shm == s && fresh(packetIds) && fresh(packetBuffers)
      ensures numPackets == 0 && !checkAll
    {
      vehicle, shm, checkAll, numPackets := v, s, false, 0;
      packetIds := new nat[|v.packets|](_ => 0);
      packetBuffers := new seq<byte>[|v.packets|](_ => []);
    }

    /** There is always room for an id that is not tracked yet. */
    lemma RoomForMore(id: nat)
      requires Valid() && id < |vehicle.packets| && id !in Ids()
      ensures numPackets < packetIds.Length
    {
      OneMissing(Ids(), |vehicle.packets|, id);
    }

    /** `add(packet_id)`: afterwards the packet is tracked; one tracked already is left alone. */
    method Add(id: nat) returns (ok: bool)
      requires Valid()
      modifies this`numPackets, packetIds, packetBuffers
      ensures Valid() && ok == (id < |vehicle.packets|)
      ensures !ok || id in old(Ids()) ==> Ids() == old(Ids()) && packetBuffers[..] == old(packetBuffers[..])
      ensures ok && id !in old(Ids()) ==>
        Ids() == old(Ids()) + [id] && packetBuffers[..] == old(packetBuffers[..])[id := Zeros(vehicle.packets[id].size)]
    {
      if id < |vehicle.packets| {
        for i := 0 to numPackets
          invariant forall k :: 0 <= k < i ==> packetIds[k] != id
          invariant Ids() == old(Ids()) && packetBuffers[..] == old(packetBuffers[..])
        {
          if packetIds[i] == id {
            assert Ids()[i] == id;
            return true;
          }
        }
        RoomForMore(id);
        packetIds[numPackets] := id;
        packetBuffers[id] := Zeros(vehicle.packets[id].size);
        numPackets := numPackets + 1;
        assert Ids() == old(Ids()) + [id];
        return true;
      }
      return false;
    }

    /** `add(measurement)`: every packet it lies in is tracked, none is dropped. */
    method AddMeasurement(m: Measurement) returns (ok: bool)
      requires Valid()
      modifies this`numPackets, packetIds, packetBuffers
      ensures Valid() && old(Ids()) <= Ids()
      ensures ok <==> forall k :: 0 <= k < |m.locations| ==> m.locations[k].packet < |vehicle.packets|
      ensures ok ==> forall k :: 0 <= k < |m.locations| ==> m.locations[k].packet in Ids()
    {
      for i := 0 to |m.locations|
        invariant Valid() && old(Ids()) <= Ids()
        invariant forall k :: 0 <= k < i ==> m.locations[k].packet in Ids() && m.locations[k].packet < |vehicle.packets|
      {
        ghost var was := Ids();
        ok := Add(m.locations[i].packet);
        if !ok {
          return false;
        }
        assert was <= Ids();
        assert forall id :: id in was ==> id in Ids();
      }
      return true;
    }

    /** `add_all`. */
    method AddAll() returns (ok: bool)
      requires Valid()
      modifies this`checkAll, this`numPackets, packetIds, packetBuffers
      ensures Valid() && ok && checkAll && old(Ids()) <= Ids()
      ensures forall id :: 0 <= id < |vehicle.packets| ==> id in Ids()
    {
      checkAll := true;
      for id := 0 to |vehicle.packets|
        invariant Valid() && checkAll && old(Ids()) <= Ids()
        invariant forall k :: 0 <= k < id ==> k in Ids()
      {
        ghost var was := Ids();
        var added := Add(id);
        assert was <= Ids();
        assert forall k :: k in was ==> k in Ids();
      }
      return true;
    }

    method RemoveAll()
      requires Valid()
      modifies this`checkAll, this`numPackets
      ensures Valid() && !checkAll && Ids() == []
    {
      checkAll := false;
      numPackets := 0;
    }

    /** The copy loop of `update`. */
    method CopyIn()
      requires Valid()
      modifies packetBuffers
      ensures packetBuffers[..] == CopyFlagged(old(packetBuffers[..]), Ids(), shm.updated[..], shm.shared.packets[..])
    {
      for i := 0 to numPackets
        invariant forall j :: 0 <= j < packetBuffers.Length ==>
          packetBuffers[j] == if j in Ids()[..i] && shm.updated[j] then shm.shared.packets[j] else old(packetBuffers[j])
      {
        var id := packetIds[i];
        assert Ids()[..i + 1] == Ids()[..i] + [id];
        if shm.updated[id] {
          packetBuffers[id] := shm.shared.packets[id];
        }
      }
      assert Ids()[..numPackets] == Ids();
    }

    /** `update`, if it does not have to wait: `NoOutcome` stands for going to sleep. */
    method Update() returns (r: Outcome)
      requires Valid() && shm.shared.Free()
      modifies packetBuffers, shm`lastNonce, shm`readLocked, shm.lastNonces, shm.updated
      modifies shm.shared`readers, shm.shared`resource
      ensures Valid() && Ids() == old(Ids())
      ensures shm.shared.Counts() == old(shm.shared.Counts())
      ensures r.Failed? <==> old(shm.readLocked)
      ensures !r.Success? ==> packetBuffers[..] == old(packetBuffers[..])
      ensures r.Success? ==> !shm.readLocked
      ensures r.Success? ==>
        shm.Seen() == if checkAll then RefreshAll(ClearFlags(old(shm.Seen())), shm.shared.nonce, shm.SharedNonces())
                      else RefreshListed(ClearFlags(old(shm.Seen())), Ids(), shm.shared.nonce, shm.SharedNonces())
      ensures r.Success? ==>
        packetBuffers[..] == CopyFlagged(old(packetBuffers[..]), Ids(), shm.Seen().updated, shm.shared.packets[..])
    {
      if checkAll {
        r := shm.ReadLockAll();
      } else {
        r := shm.ReadLockThese(packetIds[..numPackets]);
      }
      if !r.Success? {
        return r;
      }
      InAndOut(old(shm.shared.Counts()));
      CopyIn();
      var unlocked := shm.ReadUnlock(false);
    }

    /** All the places of the measurement lie in packets of the vehicle. */
    predicate Known(m: Measurement) {
      forall k :: 0 <= k < |m.locations| ==> m.locations[k].packet < |vehicle.packets|
    }

    /** `latest_data`, as the number of the place it chooses. */
    method LatestData(m: Measurement) returns (r: Option<nat>)
      requires Valid() && Known(m)
      ensures r == Latest(m, shm.lastNonce, shm.lastNonces[..])
      ensures r.Some? ==> r.value < |m.locations|
    {
      if |m.locations| <= 0 {
        return None;
      }
      ghost var ds := Distances(shm.lastNonce, NoncesOf(m, shm.lastNonces[..]));
      var best := INT_MAX;
      r := None;
      for i := 0 to |m.locations|
        invariant r == Nearest(ds, i) && best == Bound(ds, r)
      {
        DistanceOfPlace(m, shm.lastNonce, shm.lastNonces[..], i);
        var curr := shm.UpdateValue(m.locations[i].packet);
        if curr.value < best {
          best := curr.value;
          r := Some(i);
        }
      }
    }

    /** `updated(measurement)`. */
    method Updated(m: Measurement) returns (r: bool)
      requires Valid() && Known(m)
      ensures r <==> exists k :: 0 <= k < |m.locations| && shm.updated[m.locations[k].packet]
    {
      for i := 0 to |m.locations|
        invariant forall k :: 0 <= k < i ==> !shm.updated[m.locations[k].packet]
      {
        if shm.updated[m.locations[i].packet] {
          return true;
        }
      }
      return false;
    }

    method GetRaw(m: Measurement) returns (r: Option<seq<byte>>)
      requires Valid() && Readable(m, shm.lastNonces[..], packetBuffers[..])
      ensures r == Recency.GetRaw(m, shm.lastNonce, shm.lastNonces[..], packetBuffers[..])
    {
      var k := LatestData(m);
      if k.None? {
        return None;
      }
      var loc := m.locations[k.value];
      return Some(packetBuffers[loc.packet][loc.offset..loc.offset + m.size]);
    }

    method ReadUint(m: Measurement) returns (r: Option<nat>)
      requires Valid() && Readable(m, shm.lastNonces[..], packetBuffers[..])
      ensures r == GetUint(m, shm.lastNonce, shm.lastNonces[..], packetBuffers[..])
    {
      var data := GetRaw(m);
      if data.None? {
        return None;
      }
      var n := ToUnsigned(m, data.value);
      return if n.Some? then Some(n.value) else None;
    }

    method ReadInt(m: Measurement) returns (r: Option<int>)
      requires Valid() && Readable(m, shm.lastNonces[..], packetBuffers[..]) && m.size > 0
      ensures r == GetInt(m, shm.lastNonce, shm.lastNonces[..], packetBuffers[..])
    {
      var data := GetRaw(m);
      if data.None? {
        return None;
      }
      var n := ToSigned(m, data.value);
      return if n.Some? then Some(n.value) else None;
    }
  }
}
