/** Which copy of a measurement is the newest one, told from 32-bit nonces that wrap around. */
module Recency {
  import opened Wrappers
  import opened Bytes
  import opened Layout
  import opened Convert

  /** `last - nonce` in `uint32_t` arithmetic. */
  function Distance(last: int, nonce: int): uint32 {
    (last - nonce) % U32
  }

  /** The search of `latest_data`: the first of the smallest distances below `INT_MAX`. */
  function Nearest(ds: seq<uint32>, n: nat): (r: Option<nat>)
    requires n <= |ds|
    ensures r.None? <==> forall k :: 0 <= k < n ==> ds[k] >= INT_MAX
    ensures r.Some? ==> r.value < n && ds[r.value] < INT_MAX
    ensures r.Some? ==> forall k :: 0 <= k < n ==> ds[r.value] <= ds[k] && (k < r.value ==> ds[r.value] < ds[k])
  {
    if n == 0 then None
    else
      var best := Nearest(ds, n - 1);
      if ds[n - 1] < Bound(ds, best) then Some(n - 1) else best
  }

  /** The distances a 32-bit machine computes from counters that really go on without end. */
  function Distances(last: nat, counts: seq<nat>): (ds: seq<uint32>)
    ensures |ds| == |counts|
  {
    seq(|counts|, k requires 0 <= k < |counts| => Distance(last % U32, counts[k] % U32))
  }

  lemma DistanceAcrossWrap(last: nat, count: nat)
    requires count <= last < count + U32
    ensures Distance(last % U32, count % U32) == last - count
  {
  }

  predicate IsNewest(counts: seq<nat>, r: Option<nat>) {
    r.Some? && r.value < |counts| && forall k :: 0 <= k < |counts| ==> counts[k] <= counts[r.value]
  }

  /** Among copies less than 2^32 behind, across wrap-around of the counter, the search gives a
      newest one exactly when some copy is less than `INT_MAX` behind. */
  lemma NearestIsNewestExactlyWhen(last: nat, counts: seq<nat>)
    requires forall k :: 0 <= k < |counts| ==> counts[k] <= last < counts[k] + U32
    ensures IsNewest(counts, Nearest(Distances(last, counts), |counts|))
       <==> exists k :: 0 <= k < |counts| && last < counts[k] + INT_MAX
  {
    forall k | 0 <= k < |counts|
      ensures Distances(last, counts)[k] == last - counts[k]
    {
      DistanceAcrossWrap(last, counts[k]);
    }
    var r := Nearest(Distances(last, counts), |counts|);
    if r.Some? {
      assert last < counts[r.value] + INT_MAX;
    }
  }

  /** Whatever the others are, one copy less than `INT_MAX` behind is enough to find some copy. */
  lemma NearestFinds(last: nat, counts: seq<nat>, k: nat)
    requires k < |counts| && counts[k] <= last < counts[k] + INT_MAX
    ensures Nearest(Distances(last, counts), |counts|).Some?
  {
    DistanceAcrossWrap(last, counts[k]);
    assert Distances(last, counts)[k] < INT_MAX;
  }

  /** The bound of 2^32 is where distances stop being told apart: of two copies written 2^32 and
      one writes ago the older one looks newest. */
  lemma WrappedDistanceMisleads()
    ensures !IsNewest([1, U32], Nearest(Distances(U32 + 1, [1, U32]), 2))
  {
    assert Nearest(Distances(U32 + 1, [1, U32]), 2) == Some(0);
  }

  /** The nonces of the packets a measurement lies in. */
  function NoncesOf(m: Measurement, lastNonces: seq<nat>): (ns: seq<nat>)
    requires forall k :: 0 <= k < |m.locations| ==> m.locations[k].packet < |lastNonces|
    ensures |ns| == |m.locations|
    ensures forall k :: 0 <= k < |ns| ==> ns[k] == lastNonces[m.locations[k].packet]
  {
    seq(|m.locations|, k requires 0 <= k < |m.locations| => lastNonces[m.locations[k].packet])
  }

  /** `latest_data`: the place whose packet was written last. `None` stands for its failure
      and for the case in which it goes on with no place at all. */
  function Latest(m: Measurement, last: nat, lastNonces: seq<nat>): (r: Option<nat>)
    requires forall k :: 0 <= k < |m.locations| ==> m.locations[k].packet < |lastNonces|
    ensures r.Some? ==> r.value < |m.locations|
  {
    Nearest(Distances(last, NoncesOf(m, lastNonces)), |m.locations|)
  }

  /** What a distance has to be below to replace the best place so far. */
  function Bound(ds: seq<uint32>, best: Option<nat>): int
    requires best.Some? ==> best.value < |ds|
  {
    if best.None? then INT_MAX else ds[best.value]
  }

  lemma DistanceOfPlace(m: Measurement, last: uint32, lastNonces: seq<uint32>, k: nat)
    requires forall i :: 0 <= i < |m.locations| ==> m.locations[i].packet < |lastNonces|
    requires k < |m.locations|
    ensures Distances(last, NoncesOf(m, lastNonces))[k] == Distance(last, lastNonces[m.locations[k].packet])
  {
  }

  /** The bytes of a place. */
  function Slice(m: Measurement, loc: Location, buffers: seq<seq<byte>>): (s: seq<byte>)
    requires loc.packet < |buffers| && loc.offset + m.size <= |buffers[loc.packet]|
    ensures |s| == m.size
  {
    buffers[loc.packet][loc.offset..loc.offset + m.size]
  }

  predicate Readable(m: Measurement, lastNonces: seq<nat>, buffers: seq<seq<byte>>) {
    forall k :: 0 <= k < |m.locations| ==>
      && m.locations[k].packet < |lastNonces| && m.locations[k].packet < |buffers|
      && m.locations[k].offset + m.size <= |buffers[m.locations[k].packet]|
  }

  /** `get_raw`. */
  function GetRaw(m: Measurement, last: nat, lastNonces: seq<nat>, buffers: seq<seq<byte>>): (r: Option<seq<byte>>)
    requires Readable(m, lastNonces, buffers)
    ensures r.Some? ==> |r.value| == m.size
  {
    match Latest(m, last, lastNonces)
    case None => None
    case Some(k) => Some(Slice(m, m.locations[k], buffers))
  }

  /** `get_uint`. */
  function GetUint(m: Measurement, last: nat, lastNonces: seq<nat>, buffers: seq<seq<byte>>): Option<nat>
    requires Readable(m, lastNonces, buffers)
  {
    match GetRaw(m, last, lastNonces, buffers)
    case None => None
    case Some(s) => if ReadsUnsigned(m) then Some(Value(m.endian, s)) else None
  }

  /** `get_int`. */
  function GetInt(m: Measurement, last: nat, lastNonces: seq<nat>, buffers: seq<seq<byte>>): Option<int>
    requires Readable(m, lastNonces, buffers)
  {
    match GetRaw(m, last, lastNonces, buffers)
    case None => None
    case Some(s) => if ReadsSigned(m) then Some(TwosComplement(Value(m.endian, s), m.size)) else None
  }
}
