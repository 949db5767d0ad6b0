/** The private copies a process keeps of shared telemetry, as values: what `TelemetryShm`
    remembers of the nonces and what `TelemetryWriter` has not yet flushed. */
module Caches {
  import opened Bytes
  import opened Layout
  import opened History

  /** The nonces a process saw last, and the packets its last read lock found changed. */
  datatype View = View(lastNonce: nat, lastNonces: seq<nat>, updated: seq<bool>)

  predicate Sized(v: View, n: nat) {
    |v.lastNonces| == n && |v.updated| == n
  }

  /** The check made by the all-packets `read_lock`. */
  function RefreshAll(v: View, nonce: nat, nonces: seq<nat>): (r: View)
    requires Sized(v, |nonces|)
    ensures Sized(r, |nonces|)
  {
    View(nonce, nonces, seq(|nonces|, i requires 0 <= i < |nonces| =>
      v.updated[i] || v.lastNonces[i] != nonces[i]))
  }

  /** The check made by the `read_lock` that is given a packet list. */
  function RefreshListed(v: View, ids: seq<nat>, nonce: nat, nonces: seq<nat>): (r: View)
    requires Sized(v, |nonces|)
    ensures Sized(r, |nonces|)
  {
    View(nonce,
         seq(|nonces|, i requires 0 <= i < |nonces| => if i in ids then nonces[i] else v.lastNonces[i]),
         seq(|nonces|, i requires 0 <= i < |nonces| =>
           v.updated[i] || (i in ids && v.lastNonces[i] != nonces[i])))
  }

  /** Whether any listed packet has a nonce other than the one seen last. */
  predicate AnyChanged(v: View, ids: seq<nat>, nonces: seq<nat>)
    requires Sized(v, |nonces|)
  {
    exists k :: 0 <= k < |ids| && ids[k] < |nonces| && v.lastNonces[ids[k]] != nonces[ids[k]]
  }

  function ClearFlags(v: View): (r: View)
    ensures |r.updated| == |v.updated| && forall i :: 0 <= i < |r.updated| ==> !r.updated[i]
  {
    v.(updated := seq(|v.updated|, _ => false))
  }

  /** `TelemetryWriter`'s buffers and the flags that say which of them to flush. */
  datatype Drafts = Drafts(buffers: seq<seq<byte>>, dirty: seq<bool>)

  predicate Fits(v: Vehicle, locs: seq<Location>, size: nat, d: Drafts) {
    && |d.buffers| == |d.dirty| == |v.packets|
    && forall k :: 0 <= k < |locs| ==>
         locs[k].packet < |v.packets|
         && (v.packets[locs[k].packet].isVirtual ==> locs[k].offset + size <= |d.buffers[locs[k].packet]|)
  }

  /** `bytes` copied to every one of `locs` that lies in a virtual packet, in list order. */
  function WriteAt(v: Vehicle, locs: seq<Location>, bytes: seq<byte>, d: Drafts): (r: Drafts)
    requires Fits(v, locs, |bytes|, d)
    ensures |r.buffers| == |d.buffers| && |r.dirty| == |d.dirty|
    ensures forall i :: 0 <= i < |d.buffers| ==> |r.buffers[i]| == |d.buffers[i]|
  {
    if locs == [] then d
    else
      var last := locs[|locs| - 1];
      var e := WriteAt(v, locs[..|locs| - 1], bytes, d);
      if v.packets[last.packet].isVirtual then
        Drafts(e.buffers[last.packet := Blit(e.buffers[last.packet], last.offset, bytes)],
               e.dirty[last.packet := true])
      else e
  }

  /** The same copies, recorded as edits of each packet. */
  function RecordAt(v: Vehicle, locs: seq<Location>, bytes: seq<byte>, edits: seq<seq<Edit>>): (r: seq<seq<Edit>>)
    requires |edits| == |v.packets|
    requires forall k :: 0 <= k < |locs| ==> locs[k].packet < |v.packets|
    ensures |r| == |edits|
  {
    if locs == [] then edits
    else
      var last := locs[|locs| - 1];
      var e := RecordAt(v, locs[..|locs| - 1], bytes, edits);
      if v.packets[last.packet].isVirtual then
        e[last.packet := e[last.packet] + [Edit(last.offset, bytes)]]
      else e
  }
}
