/** The history of committed packet writes, and what each packet holds after it. */
module History {
  import opened Bytes

  /** One copy of bytes into a cached packet. */
  datatype Edit = Edit(offset: nat, bytes: seq<byte>)

  /** One write of a whole packet to shared memory. `edits` and `ticket` say which
      writer session it belongs to and which changes of that session it carries. */
  datatype Commit = Commit(packet: nat, data: seq<byte>, wakes: bool, edits: seq<Edit>, ticket: nat)

  function Patch(buf: seq<byte>, e: Edit): (r: seq<byte>)
    ensures |r| == |buf|
  {
    if e.offset + |e.bytes| <= |buf| then Blit(buf, e.offset, e.bytes) else buf
  }

  function PatchAll(buf: seq<byte>, es: seq<Edit>): (r: seq<byte>)
    ensures |r| == |buf|
  {
    if es == [] then buf else Patch(PatchAll(buf, es[..|es| - 1]), es[|es| - 1])
  }

  /** The nonce of a packet after the writes in `log`: one more than the count of
      writes up to its last one, and 1 before any. */
  function PacketNonce(log: seq<Commit>, packet: nat): (n: nat)
    ensures 1 <= n <= |log| + 1
  {
    if log == [] then 1
    else if log[|log| - 1].packet == packet then |log| + 1
    else PacketNonce(log[..|log| - 1], packet)
  }

  /** The bytes of a packet after the writes in `log`. */
  function Content(log: seq<Commit>, packet: nat, size: nat): seq<byte> {
    if log == [] then Zeros(size)
    else if log[|log| - 1].packet == packet then log[|log| - 1].data
    else Content(log[..|log| - 1], packet, size)
  }

  /** The last write of a packet, if there was one, makes a wake call. */
  predicate LastWakes(log: seq<Commit>, packet: nat) {
    var n := PacketNonce(log, packet);
    n >= 2 && log[n - 2].wakes
  }

  /** The nonce of a packet says which write was its last. */
  lemma {:induction false} NonceOfLastWrite(log: seq<Commit>, packet: nat, k: nat)
    requires k < |log| && log[k].packet == packet
    ensures k + 2 <= PacketNonce(log, packet)
    ensures log[PacketNonce(log, packet) - 2].packet == packet
  {
    if log[|log| - 1].packet != packet {
      NonceOfLastWrite(log[..|log| - 1], packet, k);
    }
  }

  ghost predicate WrittenSince(log: seq<Commit>, from: nat, packet: nat) {
    exists k :: from <= k < |log| && log[k].packet == packet
  }

  /** Comparing the nonce of a packet with an older one tells whether it was written between. */
  lemma {:induction false} NonceTellsWrites(log: seq<Commit>, from: nat, packet: nat)
    requires from <= |log|
    ensures PacketNonce(log[..from], packet) != PacketNonce(log, packet) <==> WrittenSince(log, from, packet)
  {
    if from == |log| {
      assert log[..from] == log;
    } else {
      var front := log[..|log| - 1];
      NonceTellsWrites(front, from, packet);
      assert front[..from] == log[..from];
      if log[|log| - 1].packet != packet && WrittenSince(log, from, packet) {
        var k :| from <= k < |log| && log[k].packet == packet;
        assert front[k].packet == packet;
      }
      if WrittenSince(front, from, packet) {
        var k :| from <= k < |front| && front[k].packet == packet;
        assert log[k].packet == packet;
      }
    }
  }

  /** A packet that was not written keeps its bytes. */
  lemma {:induction false} UnwrittenKeepsContent(log: seq<Commit>, from: nat, packet: nat, size: nat)
    requires from <= |log| && !WrittenSince(log, from, packet)
    ensures Content(log[..from], packet, size) == Content(log, packet, size)
  {
    if from == |log| {
      assert log[..from] == log;
    } else {
      var front := log[..|log| - 1];
      assert log[|log| - 1].packet != packet;
      assert forall k :: from <= k < |front| ==> front[k] == log[k];
      UnwrittenKeepsContent(front, from, packet, size);
      assert front[..from] == log[..from];
    }
  }

  /** One more write leaves every earlier prefix as it was. */
  lemma PrefixOfLonger(log: seq<Commit>, c: Commit, from: nat)
    requires from <= |log|
    ensures (log + [c])[..from] == log[..from]
  {
  }

  lemma AfterCommit(log: seq<Commit>, c: Commit, packet: nat, size: nat)
    ensures PacketNonce(log + [c], packet) == if c.packet == packet then |log| + 2 else PacketNonce(log, packet)
    ensures Content(log + [c], packet, size) == if c.packet == packet then c.data else Content(log, packet, size)
  {
  }
}
