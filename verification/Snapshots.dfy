/** What the shared memory holds between writes, and what a viewer's private copies hold. */
module Snapshots {
  import opened Layout
  import opened History
  import opened Protocol
  import opened Exclusion

  // ---------------------------------------------------------------- the shared memory

  predicate Overwriting(pc: Pc, j: nat) {
    pc.W? && (pc.w.Copy? || pc.w.Bump?) && pc.job.packet == j
  }

  predicate Stamping(pc: Pc, j: nat) {
    pc.W? && pc.w.Stamp? && pc.job.packet == j
  }

  /** What a writer inside has done so far. */
  predicate Progress(m: Memory, p: Proc)
    requires p.pc.W? ==> p.pc.job.packet < |m.packets|
  {
    p.pc.W? ==>
      var j := p.pc.job;
      && (p.pc.w.Copy? ==> p.pc.w.done <= |j.data| == |m.packets[j.packet]|
                           && m.packets[j.packet][..p.pc.w.done] == j.data[..p.pc.w.done])
      && (p.pc.w.Bump? ==> m.packets[j.packet] == j.data)
      && (p.pc.w.Stamp? || p.pc.w.Wake? ==>
            m.log != [] && m.log[|m.log| - 1].packet == j.packet && m.log[|m.log| - 1].wakes == j.wakes)
  }

  /** Nonces and packets are those of the history, except for the packet one writer is at. */
  ghost predicate MemInv(v: Vehicle, s: State)
    requires Shaped(v, s)
  {
    && s.mem.nonce == |s.mem.log| + 1
    && (forall j :: 0 <= j < |v.packets| ==>
          s.mem.nonces[j] == PacketNonce(s.mem.log, j) || exists q :: 0 <= q < |s.procs| && Stamping(s.procs[q].pc, j))
    && (forall j :: 0 <= j < |v.packets| ==>
          s.mem.packets[j] == Content(s.mem.log, j, v.packets[j].size)
          || exists q :: 0 <= q < |s.procs| && Overwriting(s.procs[q].pc, j))
    && (forall q :: 0 <= q < |s.procs| ==> Progress(s.mem, s.procs[q]))
  }

  ghost predicate Settled(v: Vehicle, m: Memory)
    requires ShapedMem(v, m)
  {
    && m.nonce == |m.log| + 1
    && (forall j :: 0 <= j < |v.packets| ==> m.nonces[j] == PacketNonce(m.log, j))
    && (forall j :: 0 <= j < |v.packets| ==> m.packets[j] == Content(m.log, j, v.packets[j].size))
  }

  /** While someone reads, the memory is exactly what the history says. */
  lemma SettledForReaders(v: Vehicle, s: State, i: nat)
    requires Shaped(v, s) && LockInv(s) && MemInv(v, s) && i < |s.procs| && InRead(s.procs[i].pc)
    ensures Settled(v, s.mem)
  {
    forall q | 0 <= q < |s.procs|
      ensures !InWrite(s.procs[q].pc)
    {
      if InWrite(s.procs[q].pc) {
        Exclusive(s, q, i);
      }
    }
  }

  /** A step that leaves the data alone, and at most brings a writer to its first byte. */
  lemma OutsideKeepsMemInv(v: Vehicle, s: State, s': State, i: nat)
    requires Shaped(v, s) && Shaped(v, s') && |s'.procs| == |s.procs| && i < |s.procs| && MemInv(v, s)
    requires SameData(s.mem, s'.mem) && !InWrite(s.procs[i].pc)
    requires InWrite(s'.procs[i].pc) ==> s'.procs[i].pc.w == Copy(0)
    requires forall q :: 0 <= q < |s.procs| && q != i ==> Bystander(s.procs[q], s'.procs[q])
    ensures MemInv(v, s')
  {
    forall j | 0 <= j < |v.packets| && s'.mem.nonces[j] != PacketNonce(s'.mem.log, j)
      ensures exists q :: 0 <= q < |s'.procs| && Stamping(s'.procs[q].pc, j)
    {
      var q :| 0 <= q < |s.procs| && Stamping(s.procs[q].pc, j);
      assert s'.procs[q] == s.procs[q];
    }
    forall j | 0 <= j < |v.packets| && s'.mem.packets[j] != Content(s'.mem.log, j, v.packets[j].size)
      ensures exists q :: 0 <= q < |s'.procs| && Overwriting(s'.procs[q].pc, j)
    {
      var q :| 0 <= q < |s.procs| && Overwriting(s.procs[q].pc, j);
      assert s'.procs[q] == s.procs[q];
    }
  }

  /** The memory while one writer is inside: exact but for the packet of that writer. */
  ghost predicate SettledBut(v: Vehicle, m: Memory, pc: Pc)
    requires ShapedMem(v, m)
  {
    && m.nonce == |m.log| + 1
    && (forall j :: 0 <= j < |v.packets| && !Stamping(pc, j) ==> m.nonces[j] == PacketNonce(m.log, j))
    && (forall j :: 0 <= j < |v.packets| && !Overwriting(pc, j) ==>
          m.packets[j] == Content(m.log, j, v.packets[j].size))
  }

  /** The steps of a writer inside, on the memory alone. */
  lemma HoldWriteProgress(v: Vehicle, m: Memory, p: Proc)
    requires ShapedMem(v, m) && Shaped1(v, p) && Ready(v, m, p)
    requires InWrite(p.pc)
    requires SettledBut(v, m, p.pc) && Progress(m, p)
    ensures var l := HoldWrite(v, m, p); SettledBut(v, l.mem, l.proc.pc) && Progress(l.mem, l.proc)
  {
    var j := p.pc.job;
    match p.pc.w
    case Copy(done) =>
      if done == |j.data| {
        assert m.packets[j.packet][..done] == m.packets[j.packet] && j.data[..done] == j.data;
      } else {
        assert j.data[..done + 1] == j.data[..done] + [j.data[done]];
      }
    case Bump =>
      var c := CommitOf(p, j);
      forall k | 0 <= k < |v.packets| {
        AfterCommit(m.log, c, k, v.packets[k].size);
      }
    case Stamp => AfterLast(m.log, j.packet);
    case Wake =>
    case GiveResource =>
  }

  lemma AfterLast(log: seq<Commit>, packet: nat)
    requires log != [] && log[|log| - 1].packet == packet
    ensures PacketNonce(log, packet) == |log| + 1
  {
  }

  /** `i` is the only process inside a write. */
  ghost predicate Alone(s: State, i: nat) {
    i < |s.procs| && forall q :: 0 <= q < |s.procs| && q != i ==> !InWrite(s.procs[q].pc)
  }

  lemma AloneSettled(v: Vehicle, s: State, i: nat)
    requires Shaped(v, s) && Alone(s, i)
    ensures MemInv(v, s) <==> SettledBut(v, s.mem, s.procs[i].pc) && Progress(s.mem, s.procs[i])
  {
  }

  lemma InsideKeepsMemInv(v: Vehicle, s: State, s': State, i: nat)
    requires Shaped(v, s) && Shaped(v, s') && |s'.procs| == |s.procs| && i < |s.procs|
    requires LockInv(s) && MemInv(v, s) && InWrite(s.procs[i].pc) && Ready(v, s.mem, s.procs[i])
    requires HoldWrite(v, s.mem, s.procs[i]) == Local(s'.mem, s'.procs[i])
    requires forall q :: 0 <= q < |s.procs| && q != i ==> Bystander(s.procs[q], s'.procs[q])
    ensures MemInv(v, s')
  {
    forall q | 0 <= q < |s.procs| && q != i
      ensures !InWrite(s.procs[q].pc)
    {
      Exclusive(s, i, q);
    }
    AloneSettled(v, s, i);
    HoldWriteProgress(v, s.mem, s.procs[i]);
    AloneSettled(v, s', i);
  }

  lemma NextKeepsMemInv(v: Vehicle, s: State, e: Event)
    requires WellLaid(v) && Shaped(v, s) && Enabled(v, s, e) && LockInv(s) && MemInv(v, s)
    ensures MemInv(v, Next(v, s, e))
  {
    if e.choice.Tick? && InWrite(s.procs[e.pid].pc) {
      InsideKeepsMemInv(v, s, Next(v, s, e), e.pid);
    } else {
      OutsideKeepsMemInv(v, s, Next(v, s, e), e.pid);
    }
  }
}
