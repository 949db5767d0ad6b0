/** What a writer's cache stands for, and why no committed edit is ever lost. */
module Ledger {
  import opened Bytes
  import opened Layout
  import opened History
  import opened Caches
  import opened Protocol
  import opened Sessions

  // ---------------------------------------------------------------- edits and cached bytes

  lemma PatchOneMore(buf: seq<byte>, es: seq<Edit>, e: Edit)
    ensures PatchAll(buf, es + [e]) == Patch(PatchAll(buf, es), e)
  {
  }

  /** Whether a cached packet is `base` with the pending edits of the session applied. */
  ghost predicate Caught(base: seq<byte>, es: seq<Edit>, cached: seq<byte>) {
    cached == PatchAll(base, es)
  }

  /** Writing a measurement changes the cache and the pending edits alike. */
  lemma {:induction false} WriteRecordsEdits(v: Vehicle, locs: seq<Location>, bytes: seq<byte>, d: Drafts,
                                             edits: seq<seq<Edit>>, base: seq<byte>, j: nat)
    requires Fits(v, locs, |bytes|, d) && |edits| == |v.packets| && j < |v.packets|
    requires d.buffers[j] == PatchAll(base, edits[j])
    ensures WriteAt(v, locs, bytes, d).buffers[j] == PatchAll(base, RecordAt(v, locs, bytes, edits)[j])
  {
    if locs != [] {
      var front, last := locs[..|locs| - 1], locs[|locs| - 1];
      WriteRecordsEdits(v, front, bytes, d, edits, base, j);
      if last.packet == j && v.packets[j].isVirtual {
        PatchOneMore(base, RecordAt(v, front, bytes, edits)[j], Edit(last.offset, bytes));
      }
    }
  }

  /** A packet with a new pending edit is marked, and only virtual packets are. */
  lemma {:induction false} WriteMarks(v: Vehicle, locs: seq<Location>, bytes: seq<byte>, d: Drafts,
                                      edits: seq<seq<Edit>>, j: nat)
    requires Fits(v, locs, |bytes|, d) && |edits| == |v.packets| && j < |v.packets|
    ensures var d', es' := WriteAt(v, locs, bytes, d), RecordAt(v, locs, bytes, edits);
      && (d.dirty[j] ==> d'.dirty[j])
      && (es'[j] != edits[j] ==> d'.dirty[j])
      && (d'.dirty[j] ==> d.dirty[j] || exists k :: 0 <= k < |locs| && locs[k].packet == j && v.packets[j].isVirtual)
  {
    if locs != [] {
      var front := locs[..|locs| - 1];
      WriteMarks(v, front, bytes, d, edits, j);
      assert forall k :: 0 <= k < |front| ==> front[k] == locs[k];
      assert locs[|locs| - 1].packet == j
             || WriteAt(v, locs, bytes, d).dirty[j] == WriteAt(v, front, bytes, d).dirty[j];
    }
  }

  // ---------------------------------------------------------------- one session

  /** A write that has not committed yet. */
  predicate Uncommitted(w: WStage) {
    Entering(w) || w.Copy? || w.Bump?
  }

  /** Writes of virtual packets are flushes of the session that holds the packet; other
      writes go to packets that are never locked. */
  predicate JobOk(v: Vehicle, p: Proc)
    requires Shaped1(v, p)
  {
    p.pc.W? ==>
      var j := p.pc.job;
      if j.ret.ToFlush? then
        && Lockable(v, j.packet) && j.wakes && j.data == p.drafts.buffers[j.packet]
        && (Uncommitted(p.pc.w) || p.pending[j.packet] == [])
      else !v.packets[j.packet].isVirtual
  }

  /** The cache of every packet a session holds is the committed packet with the pending
      edits applied; a packet not marked for flushing has none. */
  ghost predicate CacheOk(v: Vehicle, log: seq<Commit>, p: Proc)
    requires Shaped1(v, p)
  {
    && (forall j :: 0 <= j < |v.packets| && Loaded(v, p.pc, j) ==>
          Caught(Content(log, j, v.packets[j].size), p.pending[j], p.drafts.buffers[j]))
    && (forall j :: 0 <= j < |v.packets| && Loaded(v, p.pc, j) && !p.drafts.dirty[j] ==> p.pending[j] == [])
    && (forall j :: 0 <= j < |v.packets| && p.drafts.dirty[j] ==> Lockable(v, j))
    && (p.pc.FlushDone? ==> Lockable(v, p.pc.k) && p.pending[p.pc.k] == [])
  }

  ghost predicate SessionOk(v: Vehicle, log: seq<Commit>, p: Proc)
    requires Shaped1(v, p)
  {
    JobOk(v, p) && CacheOk(v, log, p)
  }

  /** A commit of a packet the process does not hold does not concern its session. */
  lemma LogGrowsKeepsSessionOk(v: Vehicle, log: seq<Commit>, c: Commit, p: Proc)
    requires Shaped1(v, p) && SessionOk(v, log, p) && !Holds(v, p.pc, c.packet)
    ensures SessionOk(v, log + [c], p)
  {
  }

  /** A write in progress, up to its end. */
  lemma WritingKeepsSessionOk(v: Vehicle, log: seq<Commit>, p: Proc, p': Proc)
    requires Shaped1(v, p) && Shaped1(v, p') && SessionOk(v, log, p)
    requires WriteMoves(p.pc, p'.pc) && p' == p.(pc := p'.pc) && !p.pc.w.Bump?
    requires Uncommitted(p.pc.w) <==> p'.pc.W? && Uncommitted(p'.pc.w)
    ensures SessionOk(v, log, p')
  {
  }

  /** The commit of a session: its pending edits of the packet become the committed ones. */
  lemma CommitKeepsSessionOk(v: Vehicle, m: Memory, p: Proc)
    requires ShapedMem(v, m) && Shaped1(v, p) && Ready(v, m, p) && p.pc.W? && p.pc.w.Bump?
    requires SessionOk(v, m.log, p)
    ensures var l := HoldWrite(v, m, p); SessionOk(v, l.mem.log, l.proc)
  {
  }

  lemma WriteStepKeepsSessionOk(v: Vehicle, m: Memory, p: Proc)
    requires ShapedMem(v, m) && Shaped1(v, p) && Ready(v, m, p) && p.pc.W?
    requires SessionOk(v, m.log, p)
    ensures var l := WriteStep(v, m, p); SessionOk(v, l.mem.log, l.proc)
  {
    if p.pc.w.Bump? {
      CommitKeepsSessionOk(v, m, p);
    } else {
      WritingKeepsSessionOk(v, m.log, p, WriteStep(v, m, p).proc);
    }
  }

  /** Taking and loading packets. What is loaded is the committed packet. */
  lemma LockingKeepsSessionOk(v: Vehicle, m: Memory, p: Proc)
    requires ShapedMem(v, m) && Shaped1(v, p) && Ready(v, m, p) && (p.pc.LockTake? || p.pc.LockLoad?)
    requires SessionOk(v, m.log, p)
    requires p.pc.LockLoad? ==> m.packets[p.pc.k] == Content(m.log, p.pc.k, v.packets[p.pc.k].size)
    ensures SessionOk(v, m.log, SessionStep(v, m, p).proc)
  {
  }

  /** Flushing and giving back packets. */
  lemma FlushingKeepsSessionOk(v: Vehicle, m: Memory, p: Proc)
    requires ShapedMem(v, m) && Shaped1(v, p) && Ready(v, m, p) && (p.pc.Flush? || p.pc.FlushDone? || p.pc.Unlock?)
    requires SessionOk(v, m.log, p)
    ensures SessionOk(v, m.log, SessionStep(v, m, p).proc)
  {
  }

  lemma WriteMeasKeepsSessionOk(v: Vehicle, m: Memory, p: Proc, c: Choice)
    requires WellLaid(v) && ShapedMem(v, m) && Shaped1(v, p) && Allowed(v, m, p, c) && c.WriteMeas?
    requires SessionOk(v, m.log, p)
    ensures SessionOk(v, m.log, ChoiceStep(v, m, p, c).proc)
  {
    var meas := v.measurements[c.m];
    var bytes := Ordered(meas, c.data);
    LocationsFit(v, c.m, p.drafts);
    forall j | 0 <= j < |v.packets|
      ensures var d', es' := WriteAt(v, meas.locations, bytes, p.drafts), RecordAt(v, meas.locations, bytes, p.pending);
        && (Loaded(v, p.pc, j) ==> Caught(Content(m.log, j, v.packets[j].size), es'[j], d'.buffers[j]))
        && (Loaded(v, p.pc, j) && !d'.dirty[j] ==> es'[j] == [])
        && (d'.dirty[j] ==> Lockable(v, j))
    {
      if Loaded(v, p.pc, j) {
        WriteRecordsEdits(v, meas.locations, bytes, p.drafts, p.pending, Content(m.log, j, v.packets[j].size), j);
      }
      WriteMarks(v, meas.locations, bytes, p.drafts, p.pending, j);
      if k :| 0 <= k < |meas.locations| && meas.locations[k].packet == j {
        assert Stored(v, c.m, k);
      }
    }
  }

  lemma ChoiceKeepsSessionOk(v: Vehicle, m: Memory, p: Proc, c: Choice)
    requires WellLaid(v) && ShapedMem(v, m) && Shaped1(v, p) && Allowed(v, m, p, c) && !c.Tick?
    requires SessionOk(v, m.log, p)
    ensures SessionOk(v, m.log, ChoiceStep(v, m, p, c).proc)
  {
    if c.WriteMeas? {
      WriteMeasKeepsSessionOk(v, m, p, c);
    }
  }

  lemma SessionStepKeepsSessionOk(v: Vehicle, m: Memory, p: Proc)
    requires ShapedMem(v, m) && Shaped1(v, p) && Ready(v, m, p) && InSession(p.pc) && SessionOk(v, m.log, p)
    requires p.pc.LockLoad? ==> m.packets[p.pc.k] == Content(m.log, p.pc.k, v.packets[p.pc.k].size)
    ensures SessionOk(v, m.log, SessionStep(v, m, p).proc)
  {
    if p.pc.LockTake? || p.pc.LockLoad? {
      LockingKeepsSessionOk(v, m, p);
    } else {
      FlushingKeepsSessionOk(v, m, p);
    }
  }

  lemma OutsideIsSessionOk(v: Vehicle, log: seq<Commit>, p: Proc, p': Proc)
    requires Shaped1(v, p) && Shaped1(v, p') && SessionOk(v, log, p)
    requires HoldsNone(p.pc) && HoldsNone(p'.pc) && !p'.pc.W? && p'.drafts == p.drafts
    ensures SessionOk(v, log, p')
  {
  }

  lemma ReadingKeepsSessionOk(v: Vehicle, m: Memory, p: Proc)
    requires WellLaid(v) && ShapedMem(v, m) && Shaped1(v, p) && Ready(v, m, p) && !p.pc.W? && !InSession(p.pc)
    requires SessionOk(v, m.log, p)
    ensures var l := LocalStep(v, m, p, Tick); SessionOk(v, l.mem.log, l.proc)
  {
    var l := LocalStep(v, m, p, Tick);
    ReaderHoldsNone(v, m, p);
    assert l.proc.drafts == p.drafts;
    OutsideIsSessionOk(v, m.log, p, l.proc);
  }

  lemma StepKeepsSessionOk(v: Vehicle, m: Memory, p: Proc, c: Choice)
    requires WellLaid(v) && ShapedMem(v, m) && Shaped1(v, p) && Allowed(v, m, p, c)
    requires SessionOk(v, m.log, p)
    requires p.pc.LockLoad? ==> m.packets[p.pc.k] == Content(m.log, p.pc.k, v.packets[p.pc.k].size)
    ensures var l := LocalStep(v, m, p, c); SessionOk(v, l.mem.log, l.proc)
  {
    if !c.Tick? {
      ChoiceKeepsSessionOk(v, m, p, c);
    } else if InSession(p.pc) {
      SessionStepKeepsSessionOk(v, m, p);
    } else if p.pc.W? {
      WriteStepKeepsSessionOk(v, m, p);
    } else {
      ReadingKeepsSessionOk(v, m, p);
    }
  }
}
