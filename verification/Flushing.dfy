/** From the call that writes a measurement to the end of the flush after it, whatever other
    processes do in between. */
module Flushing {
  import opened Bytes
  import opened Layout
  import opened Convert
  import opened History
  import opened Caches
  import opened Protocol
  import opened Sessions
  import opened Ledger
  import opened Story

  // ---------------------------------------------------------------- the call that writes

  /** The place, in the declared byte order of the measurement, holds the number `x`. */
  predicate HoldsNumber(meas: Measurement, loc: Location, bufs: seq<seq<byte>>, x: nat) {
    && loc.packet < |bufs| && loc.offset + meas.size <= |bufs[loc.packet]|
    && Value(meas.endian, bufs[loc.packet][loc.offset..loc.offset + meas.size]) == x
  }

  /** Host bytes, put in the measurement's order, stand there for what they stand for in the host. */
  lemma ValueOfOrdered(meas: Measurement, data: seq<byte>)
    ensures Value(meas.endian, Ordered(meas, data)) == Little(data)
  {
    ValueInHostOrder(meas, Ordered(meas, data));
    ReversedTwice(data);
  }

  lemma {:induction false} WriteMarksEach(v: Vehicle, locs: seq<Location>, bytes: seq<byte>, d: Drafts, k: nat)
    requires Fits(v, locs, |bytes|, d) && k < |locs| && v.packets[locs[k].packet].isVirtual
    ensures WriteAt(v, locs, bytes, d).dirty[locs[k].packet]
  {
    if k < |locs| - 1 {
      WriteMarksEach(v, locs[..|locs| - 1], bytes, d, k);
    }
  }

  /** A call that writes the bytes of a number to a measurement puts that number, in the declared
      byte order, in every place of it in a virtual packet, and marks these packets. */
  lemma WritePutsNumber(v: Vehicle, m: Memory, p: Proc, i: nat, data: seq<byte>, k: nat)
    requires WellLaid(v) && ShapedMem(v, m) && Shaped1(v, p) && Allowed(v, m, p, WriteMeas(i, data))
    requires Stored(v, i, k) && Lockable(v, v.measurements[i].locations[k].packet)
    ensures var d := LocalStep(v, m, p, WriteMeas(i, data)).proc.drafts;
      var loc := v.measurements[i].locations[k];
      HoldsNumber(v.measurements[i], loc, d.buffers, Little(data)) && d.dirty[loc.packet]
  {
    var meas := v.measurements[i];
    LocationsFit(v, i, p.drafts);
    WriteShowsItself(v, i, Ordered(meas, data), p.drafts);
    WriteMarksEach(v, meas.locations, Ordered(meas, data), p.drafts, k);
    ValueOfOrdered(meas, data);
  }

  // ---------------------------------------------------------------- while the session is open

  /** What a process may do after it has written measurement `i` without writing it again or
      closing its session. */
  predicate Leaves(c: Choice, i: nat) {
    c.Tick? || c.FlushAll? || (c.WriteMeas? && c.m != i)
  }

  predicate AllLeave(run: seq<Event>, w: nat, i: nat) {
    forall k :: 0 <= k < |run| && run[k].pid == w ==> Leaves(run[k].choice, i)
  }

  /** The session is open and the last bytes it wrote to measurement `i` are `bytes`. */
  predicate Wrote(p: Proc, i: nat, bytes: seq<byte>) {
    HasAll(p.pc) && i in p.written && p.written[i] == bytes
  }

  lemma StepKeepsWrote(v: Vehicle, m: Memory, p: Proc, c: Choice, i: nat, bytes: seq<byte>)
    requires WellLaid(v) && ShapedMem(v, m) && Shaped1(v, p) && Allowed(v, m, p, c)
    requires Wrote(p, i, bytes) && Leaves(c, i)
    ensures Wrote(LocalStep(v, m, p, c).proc, i, bytes)
  {
  }

  lemma {:induction false} RunKeepsWrote(v: Vehicle, s: State, run: seq<Event>, w: nat, i: nat, bytes: seq<byte>)
    requires WellLaid(v) && Shaped(v, s) && Valid(v, s, run) && w < |s.procs|
    requires Wrote(s.procs[w], i, bytes) && AllLeave(run, w, i)
    ensures Wrote(Run(v, s, run).procs[w], i, bytes)
    decreases |run|
  {
    if run != [] {
      if run[0].pid == w {
        StepKeepsWrote(v, s.mem, s.procs[w], run[0].choice, i, bytes);
      }
      RunKeepsWrote(v, Next(v, s, run[0]), run[1..], w, i, bytes);
    }
  }

  // ---------------------------------------------------------------- the flush

  predicate NoMarkBelow(p: Proc, k: nat) {
    k <= |p.drafts.dirty| && forall j :: 0 <= j < k ==> !p.drafts.dirty[j]
  }

  /** A flush has come some way: the packets before the one it is at have no mark. */
  predicate Clearing(v: Vehicle, p: Proc) {
    match p.pc
    case Flush(k) => NoMarkBelow(p, k)
    case FlushDone(k) => NoMarkBelow(p, k)
    case W(_, job) => job.ret.ToFlush? && NoMarkBelow(p, job.packet)
    case Hold => NoMarkBelow(p, |v.packets|)
    case _ => false
  }

  /** The write of its packet is committed. */
  predicate Past(p: Proc, j: nat) {
    (p.pc.W? && p.pc.job.packet == j && (Leaving(p.pc.w) || (InWrite(p.pc) && !p.pc.w.Copy? && !p.pc.w.Bump?)))
    || p.pc == FlushDone(j)
  }

  /** Packet `j` still has its mark and is not past, or it was written since the log was `n` long. */
  ghost predicate MarkedOrWritten(p: Proc, log: seq<Commit>, n: nat, j: nat)
    requires j < |p.drafts.dirty|
  {
    (p.drafts.dirty[j] && !Past(p, j)) || WrittenSince(log, n, j)
  }

  lemma OneMoreWritten(log: seq<Commit>, c: Commit, n: nat, j: nat)
    requires n <= |log| && (WrittenSince(log, n, j) || c.packet == j)
    ensures WrittenSince(log + [c], n, j)
  {
    if c.packet == j {
      assert (log + [c])[|log|].packet == j;
    } else {
      var k :| n <= k < |log| && log[k].packet == j;
      assert (log + [c])[k].packet == j;
    }
  }

  lemma SessionKeepsClearing(v: Vehicle, m: Memory, p: Proc)
    requires ShapedMem(v, m) && Shaped1(v, p) && Ready(v, m, p) && Clearing(v, p) && !p.pc.W?
    ensures Clearing(v, SessionStep(v, m, p).proc)
  {
  }

  lemma WriteKeepsClearing(v: Vehicle, m: Memory, p: Proc)
    requires ShapedMem(v, m) && Shaped1(v, p) && Ready(v, m, p) && Clearing(v, p) && p.pc.W?
    ensures Clearing(v, WriteStep(v, m, p).proc)
  {
  }

  lemma SessionKeepsMarked(v: Vehicle, m: Memory, p: Proc, n: nat, j: nat)
    requires ShapedMem(v, m) && Shaped1(v, p) && Ready(v, m, p) && HasAll(p.pc) && InSession(p.pc) && j < |v.packets|
    requires MarkedOrWritten(p, m.log, n, j)
    ensures MarkedOrWritten(SessionStep(v, m, p).proc, m.log, n, j)
  {
  }

  lemma WriteKeepsMarked(v: Vehicle, m: Memory, p: Proc, n: nat, j: nat)
    requires ShapedMem(v, m) && Shaped1(v, p) && Ready(v, m, p) && HasAll(p.pc) && p.pc.W? && j < |v.packets|
    requires n <= |m.log| && MarkedOrWritten(p, m.log, n, j)
    ensures var l := WriteStep(v, m, p); MarkedOrWritten(l.proc, l.mem.log, n, j)
  {
    if p.pc.w.Bump? && (p.pc.job.packet == j || WrittenSince(m.log, n, j)) {
      OneMoreWritten(m.log, CommitOf(p, p.pc.job), n, j);
    }
  }

  lemma ChoiceKeepsMarked(v: Vehicle, m: Memory, p: Proc, c: Choice, n: nat, j: nat)
    requires WellLaid(v) && ShapedMem(v, m) && Shaped1(v, p) && Allowed(v, m, p, c) && j < |v.packets|
    requires HasAll(p.pc) && (c.FlushAll? || c.WriteMeas?) && MarkedOrWritten(p, m.log, n, j)
    ensures MarkedOrWritten(ChoiceStep(v, m, p, c).proc, m.log, n, j)
  {
    if c.WriteMeas? {
      LocationsFit(v, c.m, p.drafts);
      WriteMarks(v, v.measurements[c.m].locations, Ordered(v.measurements[c.m], c.data), p.drafts, p.pending, j);
    }
  }

  lemma StepKeepsMarked(v: Vehicle, m: Memory, p: Proc, c: Choice, i: nat, n: nat, j: nat)
    requires WellLaid(v) && ShapedMem(v, m) && Shaped1(v, p) && Allowed(v, m, p, c) && j < |v.packets|
    requires HasAll(p.pc) && Leaves(c, i) && n <= |m.log| && MarkedOrWritten(p, m.log, n, j)
    ensures var l := LocalStep(v, m, p, c); HasAll(l.proc.pc) && MarkedOrWritten(l.proc, l.mem.log, n, j)
  {
    if !c.Tick? {
      ChoiceKeepsMarked(v, m, p, c, n, j);
    } else if p.pc.W? {
      WriteKeepsMarked(v, m, p, n, j);
    } else {
      SessionKeepsMarked(v, m, p, n, j);
    }
  }

  lemma NextKeepsMarked(v: Vehicle, s: State, e: Event, w: nat, i: nat, n: nat, j: nat)
    requires WellLaid(v) && Shaped(v, s) && Enabled(v, s, e) && w < |s.procs| && (e.pid == w ==> Leaves(e.choice, i))
    requires HasAll(s.procs[w].pc) && j < |v.packets| && n <= |s.mem.log|
    requires MarkedOrWritten(s.procs[w], s.mem.log, n, j)
    ensures var t := Next(v, s, e);
      HasAll(t.procs[w].pc) && MarkedOrWritten(t.procs[w], t.mem.log, n, j) && n <= |t.mem.log|
  {
    if e.pid == w {
      StepKeepsMarked(v, s.mem, s.procs[w], e.choice, i, n, j);
    } else {
      var p := s.procs[e.pid];
      if e.choice.Tick? && p.pc.W? && p.pc.w.Bump? && WrittenSince(s.mem.log, n, j) {
        OneMoreWritten(s.mem.log, CommitOf(p, p.pc.job), n, j);
      }
    }
  }

  lemma {:induction false} RunKeepsMarked(v: Vehicle, s: State, run: seq<Event>, w: nat, i: nat, n: nat, j: nat)
    requires WellLaid(v) && Shaped(v, s) && Valid(v, s, run) && w < |s.procs| && AllLeave(run, w, i)
    requires HasAll(s.procs[w].pc) && j < |v.packets| && n <= |s.mem.log|
    requires MarkedOrWritten(s.procs[w], s.mem.log, n, j)
    ensures var t := Run(v, s, run); MarkedOrWritten(t.procs[w], t.mem.log, n, j)
    decreases |run|
  {
    if run != [] {
      NextKeepsMarked(v, s, run[0], w, i, n, j);
      RunKeepsMarked(v, Next(v, s, run[0]), run[1..], w, i, n, j);
    }
  }

  predicate OnlyTicks(run: seq<Event>, w: nat) {
    forall k :: 0 <= k < |run| && run[k].pid == w ==> run[k].choice.Tick?
  }

  lemma NextKeepsClearing(v: Vehicle, s: State, e: Event, w: nat)
    requires WellLaid(v) && Shaped(v, s) && Enabled(v, s, e) && w < |s.procs| && (e.pid == w ==> e.choice.Tick?)
    requires Clearing(v, s.procs[w])
    ensures Clearing(v, Next(v, s, e).procs[w])
  {
    if e.pid == w {
      if s.procs[w].pc.W? {
        WriteKeepsClearing(v, s.mem, s.procs[w]);
      } else {
        SessionKeepsClearing(v, s.mem, s.procs[w]);
      }
    }
  }

  lemma {:induction false} RunKeepsClearing(v: Vehicle, s: State, run: seq<Event>, w: nat)
    requires WellLaid(v) && Shaped(v, s) && Valid(v, s, run) && w < |s.procs| && OnlyTicks(run, w)
    requires Clearing(v, s.procs[w])
    ensures Clearing(v, Run(v, s, run).procs[w])
    decreases |run|
  {
    if run != [] {
      NextKeepsClearing(v, s, run[0], w);
      RunKeepsClearing(v, Next(v, s, run[0]), run[1..], w);
    }
  }

  // ---------------------------------------------------------------- a run from the write to the flush

  lemma TailOfParts(run: seq<Event>, n: nat)
    requires 0 < n <= |run|
    ensures run[..n][0] == run[0] && run[..n][1..] == run[1..][..n - 1] && run[1..][n - 1..] == run[n..]
  {
  }

  /** A run in two parts. */
  lemma {:induction false} SplitRun(v: Vehicle, s: State, run: seq<Event>, n: nat)
    requires WellLaid(v) && Shaped(v, s) && Valid(v, s, run) && n <= |run|
    ensures Valid(v, s, run[..n])
    ensures var t := Run(v, s, run[..n]); Valid(v, t, run[n..]) && Run(v, s, run) == Run(v, t, run[n..])
    decreases |run|
  {
    if n != 0 {
      TailOfParts(run, n);
      SplitRun(v, Next(v, s, run[0]), run[1..], n - 1);
    } else {
      assert run[..0] == [] && run[0..] == run;
    }
  }

  /** In this run process `w` writes measurement `i` by event number `a`, neither writes it again nor
      closes its session, and flushes with event number `b` without doing anything else after. */
  predicate WritesAndFlushes(run: seq<Event>, w: nat, i: nat, data: seq<byte>, a: nat, b: nat) {
    && a < b < |run| && run[a] == Event(w, WriteMeas(i, data)) && run[b] == Event(w, FlushAll)
    && (forall k :: a < k < b && run[k].pid == w ==> Leaves(run[k].choice, i))
    && (forall k :: b < k < |run| && run[k].pid == w ==> run[k].choice.Tick?)
  }

  /** Everything the session wrote has been flushed. */
  predicate Flushed(p: Proc) {
    p.pc.Hold? && forall j :: 0 <= j < |p.drafts.dirty| ==> !p.drafts.dirty[j]
  }

  /** A flush leaves no mark. */
  lemma FlushLeavesNoMark(v: Vehicle, s: State, run: seq<Event>, w: nat)
    requires WellLaid(v) && Shaped(v, s) && Valid(v, s, run) && w < |s.procs|
    requires run != [] && run[0] == Event(w, FlushAll) && OnlyTicks(run[1..], w)
    requires Run(v, s, run).procs[w].pc.Hold?
    ensures Flushed(Run(v, s, run).procs[w])
  {
    RunKeepsClearing(v, Next(v, s, run[0]), run[1..], w);
    assert Shaped1(v, Run(v, s, run).procs[w]);
  }

  lemma AfterTheWrite(run: seq<Event>, w: nat, i: nat, data: seq<byte>, b: nat)
    requires WritesAndFlushes(run, w, i, data, 0, b)
    ensures AllLeave(run[1..], w, i)
  {
    forall k | 0 <= k < |run[1..]| && run[1..][k].pid == w
      ensures Leaves(run[1..][k].choice, i)
    {
      assert run[1..][k] == run[k + 1];
    }
  }

  lemma WriteStays(v: Vehicle, s: State, run: seq<Event>, w: nat, i: nat, data: seq<byte>, b: nat)
    requires WellLaid(v) && Shaped(v, s) && Valid(v, s, run) && w < |s.procs|
    requires WritesAndFlushes(run, w, i, data, 0, b)
    ensures i < |v.measurements| && Wrote(Run(v, s, run).procs[w], i, Ordered(v.measurements[i], data))
  {
    AfterTheWrite(run, w, i, data, b);
    RunKeepsWrote(v, Next(v, s, run[0]), run[1..], w, i, Ordered(v.measurements[i], data));
  }

  lemma FromTheFlush(run: seq<Event>, w: nat, i: nat, data: seq<byte>, b: nat)
    requires WritesAndFlushes(run, w, i, data, 0, b)
    ensures run[b..][0] == Event(w, FlushAll) && OnlyTicks(run[b..][1..], w)
  {
    assert forall k :: 0 <= k < |run| - b - 1 ==> run[b..][1..][k] == run[b + 1 + k];
  }

  /** A run that begins with the write leaves nothing of it behind once the flush is over. */
  lemma WriteIsFlushed(v: Vehicle, s: State, run: seq<Event>, w: nat, i: nat, data: seq<byte>, b: nat)
    requires WellLaid(v) && Shaped(v, s) && Valid(v, s, run) && w < |s.procs|
    requires WritesAndFlushes(run, w, i, data, 0, b) && Run(v, s, run).procs[w].pc.Hold?
    ensures Flushed(Run(v, s, run).procs[w])
  {
    SplitRun(v, s, run, b);
    FromTheFlush(run, w, i, data, b);
    FlushLeavesNoMark(v, Run(v, s, run[..b]), run[b..], w);
  }

  /** Each virtual packet the measurement lies in has been written since. */
  lemma WriteReachesPackets(v: Vehicle, s: State, run: seq<Event>, w: nat, i: nat, data: seq<byte>, b: nat, k: nat)
    requires WellLaid(v) && Shaped(v, s) && Valid(v, s, run) && w < |s.procs|
    requires WritesAndFlushes(run, w, i, data, 0, b) && Run(v, s, run).procs[w].pc.Hold?
    requires Stored(v, i, k) && Lockable(v, v.measurements[i].locations[k].packet)
    ensures WrittenSince(Run(v, s, run).mem.log, |s.mem.log|, v.measurements[i].locations[k].packet)
  {
    var t, j := Next(v, s, run[0]), v.measurements[i].locations[k].packet;
    WriteIsFlushed(v, s, run, w, i, data, b);
    AfterTheWrite(run, w, i, data, b);
    WritePutsNumber(v, s.mem, s.procs[w], i, data, k);
    RunKeepsMarked(v, t, run[1..], w, i, |s.mem.log|, j);
    assert Shaped1(v, Run(v, s, run).procs[w]);
  }

  lemma FromIndex(run: seq<Event>, w: nat, i: nat, data: seq<byte>, a: nat, b: nat)
    requires WritesAndFlushes(run, w, i, data, a, b)
    ensures WritesAndFlushes(run[a..], w, i, data, 0, b - a)
  {
    assert forall k :: 0 <= k < |run| - a ==> run[a..][k] == run[a + k];
  }

  /** A run that writes and flushes has a part before the write and a part that begins with it. */
  lemma FromTheWrite(v: Vehicle, s: State, run: seq<Event>, w: nat, i: nat, data: seq<byte>, a: nat, b: nat)
      returns (t: State)
    requires WellLaid(v) && Shaped(v, s) && Valid(v, s, run) && WritesAndFlushes(run, w, i, data, a, b)
    ensures Valid(v, s, run[..a]) && t == Run(v, s, run[..a]) && Valid(v, t, run[a..])
    ensures Run(v, t, run[a..]) == Run(v, s, run) && WritesAndFlushes(run[a..], w, i, data, 0, b - a)
  {
    SplitRun(v, s, run, a);
    FromIndex(run, w, i, data, a, b);
    t := Run(v, s, run[..a]);
  }
}
