/** What a writer session has written, measurement by measurement: the cache shows it, and no
    other measurement is touched. */
module Story {
  import opened Bytes
  import opened Layout
  import opened History
  import opened Caches
  import opened Protocol
  import opened Sessions
  import opened Telemetry

  /** Every copy of measurement `m` in a virtual packet is `bytes`. */
  predicate Shows(v: Vehicle, bufs: seq<seq<byte>>, m: nat, bytes: seq<byte>)
    requires m < |v.measurements| && |bufs| == |v.packets|
  {
    var locs := v.measurements[m].locations;
    forall k :: 0 <= k < |locs| && Lockable(v, locs[k].packet) ==> At(bufs[locs[k].packet], locs[k].offset, bytes)
  }

  predicate At(buf: seq<byte>, off: nat, bytes: seq<byte>) {
    off + |bytes| <= |buf| && buf[off..off + |bytes|] == bytes
  }

  /** An edit of packet `j` that writes measurement `m`. */
  ghost predicate Owns(v: Vehicle, m: nat, j: nat, e: Edit) {
    exists k :: Stored(v, m, k) && v.measurements[m].locations[k] == Location(e.offset, j)
                && |e.bytes| == v.measurements[m].size
  }

  predicate Locking(pc: Pc) {
    pc.LockTake? || pc.LockLoad?
  }

  ghost predicate ShownOk(v: Vehicle, p: Proc)
    requires Shaped1(v, p)
  {
    && (Locking(p.pc) ==> p.written == map[])
    && (HasAll(p.pc) ==> forall m :: m in p.written ==>
          m < |v.measurements| && |p.written[m]| == v.measurements[m].size
          && Shows(v, p.drafts.buffers, m, p.written[m]))
  }

  ghost predicate OwnedBy(v: Vehicle, written: map<nat, seq<byte>>, j: nat, e: Edit) {
    exists m :: m in written && Owns(v, m, j, e)
  }

  ghost predicate AllOwned(v: Vehicle, written: map<nat, seq<byte>>, j: nat, es: seq<Edit>) {
    forall t :: 0 <= t < |es| ==> OwnedBy(v, written, j, es[t])
  }

  ghost predicate OwnedOk(v: Vehicle, p: Proc)
    requires Shaped1(v, p)
  {
    forall j :: 0 <= j < |v.packets| && Loaded(v, p.pc, j) ==> AllOwned(v, p.written, j, p.pending[j])
  }

  ghost predicate StoryOk(v: Vehicle, p: Proc)
    requires Shaped1(v, p)
  {
    ShownOk(v, p) && OwnedOk(v, p)
  }

  ghost predicate StoryInv(v: Vehicle, s: State)
    requires Shaped(v, s)
  {
    forall q :: 0 <= q < |s.procs| ==> StoryOk(v, s.procs[q])
  }

  // ---------------------------------------------------------------- writing a measurement

  /** Bytes that no written place overlaps stay. */
  lemma {:induction false} WriteElsewhere(v: Vehicle, locs: seq<Location>, bytes: seq<byte>, d: Drafts,
                                          j: nat, lo: nat, hi: nat)
    requires Fits(v, locs, |bytes|, d) && j < |v.packets| && lo <= hi <= |d.buffers[j]|
    requires forall k :: 0 <= k < |locs| && locs[k].packet == j ==>
      hi <= locs[k].offset || locs[k].offset + |bytes| <= lo
    ensures WriteAt(v, locs, bytes, d).buffers[j][lo..hi] == d.buffers[j][lo..hi]
  {
    if locs != [] {
      var front, last := locs[..|locs| - 1], locs[|locs| - 1];
      WriteElsewhere(v, front, bytes, d, j, lo, hi);
      if last.packet == j && v.packets[j].isVirtual {
        BlitElsewhere(WriteAt(v, front, bytes, d).buffers[j], last.offset, bytes, lo, hi);
      }
    }
  }

  /** Every place that is written shows the bytes, since the places do not overlap. */
  lemma {:induction false} WriteShows(v: Vehicle, locs: seq<Location>, bytes: seq<byte>, d: Drafts, k: nat)
    requires Fits(v, locs, |bytes|, d) && k < |locs| && v.packets[locs[k].packet].isVirtual
    requires forall a, b :: 0 <= a < b < |locs| && locs[a].packet == locs[b].packet ==>
      locs[a].offset + |bytes| <= locs[b].offset || locs[b].offset + |bytes| <= locs[a].offset
    ensures At(WriteAt(v, locs, bytes, d).buffers[locs[k].packet], locs[k].offset, bytes)
  {
    var front, last := locs[..|locs| - 1], locs[|locs| - 1];
    if k < |front| {
      WriteShows(v, front, bytes, d, k);
      var j, lo := locs[k].packet, locs[k].offset;
      if last.packet == j {
        BlitElsewhere(WriteAt(v, front, bytes, d).buffers[j], last.offset, bytes, lo, lo + |bytes|);
      }
    }
  }

  /** Writing one measurement leaves what the cache shows of another. */
  lemma WriteKeepsShown(v: Vehicle, m: nat, bytes: seq<byte>, d: Drafts, m': nat, bytes': seq<byte>)
    requires WellLaid(v) && m < |v.measurements| && m' < |v.measurements| && m != m'
    requires |bytes| == v.measurements[m].size && |bytes'| == v.measurements[m'].size
    requires Fits(v, v.measurements[m].locations, |bytes|, d) && Shows(v, d.buffers, m', bytes')
    ensures Shows(v, WriteAt(v, v.measurements[m].locations, bytes, d).buffers, m', bytes')
  {
    var locs, locs' := v.measurements[m].locations, v.measurements[m'].locations;
    forall k' | 0 <= k' < |locs'| && Lockable(v, locs'[k'].packet)
      ensures At(WriteAt(v, locs, bytes, d).buffers[locs'[k'].packet], locs'[k'].offset, bytes')
    {
      forall k | 0 <= k < |locs| && locs[k].packet == locs'[k'].packet
        ensures locs'[k'].offset + |bytes'| <= locs[k].offset || locs[k].offset + |bytes| <= locs'[k'].offset
      {
        assert Stored(v, m, k) && Stored(v, m', k') && Apart(v, m, k, m', k');
      }
      WriteElsewhere(v, locs, bytes, d, locs'[k'].packet, locs'[k'].offset, locs'[k'].offset + |bytes'|);
    }
  }

  lemma WriteShowsItself(v: Vehicle, m: nat, bytes: seq<byte>, d: Drafts)
    requires WellLaid(v) && m < |v.measurements| && |bytes| == v.measurements[m].size
    requires Fits(v, v.measurements[m].locations, |bytes|, d)
    ensures Shows(v, WriteAt(v, v.measurements[m].locations, bytes, d).buffers, m, bytes)
  {
    var locs := v.measurements[m].locations;
    forall a, b | 0 <= a < b < |locs| && locs[a].packet == locs[b].packet
      ensures locs[a].offset + |bytes| <= locs[b].offset || locs[b].offset + |bytes| <= locs[a].offset
    {
      assert Stored(v, m, a) && Stored(v, m, b) && Apart(v, m, a, m, b);
    }
    forall k | 0 <= k < |locs| && Lockable(v, locs[k].packet)
      ensures At(WriteAt(v, locs, bytes, d).buffers[locs[k].packet], locs[k].offset, bytes)
    {
      WriteShows(v, locs, bytes, d, k);
    }
  }

  /** The edits a write adds are its own. */
  lemma {:induction false} RecordsOwned(v: Vehicle, m: nat, n: nat, bytes: seq<byte>, edits: seq<seq<Edit>>,
                                        j: nat, t: nat)
    requires WellLaid(v) && m < |v.measurements| && n <= |v.measurements[m].locations|
    requires |edits| == |v.packets| && j < |edits| && |bytes| == v.measurements[m].size
    requires forall k :: 0 <= k < n ==> v.measurements[m].locations[k].packet < |v.packets|
    requires t < |RecordAt(v, v.measurements[m].locations[..n], bytes, edits)[j]|
    ensures var e := RecordAt(v, v.measurements[m].locations[..n], bytes, edits)[j][t];
      (t < |edits[j]| && e == edits[j][t]) || Owns(v, m, j, e)
  {
    var locs := v.measurements[m].locations;
    if n != 0 {
      assert locs[..n][..n - 1] == locs[..n - 1];
      if t < |RecordAt(v, locs[..n - 1], bytes, edits)[j]| {
        RecordsOwned(v, m, n - 1, bytes, edits, j, t);
      } else {
        assert Stored(v, m, n - 1);
      }
    }
  }

  lemma MeasWriteKeepsShown(v: Vehicle, m: Memory, p: Proc, c: Choice)
    requires WellLaid(v) && ShapedMem(v, m) && Shaped1(v, p) && Allowed(v, m, p, c) && c.WriteMeas?
    requires ShownOk(v, p)
    ensures ShownOk(v, ChoiceStep(v, m, p, c).proc)
  {
    var bytes := Ordered(v.measurements[c.m], c.data);
    LocationsFit(v, c.m, p.drafts);
    WriteShowsItself(v, c.m, bytes, p.drafts);
    forall i | i in p.written && i != c.m
      ensures Shows(v, WriteAt(v, v.measurements[c.m].locations, bytes, p.drafts).buffers, i, p.written[i])
    {
      WriteKeepsShown(v, c.m, bytes, p.drafts, i, p.written[i]);
    }
  }

  lemma MeasWriteKeepsOwned(v: Vehicle, m: Memory, p: Proc, c: Choice)
    requires WellLaid(v) && ShapedMem(v, m) && Shaped1(v, p) && Allowed(v, m, p, c) && c.WriteMeas?
    requires OwnedOk(v, p)
    ensures OwnedOk(v, ChoiceStep(v, m, p, c).proc)
  {
    var meas := v.measurements[c.m];
    var bytes := Ordered(meas, c.data);
    var p' := ChoiceStep(v, m, p, c).proc;
    LocationsFit(v, c.m, p.drafts);
    assert meas.locations[..|meas.locations|] == meas.locations;
    forall j, t | 0 <= j < |v.packets| && Loaded(v, p'.pc, j) && 0 <= t < |p'.pending[j]|
      ensures OwnedBy(v, p'.written, j, p'.pending[j][t])
    {
      RecordsOwned(v, c.m, |meas.locations|, bytes, p.pending, j, t);
      if Owns(v, c.m, j, p'.pending[j][t]) {
        assert c.m in p'.written;
      } else {
        assert AllOwned(v, p.written, j, p.pending[j]);
        var i :| i in p.written && Owns(v, i, j, p.pending[j][t]);
        assert i in p'.written;
      }
    }
  }

  // ---------------------------------------------------------------- every step

  /** Steps that change neither what was written nor the cache, and hold no more than before. */
  lemma SameKeepsStoryOk(v: Vehicle, p: Proc, p': Proc)
    requires Shaped1(v, p) && Shaped1(v, p') && StoryOk(v, p)
    requires p'.written == p.written && p'.drafts.buffers == p.drafts.buffers
    requires HasAll(p'.pc) ==> HasAll(p.pc) || p.written == map[]
    requires Locking(p'.pc) ==> Locking(p.pc)
    requires forall j :: 0 <= j < |v.packets| && Loaded(v, p'.pc, j) ==>
      p'.pending[j] == [] || (Loaded(v, p.pc, j) && p'.pending[j] == p.pending[j])
    ensures StoryOk(v, p')
  {
  }

  lemma LoadKeepsStoryOk(v: Vehicle, m: Memory, p: Proc)
    requires ShapedMem(v, m) && Shaped1(v, p) && Ready(v, m, p) && p.pc.LockLoad? && StoryOk(v, p)
    ensures StoryOk(v, SessionStep(v, m, p).proc)
  {
  }

  lemma SessionKeepsStoryOk(v: Vehicle, m: Memory, p: Proc)
    requires ShapedMem(v, m) && Shaped1(v, p) && Ready(v, m, p) && InSession(p.pc) && StoryOk(v, p)
    ensures StoryOk(v, SessionStep(v, m, p).proc)
  {
    if p.pc.LockLoad? {
      LoadKeepsStoryOk(v, m, p);
    } else {
      SameKeepsStoryOk(v, p, SessionStep(v, m, p).proc);
    }
  }

  lemma ChoiceKeepsStoryOk(v: Vehicle, m: Memory, p: Proc, c: Choice)
    requires WellLaid(v) && ShapedMem(v, m) && Shaped1(v, p) && Allowed(v, m, p, c) && !c.Tick? && StoryOk(v, p)
    ensures StoryOk(v, ChoiceStep(v, m, p, c).proc)
  {
    if c.WriteMeas? {
      MeasWriteKeepsShown(v, m, p, c);
      MeasWriteKeepsOwned(v, m, p, c);
    } else if !c.Session? {
      SameKeepsStoryOk(v, p, ChoiceStep(v, m, p, c).proc);
    }
  }

  lemma WriteStepKeepsStoryOk(v: Vehicle, p: Proc, p': Proc)
    requires Shaped1(v, p) && Shaped1(v, p') && StoryOk(v, p)
    requires p' == p.(pc := p'.pc, pending := p'.pending) && WriteMoves(p.pc, p'.pc)
    requires forall j :: 0 <= j < |v.packets| ==> p'.pending[j] == [] || p'.pending[j] == p.pending[j]
    ensures StoryOk(v, p')
  {
  }

  lemma StepKeepsStoryOk(v: Vehicle, m: Memory, p: Proc, c: Choice)
    requires WellLaid(v) && ShapedMem(v, m) && Shaped1(v, p) && Allowed(v, m, p, c) && StoryOk(v, p)
    ensures StoryOk(v, LocalStep(v, m, p, c).proc)
  {
    if !c.Tick? {
      ChoiceKeepsStoryOk(v, m, p, c);
    } else if InSession(p.pc) {
      SessionKeepsStoryOk(v, m, p);
    } else if p.pc.W? {
      WriteStepKeepsStoryOk(v, p, WriteStep(v, m, p).proc);
    } else {
      ReaderHoldsNone(v, m, p);
    }
  }

  lemma NextKeepsStoryInv(v: Vehicle, s: State, e: Event)
    requires WellLaid(v) && Shaped(v, s) && Enabled(v, s, e) && StoryInv(v, s)
    ensures StoryInv(v, Next(v, s, e))
  {
    var s' := Next(v, s, e);
    StepKeepsStoryOk(v, s.mem, s.procs[e.pid], e.choice);
    forall q | 0 <= q < |s.procs| && q != e.pid
      ensures StoryOk(v, s'.procs[q])
    {
      if s'.procs[q] != s.procs[q] {
        SameKeepsStoryOk(v, s.procs[q], s'.procs[q]);
      }
    }
  }

  lemma {:induction false} RunKeepsStoryInv(v: Vehicle, s: State, run: seq<Event>)
    requires WellLaid(v) && Shaped(v, s) && Valid(v, s, run) && StoryInv(v, s)
    ensures StoryInv(v, Run(v, s, run))
    decreases |run|
  {
    if run != [] {
      NextKeepsStoryInv(v, s, run[0]);
      RunKeepsStoryInv(v, Next(v, s, run[0]), run[1..]);
    }
  }

  lemma InitStoryInv(v: Vehicle, count: nat)
    requires WellLaid(v)
    ensures StoryInv(v, Init(v, count))
  {
    forall q | 0 <= q < count
      ensures StoryOk(v, Init(v, count).procs[q])
    {
      assert Init(v, count).procs[q].written == map[];
    }
  }

  lemma ReachableStoryInv(v: Vehicle, count: nat, run: seq<Event>)
    requires WellLaid(v) && Valid(v, Init(v, count), run)
    ensures StoryInv(v, After(v, count, run))
  {
    InitStoryInv(v, count);
    RunKeepsStoryInv(v, Init(v, count), run);
  }
}
