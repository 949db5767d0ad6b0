/** What was written is what is read, over every run. */
module EndToEnd {
  import opened Wrappers
  import opened Bytes
  import opened Layout
  import opened Convert
  import opened History
  import opened Protocol
  import opened Viewing
  import opened Sessions
  import opened Ledger
  import opened Telemetry
  import opened Story
  import opened Flushing
  import opened Recency

  // ---------------------------------------------------------------- the writer's side

  /** Every copy of measurement `m` in a virtual packet is `bytes` in the committed packets. */
  predicate Committed(v: Vehicle, log: seq<Commit>, m: nat, bytes: seq<byte>)
    requires m < |v.measurements|
  {
    var locs := v.measurements[m].locations;
    forall k :: 0 <= k < |locs| && Lockable(v, locs[k].packet) ==>
      Story.At(Content(log, locs[k].packet, v.packets[locs[k].packet].size), locs[k].offset, bytes)
  }

  lemma FlushedIsCommitted(v: Vehicle, log: seq<Commit>, p: Proc, m: nat)
    requires Shaped1(v, p) && SessionOk(v, log, p) && ShownOk(v, p) && Flushed(p) && m in p.written
    ensures m < |v.measurements| && Committed(v, log, m, p.written[m])
  {
  }

  // ---------------------------------------------------------------- the log only grows

  lemma {:induction false} RunGrowsLog(v: Vehicle, s: State, run: seq<Event>)
    requires WellLaid(v) && Shaped(v, s) && Valid(v, s, run)
    ensures s.mem.log <= Run(v, s, run).mem.log
    decreases |run|
  {
    if run != [] {
      RunGrowsLog(v, Next(v, s, run[0]), run[1..]);
    }
  }

  /** A packet that is not written after the log was `n` long holds at every later instant what
      it held then. */
  lemma UnwrittenAt(v: Vehicle, log: seq<Commit>, n: nat, at: nat, j: nat)
    requires n <= at <= |log| && j < |v.packets| && !WrittenSince(log, n, j)
    ensures ContentAt(v, log, at, j) == ContentAt(v, log, n, j)
  {
    assert forall k :: n <= k < at ==> log[..at][k] == log[k];
    UnwrittenKeepsContent(log[..at], n, j, v.packets[j].size);
    assert log[..at][..n] == log[..n];
  }

  // ---------------------------------------------------------------- the reader's side

  /** The reader tracks every packet the measurement lies in. */
  predicate Tracks(v: Vehicle, p: Proc, m: nat)
    requires m < |v.measurements|
  {
    var locs := v.measurements[m].locations;
    forall k :: 0 <= k < |locs| ==> locs[k].packet in p.ids
  }

  /** Tracked buffers after an update. */
  lemma BuffersOfUpdate(v: Vehicle, log: seq<Commit>, p: Proc, j: nat)
    requires Shaped1(v, p) && ViewOk(v, log, p) && JustUpdated(p) && j in p.ids
    ensures j < |v.packets| && p.synced <= |log| && p.buffers[j] == ContentAt(v, log, p.synced, j)
    ensures p.view.lastNonce == p.synced + 1 && p.view.lastNonces[j] == PacketNonce(log[..p.synced], j)
  {
  }

  /** How new the place numbered `k` is: the nonce of its packet as of the last update. */
  function NonceAt(v: Vehicle, log: seq<Commit>, p: Proc, m: nat, k: nat): nat
    requires Stored(v, m, k) && p.synced <= |log|
  {
    PacketNonce(log[..p.synced], v.measurements[m].locations[k].packet)
  }

  /** Some place of the measurement was written fewer than `INT_MAX` writes before the update. */
  ghost predicate Recent(v: Vehicle, log: seq<Commit>, p: Proc, m: nat) {
    p.synced <= |log| && exists k :: Stored(v, m, k) && p.synced + 1 < NonceAt(v, log, p, m, k) + INT_MAX
  }

  /** No place of the measurement lies further back than a 32-bit difference reaches. */
  ghost predicate WithinReach(v: Vehicle, log: seq<Commit>, p: Proc, m: nat) {
    p.synced <= |log| && forall k :: Stored(v, m, k) ==> p.synced + 1 < NonceAt(v, log, p, m, k) + U32
  }

  /** The nonces that `latest_data` compares are those of the update. */
  lemma NoncesOfUpdate(v: Vehicle, log: seq<Commit>, p: Proc, m: nat)
    requires Shaped1(v, p) && ViewOk(v, log, p) && JustUpdated(p) && m < |v.measurements| && Tracks(v, p, m)
    ensures p.synced <= |log|
    ensures forall k :: 0 <= k < |v.measurements[m].locations| ==> v.measurements[m].locations[k].packet < |v.packets|
    ensures forall k :: Stored(v, m, k) ==>
      NoncesOf(v.measurements[m], p.view.lastNonces)[k] == NonceAt(v, log, p, m, k) <= p.synced + 1
    ensures |v.measurements[m].locations| > 0 ==> p.view.lastNonce == p.synced + 1
  {
    forall k | 0 <= k < |v.measurements[m].locations|
      ensures var j := v.measurements[m].locations[k].packet;
        j < |v.packets| && p.view.lastNonces[j] == PacketNonce(log[..p.synced], j) && p.view.lastNonce == p.synced + 1
    {
      BuffersOfUpdate(v, log, p, v.measurements[m].locations[k].packet);
    }
  }

  /** The place chosen lies in a packet that no other place's packet was written after, as of the
      update. */
  ghost predicate TakesNewest(v: Vehicle, log: seq<Commit>, p: Proc, m: nat, r: Option<nat>)
    requires p.synced <= |log|
  {
    r.Some? && Stored(v, m, r.value)
    && forall k :: Stored(v, m, k) ==> NonceAt(v, log, p, m, k) <= NonceAt(v, log, p, m, r.value)
  }

  /** After an update, `latest_data` takes a most recently written place exactly when some place
      was written fewer than `INT_MAX` writes before, as long as no place is further back than
      32 bits reach. */
  lemma LatestIsMostRecentlyWritten(v: Vehicle, log: seq<Commit>, p: Proc, m: nat)
    requires Shaped1(v, p) && ViewOk(v, log, p) && JustUpdated(p)
    requires m < |v.measurements| && Tracks(v, p, m) && WithinReach(v, log, p, m)
    ensures forall k :: 0 <= k < |v.measurements[m].locations| ==> v.measurements[m].locations[k].packet < |v.packets|
    ensures TakesNewest(v, log, p, m, Latest(v.measurements[m], p.view.lastNonce, p.view.lastNonces))
       <==> Recent(v, log, p, m)
  {
    var meas := v.measurements[m];
    NoncesOfUpdate(v, log, p, m);
    var counts := NoncesOf(meas, p.view.lastNonces);
    if |meas.locations| > 0 {
      forall k | 0 <= k < |counts|
        ensures counts[k] == NonceAt(v, log, p, m, k) <= p.view.lastNonce < counts[k] + U32
      {
        assert Stored(v, m, k);
      }
      NearestIsNewestExactlyWhen(p.view.lastNonce, counts);
    }
  }

  /** Every place of the measurement shows `bytes` in the process's own buffers. */
  predicate BuffersShow(v: Vehicle, p: Proc, m: nat, bytes: seq<byte>)
    requires m < |v.measurements|
  {
    var locs := v.measurements[m].locations;
    forall k :: 0 <= k < |locs| ==>
      locs[k].packet < |p.buffers| && Story.At(p.buffers[locs[k].packet], locs[k].offset, bytes)
  }

  /** What `get_raw` gives a process for measurement `m`. */
  function RawOf(v: Vehicle, p: Proc, m: nat): Option<seq<byte>>
    requires m < |v.measurements|
  {
    if Readable(v.measurements[m], p.view.lastNonces, p.buffers) then
      GetRaw(v.measurements[m], p.view.lastNonce, p.view.lastNonces, p.buffers)
    else None
  }

  /** What `get_uint` gives it. */
  function UintOf(v: Vehicle, p: Proc, m: nat): Option<nat>
    requires m < |v.measurements|
  {
    if Readable(v.measurements[m], p.view.lastNonces, p.buffers) then
      GetUint(v.measurements[m], p.view.lastNonce, p.view.lastNonces, p.buffers)
    else None
  }

  /** What `get_int` gives it. */
  function IntOf(v: Vehicle, p: Proc, m: nat): Option<int>
    requires m < |v.measurements|
  {
    if Readable(v.measurements[m], p.view.lastNonces, p.buffers) then
      GetInt(v.measurements[m], p.view.lastNonce, p.view.lastNonces, p.buffers)
    else None
  }

  /** `latest_data` finds a place for a measurement that some recent write concerned. */
  lemma RecentIsFound(v: Vehicle, log: seq<Commit>, p: Proc, m: nat)
    requires Shaped1(v, p) && ViewOk(v, log, p) && JustUpdated(p) && Recent(v, log, p, m)
    requires m < |v.measurements| && Tracks(v, p, m)
    ensures forall k :: 0 <= k < |v.measurements[m].locations| ==> v.measurements[m].locations[k].packet < |v.packets|
    ensures Latest(v.measurements[m], p.view.lastNonce, p.view.lastNonces).Some?
  {
    NoncesOfUpdate(v, log, p, m);
    var k :| Stored(v, m, k) && p.synced + 1 < NonceAt(v, log, p, m, k) + INT_MAX;
    NearestFinds(p.view.lastNonce, NoncesOf(v.measurements[m], p.view.lastNonces), k);
  }

  /** What is in every place is what `get_raw` gives, whichever place it takes. */
  lemma ShownIsGot(v: Vehicle, p: Proc, m: nat, bytes: seq<byte>)
    requires m < |v.measurements| && BuffersShow(v, p, m, bytes) && |bytes| == v.measurements[m].size
    requires forall k :: 0 <= k < |v.measurements[m].locations| ==>
      v.measurements[m].locations[k].packet < |p.view.lastNonces|
    requires Latest(v.measurements[m], p.view.lastNonce, p.view.lastNonces).Some?
    ensures RawOf(v, p, m) == Some(bytes)
  {
    var meas := v.measurements[m];
    assert Readable(meas, p.view.lastNonces, p.buffers);
    var k := Latest(meas, p.view.lastNonce, p.view.lastNonces).value;
    assert Slice(meas, meas.locations[k], p.buffers) == bytes;
  }

  // ---------------------------------------------------------------- end to end

  predicate OnlyVirtual(v: Vehicle, m: nat)
    requires m < |v.measurements|
  {
    var locs := v.measurements[m].locations;
    |locs| > 0 && forall k :: 0 <= k < |locs| ==> Lockable(v, locs[k].packet)
  }

  /** No packet of the measurement is written after the log was `n` long. */
  ghost predicate UntouchedSince(v: Vehicle, log: seq<Commit>, n: nat, m: nat)
    requires m < |v.measurements|
  {
    var locs := v.measurements[m].locations;
    forall k :: 0 <= k < |locs| ==> !WrittenSince(log, n, locs[k].packet)
  }

  /** What was committed is in the buffers of everyone who updates later. */
  lemma CommittedIsSeen(v: Vehicle, log: seq<Commit>, n: nat, p: Proc, m: nat, bytes: seq<byte>)
    requires Shaped1(v, p) && ViewOk(v, log, p) && JustUpdated(p) && n <= p.synced
    requires m < |v.measurements| && OnlyVirtual(v, m) && Tracks(v, p, m) && n <= |log|
    requires UntouchedSince(v, log, n, m) && Committed(v, log[..n], m, bytes)
    ensures BuffersShow(v, p, m, bytes)
  {
    var locs := v.measurements[m].locations;
    forall k | 0 <= k < |locs|
      ensures locs[k].packet < |v.packets| && Story.At(p.buffers[locs[k].packet], locs[k].offset, bytes)
    {
      BuffersOfUpdate(v, log, p, locs[k].packet);
      UnwrittenAt(v, log, n, p.synced, locs[k].packet);
    }
  }

  /** At the end of one run process `w` has written `bytes`, in the measurement's own byte order,
      to measurement `m` and flushed. */
  predicate HasWritten(v: Vehicle, s: State, w: nat, m: nat, bytes: seq<byte>) {
    && w < |s.procs| && Flushed(s.procs[w]) && m in s.procs[w].written && m < |v.measurements|
    && s.procs[w].written[m] == bytes
  }

  /** Later process `r` has updated, not too many writes after, and nobody has written those
      packets again. */
  ghost predicate HasRead(v: Vehicle, n: nat, s: State, r: nat, m: nat) {
    && r < |s.procs| && m < |v.measurements| && JustUpdated(s.procs[r]) && n <= s.procs[r].synced
    && Tracks(v, s.procs[r], m) && UntouchedSince(v, s.mem.log, n, m) && Recent(v, s.mem.log, s.procs[r], m)
  }

  lemma WriterCommits(v: Vehicle, count: nat, run: seq<Event>, w: nat, m: nat, bytes: seq<byte>)
    requires WellLaid(v) && Valid(v, Init(v, count), run) && HasWritten(v, After(v, count, run), w, m, bytes)
    ensures Committed(v, After(v, count, run).mem.log, m, bytes) && |bytes| == v.measurements[m].size
  {
    ReachableInv(v, count, run);
    ReachableStoryInv(v, count, run);
    var s := After(v, count, run);
    assert ProcOk(v, s.mem, s.procs[w]) && StoryOk(v, s.procs[w]);
    FlushedIsCommitted(v, s.mem.log, s.procs[w], m);
  }

  lemma ReaderGets(v: Vehicle, log: seq<Commit>, n: nat, p: Proc, m: nat, bytes: seq<byte>)
    requires Shaped1(v, p) && ViewOk(v, log, p) && JustUpdated(p) && n <= p.synced && n <= |log|
    requires m < |v.measurements| && OnlyVirtual(v, m) && Tracks(v, p, m) && UntouchedSince(v, log, n, m)
    requires Recent(v, log, p, m) && Committed(v, log[..n], m, bytes) && |bytes| == v.measurements[m].size
    ensures RawOf(v, p, m) == Some(bytes)
  {
    CommittedIsSeen(v, log, n, p, m, bytes);
    RecentIsFound(v, log, p, m);
    ShownIsGot(v, p, m, bytes);
  }

  lemma PrefixOfLater(log: seq<Commit>, log': seq<Commit>)
    requires log <= log'
    ensures log'[..|log|] == log
  {
  }

  lemma LaterViewOk(v: Vehicle, s: State, later: seq<Event>, r: nat)
    requires WellLaid(v) && Shaped(v, s) && Inv(v, s) && Valid(v, s, later) && r < |s.procs|
    ensures var t := Run(v, s, later);
      && s.mem.log <= t.mem.log && |t.procs| == |s.procs|
      && Shaped1(v, t.procs[r]) && ViewOk(v, t.mem.log, t.procs[r])
  {
    RunKeepsInv(v, s, later);
    RunGrowsLog(v, s, later);
  }

  /** What is committed when a run starts is what everyone gets who updates by its end. */
  lemma LaterReaderGets(v: Vehicle, s: State, later: seq<Event>, r: nat, m: nat, bytes: seq<byte>)
    requires WellLaid(v) && Shaped(v, s) && Inv(v, s) && Valid(v, s, later)
    requires m < |v.measurements| && OnlyVirtual(v, m) && |bytes| == v.measurements[m].size
    requires Committed(v, s.mem.log, m, bytes) && HasRead(v, |s.mem.log|, Run(v, s, later), r, m)
    ensures RawOf(v, Run(v, s, later).procs[r], m) == Some(bytes)
  {
    var log, t := s.mem.log, Run(v, s, later);
    LaterViewOk(v, s, later, r);
    PrefixOfLater(log, t.mem.log);
    ReaderGets(v, t.mem.log, |log|, t.procs[r], m, bytes);
  }

  /** A run in which process `w` writes the host bytes `data` to measurement `m` (event number `a`), then
      flushes (event number `b`) and has come to the end of the flush. */
  ghost predicate WritesThrough(v: Vehicle, count: nat, run: seq<Event>, w: nat, m: nat, data: seq<byte>,
                                a: nat, b: nat)
    requires WellLaid(v) && Valid(v, Init(v, count), run)
  {
    w < count && WritesAndFlushes(run, w, m, data, a, b) && After(v, count, run).procs[w].pc.Hold?
  }

  lemma WriterHasWritten(v: Vehicle, count: nat, run: seq<Event>, w: nat, m: nat, data: seq<byte>, a: nat, b: nat)
    requires WellLaid(v) && Valid(v, Init(v, count), run) && WritesThrough(v, count, run, w, m, data, a, b)
    ensures m < |v.measurements| && HasWritten(v, After(v, count, run), w, m, Ordered(v.measurements[m], data))
  {
    var t := FromTheWrite(v, Init(v, count), run, w, m, data, a, b);
    WriteStays(v, t, run[a..], w, m, data, b - a);
    WriteIsFlushed(v, t, run[a..], w, m, data, b - a);
  }

  /** The end-to-end theorem: what a session writes to a measurement of virtual packets and flushes
      is what every other process gets after a later update, however the two runs interleave
      with anything else. */
  lemma WrittenIsRead(v: Vehicle, count: nat, run: seq<Event>, later: seq<Event>, w: nat, r: nat, m: nat,
                      data: seq<byte>, a: nat, b: nat)
    requires WellLaid(v) && Valid(v, Init(v, count), run) && Valid(v, After(v, count, run), later)
    requires m < |v.measurements| && OnlyVirtual(v, m) && WritesThrough(v, count, run, w, m, data, a, b)
    requires HasRead(v, |After(v, count, run).mem.log|, Run(v, After(v, count, run), later), r, m)
    ensures RawOf(v, Run(v, After(v, count, run), later).procs[r], m) == Some(Ordered(v.measurements[m], data))
  {
    var bytes := Ordered(v.measurements[m], data);
    ReachableInv(v, count, run);
    WriterHasWritten(v, count, run, w, m, data, a, b);
    WriterCommits(v, count, run, w, m, bytes);
    LaterReaderGets(v, After(v, count, run), later, r, m, bytes);
  }

  /** For numbers this means: a number that fits the measurement, written from the writer's own
      byte order, is the number `get_uint` gives, in either declared byte order. */
  lemma NumberWrittenIsNumberRead(v: Vehicle, count: nat, run: seq<Event>, later: seq<Event>, w: nat, r: nat, m: nat,
                                  value: nat, a: nat, b: nat)
    requires WellLaid(v) && Valid(v, Init(v, count), run) && Valid(v, After(v, count, run), later)
    requires m < |v.measurements| && OnlyVirtual(v, m)
    requires ReadsUnsigned(v.measurements[m]) && value < Pow256(v.measurements[m].size)
    requires WritesThrough(v, count, run, w, m, LittleBytes(value, v.measurements[m].size), a, b)
    requires HasRead(v, |After(v, count, run).mem.log|, Run(v, After(v, count, run), later), r, m)
    ensures UintOf(v, Run(v, After(v, count, run), later).procs[r], m) == Some(value)
  {
    var meas := v.measurements[m];
    WrittenIsRead(v, count, run, later, w, r, m, LittleBytes(value, meas.size), a, b);
    ValueOfOrdered(meas, LittleBytes(value, meas.size));
    LittleOfBytes(value, meas.size);
  }

  /** The same for signed numbers and `get_int`. */
  lemma SignedWrittenIsSignedRead(v: Vehicle, count: nat, run: seq<Event>, later: seq<Event>, w: nat, r: nat, m: nat,
                                  value: int, a: nat, b: nat)
    requires WellLaid(v) && Valid(v, Init(v, count), run) && Valid(v, After(v, count, run), later)
    requires m < |v.measurements| && OnlyVirtual(v, m)
    requires ReadsSigned(v.measurements[m]) && FitsSigned(value, v.measurements[m].size)
    requires var n := v.measurements[m].size;
      WritesThrough(v, count, run, w, m, LittleBytes(PatternIn(value, n), n), a, b)
    requires HasRead(v, |After(v, count, run).mem.log|, Run(v, After(v, count, run), later), r, m)
    ensures IntOf(v, Run(v, After(v, count, run), later).procs[r], m) == Some(value)
  {
    var meas := v.measurements[m];
    WrittenIsRead(v, count, run, later, w, r, m, LittleBytes(PatternIn(value, meas.size), meas.size), a, b);
    PatternBack(value, meas.size);
    ValueOfOrdered(meas, LittleBytes(PatternIn(value, meas.size), meas.size));
    LittleOfBytes(PatternIn(value, meas.size), meas.size);
  }

  // ---------------------------------------------------------------- the other measurements

  lemma {:induction false} PatchElsewhere(buf: seq<byte>, es: seq<Edit>, lo: nat, hi: nat)
    requires lo <= hi <= |buf|
    requires forall t :: 0 <= t < |es| ==> hi <= es[t].offset || es[t].offset + |es[t].bytes| <= lo
    ensures PatchAll(buf, es)[lo..hi] == buf[lo..hi]
  {
    if es != [] {
      var front, last := es[..|es| - 1], es[|es| - 1];
      PatchElsewhere(buf, front, lo, hi);
      if last.offset + |last.bytes| <= |buf| {
        BlitElsewhere(PatchAll(buf, front), last.offset, last.bytes, lo, hi);
      }
    }
  }

  /** The bytes of the `k`-th place of measurement `m` in the committed packets. */
  function CommittedBytes(v: Vehicle, log: seq<Commit>, m: nat, k: nat): seq<byte>
    requires WellLaid(v) && Stored(v, m, k)
  {
    var loc := v.measurements[m].locations[k];
    assert Inside(v, m, k);
    var buf := Content(log, loc.packet, v.packets[loc.packet].size);
    if loc.offset + v.measurements[m].size <= |buf| then buf[loc.offset..loc.offset + v.measurements[m].size] else []
  }

  lemma CommitElsewhere(v: Vehicle, log: seq<Commit>, c: Commit, i: nat, k: nat)
    requires WellLaid(v) && Stored(v, i, k) && c.packet != v.measurements[i].locations[k].packet
    ensures CommittedBytes(v, log + [c], i, k) == CommittedBytes(v, log, i, k)
  {
  }

  lemma OwnEditsApart(v: Vehicle, written: map<nat, seq<byte>>, m: nat, k: nat, es: seq<Edit>)
    requires WellLaid(v) && Stored(v, m, k) && m !in written
    requires AllOwned(v, written, v.measurements[m].locations[k].packet, es)
    ensures var loc := v.measurements[m].locations[k];
      forall t :: 0 <= t < |es| ==>
        loc.offset + v.measurements[m].size <= es[t].offset || es[t].offset + |es[t].bytes| <= loc.offset
  {
  }

  /** Edits of other measurements leave the bytes of this one. */
  lemma CommitPatched(v: Vehicle, log: seq<Commit>, c: Commit, i: nat, k: nat, written: map<nat, seq<byte>>)
    requires WellLaid(v) && Stored(v, i, k) && i !in written
    requires var j := v.measurements[i].locations[k].packet;
      c.packet == j < |v.packets| && AllOwned(v, written, j, c.edits)
      && c.data == PatchAll(Content(log, j, v.packets[j].size), c.edits)
    ensures CommittedBytes(v, log + [c], i, k) == CommittedBytes(v, log, i, k)
  {
    var loc, size := v.measurements[i].locations[k], v.measurements[i].size;
    var was := Content(log, c.packet, v.packets[c.packet].size);
    AfterCommit(log, c, c.packet, v.packets[c.packet].size);
    if loc.offset + size <= |was| {
      OwnEditsApart(v, written, i, k, c.edits);
      PatchElsewhere(was, c.edits, loc.offset, loc.offset + size);
    }
  }

  /** A commit of a session changes no measurement that the session has not written. */
  lemma CommitKeepsOthers(v: Vehicle, log: seq<Commit>, p: Proc, i: nat, k: nat)
    requires WellLaid(v) && Shaped1(v, p) && SessionOk(v, log, p) && OwnedOk(v, p)
    requires p.pc.W? && p.pc.w.Bump? && p.pc.job.ret.ToFlush? && i !in p.written && Stored(v, i, k)
    ensures CommittedBytes(v, log + [CommitOf(p, p.pc.job)], i, k) == CommittedBytes(v, log, i, k)
  {
    var c, j := CommitOf(p, p.pc.job), p.pc.job.packet;
    if v.measurements[i].locations[k].packet == j {
      assert Loaded(v, p.pc, j);
      CommitPatched(v, log, c, i, k, p.written);
    } else {
      CommitElsewhere(v, log, c, i, k);
    }
  }

  lemma OthersCommitKeepsHeld(v: Vehicle, s: State, q: nat, w: nat, i: nat, k: nat)
    requires WellLaid(v) && Shaped(v, s) && PacketLocksInv(v, s) && w < |s.procs| && q < |s.procs| && w != q
    requires JobOk(v, s.procs[q]) && s.procs[q].pc.W? && HasAll(s.procs[w].pc)
    requires Stored(v, i, k) && Lockable(v, v.measurements[i].locations[k].packet)
    ensures var c := CommitOf(s.procs[q], s.procs[q].pc.job);
      CommittedBytes(v, s.mem.log + [c], i, k) == CommittedBytes(v, s.mem.log, i, k)
  {
    var p, j := s.procs[q], v.measurements[i].locations[k].packet;
    if p.pc.job.packet == j {
      OneHolder(v, s, w, q, j);
    }
    CommitElsewhere(v, s.mem.log, CommitOf(p, p.pc.job), i, k);
  }

  lemma WrittenOnlyGrows(v: Vehicle, m: Memory, p: Proc, c: Choice)
    requires WellLaid(v) && ShapedMem(v, m) && Shaped1(v, p) && Allowed(v, m, p, c) && HasAll(p.pc)
    ensures p.written.Keys <= LocalStep(v, m, p, c).proc.written.Keys
  {
  }

  lemma NotWrittenBefore(v: Vehicle, s: State, e: Event, w: nat, i: nat)
    requires WellLaid(v) && Shaped(v, s) && Enabled(v, s, e) && w < |s.procs| && HasAll(s.procs[w].pc)
    requires i !in Next(v, s, e).procs[w].written
    ensures i !in s.procs[w].written
  {
    if e.pid == w {
      WrittenOnlyGrows(v, s.mem, s.procs[w], e.choice);
    }
  }

  lemma NextKeepsOthers(v: Vehicle, s: State, e: Event, w: nat, i: nat, k: nat)
    requires WellLaid(v) && Shaped(v, s) && Enabled(v, s, e) && Inv(v, s) && StoryInv(v, s) && w < |s.procs|
    requires HasAll(s.procs[w].pc) && i !in Next(v, s, e).procs[w].written
    requires Stored(v, i, k) && Lockable(v, v.measurements[i].locations[k].packet)
    ensures i !in s.procs[w].written
    ensures CommittedBytes(v, Next(v, s, e).mem.log, i, k) == CommittedBytes(v, s.mem.log, i, k)
  {
    var p := s.procs[e.pid];
    assert ProcOk(v, s.mem, p);
    NotWrittenBefore(v, s, e, w, i);
    if Commits(p, e.choice) {
      if e.pid == w {
        assert StoryOk(v, p);
        CommitKeepsOthers(v, s.mem.log, p, i, k);
      } else {
        OthersCommitKeepsHeld(v, s, e.pid, w, i, k);
      }
    }
  }

  /** Process `w` has its session open in every state of the run. */
  ghost predicate OpenThroughout(v: Vehicle, s: State, run: seq<Event>, w: nat)
    requires WellLaid(v) && Shaped(v, s) && Valid(v, s, run) && w < |s.procs|
    decreases |run|
  {
    HasAll(s.procs[w].pc) && (run != [] ==> OpenThroughout(v, Next(v, s, run[0]), run[1..], w))
  }

  /** A session keeps every other measurement: while it is open, whatever it and everybody else
      does, a measurement of a virtual packet that it does not write keeps its committed bytes. */
  lemma {:induction false} SessionKeepsOthers(v: Vehicle, s: State, run: seq<Event>, w: nat, i: nat, k: nat)
    requires WellLaid(v) && Shaped(v, s) && Inv(v, s) && StoryInv(v, s) && w < |s.procs|
    requires Valid(v, s, run) && OpenThroughout(v, s, run, w) && i !in Run(v, s, run).procs[w].written
    requires Stored(v, i, k) && Lockable(v, v.measurements[i].locations[k].packet)
    ensures i !in s.procs[w].written
    ensures CommittedBytes(v, Run(v, s, run).mem.log, i, k) == CommittedBytes(v, s.mem.log, i, k)
    decreases |run|
  {
    if run != [] {
      NextKeepsInv(v, s, run[0]);
      NextKeepsStoryInv(v, s, run[0]);
      SessionKeepsOthers(v, Next(v, s, run[0]), run[1..], w, i, k);
      NextKeepsOthers(v, s, run[0], w, i, k);
    }
  }

  /** Places that keep their bytes keep showing what was committed. */
  lemma SameBytesCommitted(v: Vehicle, log: seq<Commit>, log': seq<Commit>, i: nat, bytes: seq<byte>)
    requires WellLaid(v) && i < |v.measurements| && OnlyVirtual(v, i) && |bytes| == v.measurements[i].size
    requires Committed(v, log, i, bytes)
    requires forall k :: Stored(v, i, k) ==> CommittedBytes(v, log', i, k) == CommittedBytes(v, log, i, k)
    ensures Committed(v, log', i, bytes)
  {
    forall k | Stored(v, i, k)
      ensures var loc := v.measurements[i].locations[k];
        Story.At(Content(log', loc.packet, v.packets[loc.packet].size), loc.offset, bytes)
    {
      assert CommittedBytes(v, log, i, k) == bytes;
    }
  }

  lemma SessionKeepsCommitted(v: Vehicle, s: State, session: seq<Event>, w: nat, i: nat, bytes: seq<byte>)
    requires WellLaid(v) && Shaped(v, s) && Inv(v, s) && StoryInv(v, s) && w < |s.procs|
    requires Valid(v, s, session) && OpenThroughout(v, s, session, w) && i !in Run(v, s, session).procs[w].written
    requires i < |v.measurements| && OnlyVirtual(v, i) && |bytes| == v.measurements[i].size
    requires Committed(v, s.mem.log, i, bytes)
    ensures Committed(v, Run(v, s, session).mem.log, i, bytes)
  {
    var log' := Run(v, s, session).mem.log;
    forall k | Stored(v, i, k)
      ensures CommittedBytes(v, log', i, k) == CommittedBytes(v, s.mem.log, i, k)
    {
      SessionKeepsOthers(v, s, session, w, i, k);
    }
    SameBytesCommitted(v, s.mem.log, log', i, bytes);
  }

  /** What this means for readers: a measurement that a session leaves alone is still read as what
      it was before the session, by everyone who updates after it. */
  lemma OthersAreStillRead(v: Vehicle, count: nat, run: seq<Event>, session: seq<Event>, later: seq<Event>,
                           w: nat, r: nat, i: nat, bytes: seq<byte>)
    requires WellLaid(v) && Valid(v, Init(v, count), run) && Valid(v, After(v, count, run), session)
    requires w < count && OpenThroughout(v, After(v, count, run), session, w)
    requires i < |v.measurements| && OnlyVirtual(v, i) && |bytes| == v.measurements[i].size
    requires Committed(v, After(v, count, run).mem.log, i, bytes)
    requires var s := Run(v, After(v, count, run), session);
      i !in s.procs[w].written && Valid(v, s, later) && HasRead(v, |s.mem.log|, Run(v, s, later), r, i)
    ensures RawOf(v, Run(v, Run(v, After(v, count, run), session), later).procs[r], i) == Some(bytes)
  {
    var s := After(v, count, run);
    ReachableInv(v, count, run);
    ReachableStoryInv(v, count, run);
    SessionKeepsCommitted(v, s, session, w, i, bytes);
    RunKeepsInv(v, s, session);
    LaterReaderGets(v, Run(v, s, session), later, r, i, bytes);
  }
}
