/** The whole invariant of the telemetry system and what it gives over every run. */
module Telemetry {
  import opened Bytes
  import opened Layout
  import opened History
  import opened Caches
  import opened Protocol
  import opened Exclusion
  import opened Snapshots
  import opened Viewing
  import opened Wakeup
  import opened Sessions
  import opened Ledger
  import opened Serial

  ghost predicate ProcOk(v: Vehicle, m: Memory, p: Proc)
    requires Shaped1(v, p)
  {
    ViewOk(v, m.log, p) && SessionOk(v, m.log, p) && TicketOk(v, m, p)
  }

  ghost predicate Inv(v: Vehicle, s: State)
    requires Shaped(v, s)
  {
    && LockInv(s) && MemInv(v, s) && PacketLocksInv(v, s) && SleepInv(s)
    && s.mem.tickets >= 1 && LogOk(v, s.mem.log, s.mem.tickets)
    && (forall q :: 0 <= q < |s.procs| ==> ProcOk(v, s.mem, s.procs[q]))
  }

  // ---------------------------------------------------------------- the log and the tickets

  /** Whoever holds everything after a step held everything before, with the same ticket,
      or has just drawn a new one. */
  predicate TicketDrawn(m: Memory, p: Proc, l: Local) {
    HasAll(l.proc.pc) ==>
      || (l.proc.ticket == p.ticket && HasAll(p.pc))
      || (l.proc.ticket == m.tickets < l.mem.tickets)
  }

  lemma SessionDrawsTickets(v: Vehicle, m: Memory, p: Proc)
    requires ShapedMem(v, m) && Shaped1(v, p) && Ready(v, m, p) && InSession(p.pc)
    ensures TicketDrawn(m, p, SessionStep(v, m, p))
  {
  }

  lemma ChoiceDrawsNone(v: Vehicle, m: Memory, p: Proc, c: Choice)
    requires WellLaid(v) && ShapedMem(v, m) && Shaped1(v, p) && Allowed(v, m, p, c) && !c.Tick?
    ensures TicketDrawn(m, p, ChoiceStep(v, m, p, c))
  {
  }

  lemma StepDrawsTickets(v: Vehicle, m: Memory, p: Proc, c: Choice)
    requires WellLaid(v) && ShapedMem(v, m) && Shaped1(v, p) && Allowed(v, m, p, c)
    ensures TicketDrawn(m, p, LocalStep(v, m, p, c))
  {
    if !c.Tick? {
      ChoiceDrawsNone(v, m, p, c);
    } else if InSession(p.pc) {
      SessionDrawsTickets(v, m, p);
    } else if !p.pc.W? {
      ReaderHoldsNone(v, m, p);
    }
  }

  /** What one step does to the log: nothing, or the commit of the writer that stands there. */
  predicate Commits(p: Proc, c: Choice) {
    c.Tick? && p.pc.W? && p.pc.w.Bump?
  }

  /** The process that moves keeps its own part of the invariant. */
  lemma MoverKeepsTicketOk(v: Vehicle, m: Memory, p: Proc, c: Choice)
    requires WellLaid(v) && ShapedMem(v, m) && Shaped1(v, p) && Allowed(v, m, p, c)
    requires TicketOk(v, m, p) && LogOk(v, m.log, m.tickets) && m.tickets >= 1
    ensures var l := LocalStep(v, m, p, c); TicketOk(v, l.mem, l.proc)
  {
    StepDrawsTickets(v, m, p, c);
  }

  /** The memory packet a session is about to load is the committed one. */
  lemma LoadsCommitted(v: Vehicle, s: State, i: nat)
    requires Shaped(v, s) && MemInv(v, s) && PacketLocksInv(v, s) && i < |s.procs| && s.procs[i].pc.LockLoad?
    requires forall q :: 0 <= q < |s.procs| ==> JobOk(v, s.procs[q])
    ensures var k := s.procs[i].pc.k; s.mem.packets[k] == Content(s.mem.log, k, v.packets[k].size)
  {
    var k := s.procs[i].pc.k;
    if q :| 0 <= q < |s.procs| && Overwriting(s.procs[q].pc, k) {
      OneHolder(v, s, i, q, k);
    }
  }

  /** A process that does not move keeps its part too. */
  lemma BystanderKeepsOk(v: Vehicle, m: Memory, m': Memory, p: Proc, p': Proc)
    requires Shaped1(v, p) && Shaped1(v, p') && Bystander(p, p') && ProcOk(v, m, p)
    requires m'.log == m.log && m'.tickets >= m.tickets
    ensures ProcOk(v, m', p')
  {
  }

  lemma BystanderKeepsOkAtCommit(v: Vehicle, m: Memory, m': Memory, c: Commit, p: Proc)
    requires Shaped1(v, p) && ProcOk(v, m, p) && !p.pc.Copying?
    requires m'.log == m.log + [c] && m'.tickets == m.tickets
    requires !Holds(v, p.pc, c.packet)
    requires HasAll(p.pc) ==> !Lockable(v, c.packet)
    ensures ProcOk(v, m', p)
  {
    LogGrowsKeepsViewOk(v, m.log, c, p);
    LogGrowsKeepsSessionOk(v, m.log, c, p);
    CommitKeepsTicketOk(v, m, m', c, p);
  }

  // ---------------------------------------------------------------- every step keeps everything

  lemma MoverKeepsOk(v: Vehicle, s: State, e: Event)
    requires WellLaid(v) && Shaped(v, s) && Enabled(v, s, e) && Inv(v, s)
    ensures var l := LocalStep(v, s.mem, s.procs[e.pid], e.choice); ProcOk(v, l.mem, l.proc)
  {
    var p := s.procs[e.pid];
    if InRead(p.pc) {
      SettledForReaders(v, s, e.pid);
    }
    if p.pc.LockLoad? {
      LoadsCommitted(v, s, e.pid);
    }
    StepKeepsViewOk(v, s.mem, p, e.choice);
    StepKeepsSessionOk(v, s.mem, p, e.choice);
    MoverKeepsTicketOk(v, s.mem, p, e.choice);
  }

  /** Somebody else's commit. */
  lemma OthersCommitKeepsOk(v: Vehicle, s: State, i: nat, q: nat, m': Memory)
    requires Shaped(v, s) && LockInv(s) && PacketLocksInv(v, s) && i < |s.procs| && q < |s.procs| && q != i
    requires s.procs[i].pc.W? && s.procs[i].pc.w.Bump? && JobOk(v, s.procs[i]) && ProcOk(v, s.mem, s.procs[q])
    requires m'.log == s.mem.log + [CommitOf(s.procs[i], s.procs[i].pc.job)] && m'.tickets == s.mem.tickets
    ensures ProcOk(v, m', s.procs[q])
  {
    var p := s.procs[i];
    Exclusive(s, i, q);
    if Lockable(v, p.pc.job.packet) {
      OneHolder(v, s, i, q, p.pc.job.packet);
    }
    BystanderKeepsOkAtCommit(v, s.mem, m', CommitOf(p, p.pc.job), s.procs[q]);
  }

  lemma OthersKeepOk(v: Vehicle, s: State, e: Event, q: nat)
    requires WellLaid(v) && Shaped(v, s) && Enabled(v, s, e) && Inv(v, s) && q < |s.procs| && q != e.pid
    ensures var s' := Next(v, s, e); ProcOk(v, s'.mem, s'.procs[q])
  {
    var s', p := Next(v, s, e), s.procs[e.pid];
    assert ProcOk(v, s.mem, p) && ProcOk(v, s.mem, s.procs[q]);
    if Commits(p, e.choice) {
      OthersCommitKeepsOk(v, s, e.pid, q, s'.mem);
    } else {
      BystanderKeepsOk(v, s.mem, s'.mem, s.procs[q], s'.procs[q]);
    }
  }

  lemma NextKeepsLogOk(v: Vehicle, s: State, e: Event)
    requires WellLaid(v) && Shaped(v, s) && Enabled(v, s, e) && Inv(v, s)
    ensures var m := Next(v, s, e).mem; m.tickets >= 1 && LogOk(v, m.log, m.tickets)
  {
    if Commits(s.procs[e.pid], e.choice) {
      CommitKeepsLogOk(v, s.mem, s.procs[e.pid]);
    }
  }

  lemma NextKeepsInv(v: Vehicle, s: State, e: Event)
    requires WellLaid(v) && Shaped(v, s) && Enabled(v, s, e) && Inv(v, s)
    ensures Inv(v, Next(v, s, e))
  {
    NextKeepsLockInv(v, s, e);
    NextKeepsMemInv(v, s, e);
    NextKeepsPacketLocksInv(v, s, e);
    NextKeepsSleepInv(v, s, e);
    NextKeepsLogOk(v, s, e);
    MoverKeepsOk(v, s, e);
    forall q | 0 <= q < |s.procs| && q != e.pid
      ensures ProcOk(v, Next(v, s, e).mem, Next(v, s, e).procs[q])
    {
      OthersKeepOk(v, s, e, q);
    }
  }

  // ---------------------------------------------------------------- every run keeps everything

  lemma {:induction false} NobodyHolds(v: Vehicle, procs: seq<Proc>, n: nat, j: nat)
    requires n <= |procs| && forall q :: 0 <= q < |procs| ==> procs[q].pc.Idle?
    ensures Holders(v, procs, n, j) == 0
  {
    if n != 0 {
      NobodyHolds(v, procs, n - 1, j);
    }
  }

  lemma InitInv(v: Vehicle, count: nat)
    ensures Inv(v, Init(v, count))
  {
    var s := Init(v, count);
    InitLockInv(v, count);
    forall j | 0 <= j < |v.packets| {
      NobodyHolds(v, s.procs, count, j);
    }
  }

  lemma {:induction false} RunKeepsInv(v: Vehicle, s: State, run: seq<Event>)
    requires WellLaid(v) && Shaped(v, s) && Valid(v, s, run) && Inv(v, s)
    ensures Inv(v, Run(v, s, run))
    decreases |run|
  {
    if run != [] {
      NextKeepsInv(v, s, run[0]);
      RunKeepsInv(v, Next(v, s, run[0]), run[1..]);
    }
  }

  /** The state reached by a run of `count` processes from the freshly created memory. */
  function After(v: Vehicle, count: nat, run: seq<Event>): (s: State)
    requires WellLaid(v) && Valid(v, Init(v, count), run)
    ensures Shaped(v, s) && |s.procs| == count
  {
    Run(v, Init(v, count), run)
  }

  lemma ReachableInv(v: Vehicle, count: nat, run: seq<Event>)
    requires WellLaid(v) && Valid(v, Init(v, count), run)
    ensures Inv(v, After(v, count, run))
  {
    InitInv(v, count);
    RunKeepsInv(v, Init(v, count), run);
  }

  // ---------------------------------------------------------------- what a viewer sees

  lemma FlagsAreExact(v: Vehicle, m: Memory, p: Proc, j: nat)
    requires ShapedMem(v, m) && Shaped1(v, p) && NoncesOk(v, m.log, p) && Settled(v, m)
    requires p.pc == R(RCheck) && j < |v.packets|
    ensures var p' := CheckStep(v, m, p);
      p'.pc.Copying? ==> (p'.view.updated[j] <==> (p.checkAll || j in p.ids) && WrittenSince(m.log, p.seen[j], j))
  {
    FlagMeansWritten(v, m, p, j);
  }

  /** The flags of an update are exact: at the check that lets a read lock succeed, a packet
      is flagged if and only if it was written since this process last refreshed it - for the
      listed form, if it is also listed. */
  lemma UpdatedIsExact(v: Vehicle, count: nat, run: seq<Event>, i: nat, j: nat)
    requires WellLaid(v) && Valid(v, Init(v, count), run) && i < count && j < |v.packets|
    requires After(v, count, run).procs[i].pc == R(RCheck)
    ensures var s := After(v, count, run); var p := s.procs[i]; var p' := CheckStep(v, s.mem, p);
      p'.pc.Copying? ==>
        (p'.view.updated[j] <==> (p.checkAll || j in p.ids) && WrittenSince(s.mem.log, p.seen[j], j))
  {
    ReachableInv(v, count, run);
    var s := After(v, count, run);
    SettledForReaders(v, s, i);
    FlagsAreExact(v, s.mem, s.procs[i], j);
  }

  lemma NothingNewBlocks(v: Vehicle, m: Memory, p: Proc)
    requires ShapedMem(v, m) && Shaped1(v, p) && NoncesOk(v, m.log, p) && Settled(v, m) && !p.usedList
    requires forall k :: 0 <= k < |m.log| ==> m.log[k].packet < |v.packets|
    requires p.pc == R(RCheck) && p.checkAll && !p.mode.Standard?
    ensures var p' := CheckStep(v, m, p);
      && (p'.pc.Copying? <==> |m.log| > p.synced)
      && (p'.pc.Copying? ==> exists j :: 0 <= j < |v.packets| && p'.view.updated[j])
  {
    ChangeIsFlagged(v, m, p);
    if |m.log| > p.synced {
      assert CheckStep(v, m, p).view == RefreshAll(p.view, m.nonce, m.nonces);
    }
  }

  /** A process that only ever takes the all-packets lock gets in exactly when something was
      written since its previous success, and is then shown at least one flag; what it was last
      shown of each packet is what its previous success showed. */
  lemma BlocksExactlyWhenNothingNew(v: Vehicle, count: nat, run: seq<Event>, i: nat)
    requires WellLaid(v) && Valid(v, Init(v, count), run) && i < count
    requires var p := After(v, count, run).procs[i];
      p.pc == R(RCheck) && p.checkAll && !p.usedList && !p.mode.Standard?
    ensures var s := After(v, count, run); var p := s.procs[i]; var p' := CheckStep(v, s.mem, p);
      && (p'.pc.Copying? <==> |s.mem.log| > p.synced)
      && (p'.pc.Copying? ==> exists j :: 0 <= j < |v.packets| && p'.view.updated[j])
      && (forall j :: 0 <= j < |v.packets| ==> p.seen[j] == p.synced)
  {
    ReachableInv(v, count, run);
    var s := After(v, count, run);
    SettledForReaders(v, s, i);
    NothingNewBlocks(v, s.mem, s.procs[i]);
  }

  /** The selective copy is exact: after a successful update every tracked buffer is the whole
      packet as it stood at one common instant, although unflagged packets were not copied. */
  lemma UpdateIsSnapshot(v: Vehicle, count: nat, run: seq<Event>, i: nat, j: nat)
    requires WellLaid(v) && Valid(v, Init(v, count), run) && i < count
    requires var p := After(v, count, run).procs[i]; p.pc.Idle? && p.outcome.Success? && j in p.ids
    ensures var s := After(v, count, run); var p := s.procs[i];
      j < |v.packets| && p.synced <= |s.mem.log| && p.buffers[j] == ContentAt(v, s.mem.log, p.synced, j)
  {
    ReachableInv(v, count, run);
    var p := After(v, count, run).procs[i];
    assert ViewOk(v, After(v, count, run).mem.log, p);
    assert !StillToCopy(p, j);
  }

  // ---------------------------------------------------------------- sleeping

  /** No lost wake-up: if a process is asleep and a waking write that it waits for has happened
      since it looked, then that is the last write of all and its wake call is still to come. */
  lemma NoLostWakeup(v: Vehicle, count: nat, run: seq<Event>, i: nat, k: nat)
    requires WellLaid(v) && Valid(v, Init(v, count), run) && i < count
    requires var s := After(v, count, run);
      && s.procs[i].pc.Asleep? && k < |s.mem.log| && s.procs[i].view.lastNonce <= k + 1
      && s.mem.log[k].wakes && Covers(s.procs[i], s.mem.log[k].packet)
    ensures var s := After(v, count, run); k == |s.mem.log| - 1 && WakePending(s, s.mem.log[k].packet)
  {
    ReachableInv(v, count, run);
    assert SleepOk(After(v, count, run), After(v, count, run).procs[i]);
  }

  /** Whoever is about to wake sleepers made the last write, and that one does wake. */
  lemma PendingIsLast(v: Vehicle, s: State, j: nat)
    requires Shaped(v, s) && MemInv(v, s) && WakePending(s, j)
    ensures s.mem.log != [] && s.mem.log[|s.mem.log| - 1].packet == j && s.mem.log[|s.mem.log| - 1].wakes
    ensures LastWakes(s.mem.log, j)
  {
    var w :| 0 <= w < |s.procs| && AboutToWake(s.procs[w].pc, j);
    assert Progress(s.mem, s.procs[w]);
    assert PacketNonce(s.mem.log, j) == |s.mem.log| + 1;
  }

  /** The same in terms of the nonces, for the all-packets form: while a sleeper's master nonce is
      not the shared one, some wake call is still to come, exactly if the last write was no `clear`. */
  lemma NoLostWakeupAll(v: Vehicle, count: nat, run: seq<Event>, i: nat)
    requires WellLaid(v) && Valid(v, Init(v, count), run) && i < count
    requires var s := After(v, count, run);
      s.procs[i].pc.Asleep? && s.procs[i].checkAll && s.procs[i].view.lastNonce != s.mem.nonce
    ensures var s := After(v, count, run);
      s.mem.log != [] && ((exists j :: WakePending(s, j)) <==> s.mem.log[|s.mem.log| - 1].wakes)
  {
    ReachableInv(v, count, run);
    var s := After(v, count, run);
    assert ProcOk(v, s.mem, s.procs[i]) && SleepOk(s, s.procs[i]);
    var last := s.mem.log[|s.mem.log| - 1];
    if last.wakes {
      assert WakePending(s, last.packet);
    } else if j :| WakePending(s, j) {
      PendingIsLast(v, s, j);
    }
  }

  /** If a listed packet has a newer nonce, it was written since the sleeper looked. */
  lemma ListedNews(v: Vehicle, log: seq<Commit>, p: Proc, j: nat) returns (k: nat)
    requires Shaped1(v, p) && NoncesOk(v, log, p) && p.pc.Asleep? && !p.checkAll && j in p.ids && j < |v.packets|
    requires PacketNonce(log, j) != p.view.lastNonces[j]
    ensures p.view.lastNonce <= k + 1 && k < |log| && log[k].packet == j
  {
    NonceTellsWrites(log, p.view.lastNonce - 1, j);
    var t :| 0 <= t < |p.ids| && p.ids[t] == j;
    k :| p.view.lastNonce - 1 <= k < |log| && log[k].packet == j;
  }

  lemma LastWriteIsPending(s: State, p: Proc, j: nat, k: nat)
    requires SleepOk(s, p) && p.pc.Asleep? && Covers(p, j) && LastWakes(s.mem.log, j)
    requires k < |s.mem.log| && s.mem.log[k].packet == j && p.view.lastNonce <= k + 1
    ensures WakePending(s, j)
  {
    NonceOfLastWrite(s.mem.log, j, k);
    assert s.mem.log[PacketNonce(s.mem.log, j) - 2].wakes;
  }

  /** The same in terms of the nonces, for the listed form: a sleeper whose listed packet has a
      newer nonce, if it waits on that packet's bit, has a wake call for it still to come, exactly
      if the last write of that packet was no `clear`. */
  lemma NoLostWakeupListed(v: Vehicle, s: State, i: nat, j: nat)
    requires WellLaid(v) && Shaped(v, s) && Inv(v, s) && i < |s.procs|
    requires var p := s.procs[i]; p.pc.Asleep? && !p.checkAll && j in p.ids && Covers(p, j)
    requires j < |v.packets| && PacketNonce(s.mem.log, j) != s.procs[i].view.lastNonces[j]
    ensures WakePending(s, j) <==> LastWakes(s.mem.log, j)
  {
    assert ProcOk(v, s.mem, s.procs[i]) && SleepOk(s, s.procs[i]);
    var k := ListedNews(v, s.mem.log, s.procs[i], j);
    if WakePending(s, j) {
      PendingIsLast(v, s, j);
    } else if LastWakes(s.mem.log, j) {
      LastWriteIsPending(s, s.procs[i], j, k);
    }
  }

  // ---------------------------------------------------------------- sessions

  /** No lost updates: whenever nobody is in the middle of a write, every virtual packet holds
      what running the sessions one after another, in the order of their tickets, would give. */
  lemma SessionsSerialise(v: Vehicle, count: nat, run: seq<Event>, j: nat)
    requires WellLaid(v) && Valid(v, Init(v, count), run) && Lockable(v, j)
    requires forall q :: 0 <= q < count ==> !InWrite(After(v, count, run).procs[q].pc)
    ensures var m := After(v, count, run).mem;
      m.packets[j] == Replay(Zeros(v.packets[j].size), InOrder(v, m.log, m.tickets), j)
  {
    ReachableInv(v, count, run);
    var m := After(v, count, run).mem;
    OrderIsHistory(v, m.log, m.tickets);
    ReplayIsContent(v, m.log, m.tickets, j);
  }

  lemma BumpWritesOwnEdits(v: Vehicle, m: Memory, p: Proc)
    requires ShapedMem(v, m) && Shaped1(v, p) && SessionOk(v, m.log, p)
    requires p.pc.W? && p.pc.w.Bump? && p.pc.job.ret.ToFlush? && Progress(m, p)
    ensures var j := p.pc.job.packet;
      Lockable(v, j) && m.packets[j] == PatchAll(Content(m.log, j, v.packets[j].size), p.pending[j])
  {
  }

  /** A flush never undoes bytes of another session: what it writes to a packet is the packet
      as last committed with this session's own pending edits applied. */
  lemma FlushWritesOwnEdits(v: Vehicle, count: nat, run: seq<Event>, i: nat)
    requires WellLaid(v) && Valid(v, Init(v, count), run) && i < count
    requires var pc := After(v, count, run).procs[i].pc; pc.W? && pc.w.Bump? && pc.job.ret.ToFlush?
    ensures var s := After(v, count, run); var p := s.procs[i]; var j := p.pc.job.packet;
      && Lockable(v, j)
      && s.mem.packets[j] == PatchAll(Content(s.mem.log, j, v.packets[j].size), p.pending[j])
  {
    ReachableInv(v, count, run);
    var s := After(v, count, run);
    assert Progress(s.mem, s.procs[i]) && ProcOk(v, s.mem, s.procs[i]);
    BumpWritesOwnEdits(v, s.mem, s.procs[i]);
  }
}
