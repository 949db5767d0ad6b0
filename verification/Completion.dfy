/** Sessions and calls of `add_all` that nobody stands in the way of come to their end, and so every
    number can be brought from one process to another. */
module Completion {
  import opened Wrappers
  import opened Bytes
  import opened Layout
  import opened Convert
  import opened History
  import opened Protocol
  import opened Viewing
  import opened Sessions
  import opened Telemetry
  import opened Story
  import opened Solo
  import opened Updating
  import opened Flushing
  import opened EndToEnd

  // ---------------------------------------------------------------- opening a session

  ghost predicate OthersHoldNone(s: State, w: nat) {
    w < |s.procs| && forall q :: 0 <= q < |s.procs| && q != w ==> HoldsNone(s.procs[q].pc)
  }

  lemma {:induction false} NoOtherHolders(v: Vehicle, procs: seq<Proc>, n: nat, j: nat, w: nat)
    requires n <= |procs| && forall q :: 0 <= q < |procs| && q != w ==> HoldsNone(procs[q].pc)
    ensures HoldersBut(v, procs, n, j, w) == 0
  {
    if n != 0 {
      NoOtherHolders(v, procs, n - 1, j, w);
    }
  }

  /** The lock it comes to is free. */
  lemma LockIsFree(v: Vehicle, s: State, w: nat)
    requires Shaped(v, s) && PacketLocksInv(v, s) && OthersHoldNone(s, w) && Locking(s.procs[w].pc)
    ensures Ready(v, s.mem, s.procs[w])
  {
    var p := s.procs[w];
    if p.pc.LockTake? && Lockable(v, p.pc.k) {
      NoOtherHolders(v, s.procs, |s.procs|, p.pc.k, w);
      HoldersApart(v, s.procs, |s.procs|, p.pc.k, w);
    }
  }

  function TakesLeft(v: Vehicle, pc: Pc): nat {
    match pc
    case LockTake(k) => if k <= |v.packets| then 2 * (|v.packets| - k) + 2 else 0
    case LockLoad(k) => if k <= |v.packets| then 2 * (|v.packets| - k) + 1 else 0
    case _ => 0
  }

  lemma TakeStep(v: Vehicle, m: Memory, p: Proc)
    requires WellLaid(v) && ShapedMem(v, m) && Shaped1(v, p) && Ready(v, m, p) && Locking(p.pc)
    ensures var l := LocalStep(v, m, p, Tick);
      SameData(m, l.mem) && (Locking(l.proc.pc) || l.proc.pc.Hold?) && TakesLeft(v, l.proc.pc) < TakesLeft(v, p.pc)
  {
  }

  /** The call so far. */
  ghost predicate TakesSoFar(v: Vehicle, s: State, w: nat, n: nat, t: State)
    requires WellLaid(v) && Shaped(v, s) && w < |s.procs|
  {
    && Reaches(v, s, w, Session, n, t) && SameData(s.mem, t.mem)
    && (Locking(t.procs[w].pc) || t.procs[w].pc.Hold?)
  }

  lemma StillHoldNone(s: State, t: State, w: nat)
    requires OthersHoldNone(s, w) && OthersStay(s, t, w)
    ensures OthersHoldNone(t, w)
  {
  }

  lemma TakeGoesOn(v: Vehicle, s: State, w: nat, n: nat, t: State)
    requires WellLaid(v) && Shaped(v, s) && Shaped(v, t) && OthersHoldNone(s, w) && TakesSoFar(v, s, w, n, t)
    requires !t.procs[w].pc.Hold?
    ensures Enabled(v, t, Event(w, Tick))
    ensures var t' := Next(v, t, Event(w, Tick));
      TakesSoFar(v, s, w, n + 1, t') && TakesLeft(v, t'.procs[w].pc) < TakesLeft(v, t.procs[w].pc)
  {
    StillHoldNone(s, t, w);
    LockIsFree(v, t, w);
    CallGoesOn(v, s, w, Session, n, t);
    TakeStep(v, t.mem, t.procs[w]);
  }

  lemma {:induction false} TakeEnds(v: Vehicle, s: State, w: nat, n: nat, t: State) returns (k: nat, u: State)
    requires WellLaid(v) && Shaped(v, s) && Shaped(v, t) && OthersHoldNone(s, w) && TakesSoFar(v, s, w, n, t)
    ensures Shaped(v, u) && TakesSoFar(v, s, w, k, u) && u.procs[w].pc.Hold?
    decreases TakesLeft(v, t.procs[w].pc)
  {
    if t.procs[w].pc.Hold? {
      k, u := n, t;
    } else {
      TakeGoesOn(v, s, w, n, t);
      k, u := TakeEnds(v, s, w, n + 1, Next(v, t, Event(w, Tick)));
    }
  }

  /** A call of `lock`: it comes to hold all locks, without changing any packet. */
  lemma SessionOpens(v: Vehicle, s: State, w: nat) returns (n: nat, t: State)
    requires WellLaid(v) && Shaped(v, s) && Inv(v, s) && OthersOutside(s, w) && OthersHoldNone(s, w)
    requires s.procs[w].pc.Idle?
    ensures Shaped(v, t) && Reaches(v, s, w, Session, n, t) && SameData(s.mem, t.mem) && t.procs[w].pc.Hold?
  {
    CallBegins(v, s, w, Session);
    n, t := TakeEnds(v, s, w, 0, Next(v, s, Event(w, Session)));
  }

  // ---------------------------------------------------------------- flushing

  /** Writes that are still to be committed, at most. */
  function Owed(v: Vehicle, p: Proc): int {
    match p.pc
    case Flush(k) => |v.packets| - k
    case W(w, job) => if Past(p, job.packet) then |v.packets| - job.packet - 1 else |v.packets| - job.packet
    case FlushDone(k) => |v.packets| - k - 1
    case _ => 0
  }

  function PacketsLeft(v: Vehicle, pc: Pc): nat {
    var k := match pc case Flush(k) => k case W(_, job) => job.packet case FlushDone(k) => k case _ => |v.packets|;
    if k <= |v.packets| then |v.packets| - k else 0
  }

  function StepsLeft(p: Proc): nat {
    match p.pc
    case Flush(k) => if k < |p.drafts.buffers| then |p.drafts.buffers[k]| + 17 else 1
    case W(w, job) => Left(job, w) + 1
    case _ => 0
  }

  predicate LessLeft(v: Vehicle, p: Proc, p': Proc) {
    || PacketsLeft(v, p'.pc) < PacketsLeft(v, p.pc)
    || (PacketsLeft(v, p'.pc) == PacketsLeft(v, p.pc) && StepsLeft(p') < StepsLeft(p))
  }

  lemma WriteHasLess(v: Vehicle, m: Memory, p: Proc)
    requires ShapedMem(v, m) && Shaped1(v, p) && Ready(v, m, p) && p.pc.W? && HasAll(p.pc)
    ensures var p' := WriteStep(v, m, p).proc; HasAll(p'.pc) && LessLeft(v, p, p')
  {
    WriteMovesOn(v, m, p);
  }

  lemma WriteOwesLess(v: Vehicle, m: Memory, p: Proc)
    requires ShapedMem(v, m) && Shaped1(v, p) && Ready(v, m, p) && p.pc.W? && HasAll(p.pc)
    ensures var l := WriteStep(v, m, p); |l.mem.log| + Owed(v, l.proc) <= |m.log| + Owed(v, p)
  {
  }

  lemma FlushLoopStep(v: Vehicle, m: Memory, p: Proc)
    requires ShapedMem(v, m) && Shaped1(v, p) && Ready(v, m, p) && (p.pc.Flush? || p.pc.FlushDone?)
    ensures var l := SessionStep(v, m, p);
      HasAll(l.proc.pc) && LessLeft(v, p, l.proc) && |l.mem.log| + Owed(v, l.proc) <= |m.log| + Owed(v, p)
  {
  }

  lemma FlushingStep(v: Vehicle, m: Memory, p: Proc)
    requires WellLaid(v) && ShapedMem(v, m) && Shaped1(v, p) && Ready(v, m, p) && HasAll(p.pc)
    ensures var l := LocalStep(v, m, p, Tick);
      HasAll(l.proc.pc) && LessLeft(v, p, l.proc) && |l.mem.log| + Owed(v, l.proc) <= |m.log| + Owed(v, p)
  {
    if p.pc.W? {
      WriteHasLess(v, m, p);
      WriteOwesLess(v, m, p);
    } else {
      FlushLoopStep(v, m, p);
    }
  }

  /** The call so far. */
  ghost predicate FlushesSoFar(v: Vehicle, s: State, w: nat, n: nat, t: State)
    requires WellLaid(v) && Shaped(v, s) && w < |s.procs|
  {
    && Reaches(v, s, w, FlushAll, n, t) && HasAll(t.procs[w].pc)
    && |t.mem.log| + Owed(v, t.procs[w]) <= |s.mem.log| + |v.packets|
  }

  lemma FlushGoesOn(v: Vehicle, s: State, w: nat, n: nat, t: State)
    requires WellLaid(v) && Shaped(v, s) && Shaped(v, t) && w < |s.procs| && FlushesSoFar(v, s, w, n, t)
    requires !t.procs[w].pc.Hold?
    ensures Enabled(v, t, Event(w, Tick))
    ensures var t' := Next(v, t, Event(w, Tick));
      FlushesSoFar(v, s, w, n + 1, t') && LessLeft(v, t.procs[w], t'.procs[w])
  {
    if t.procs[w].pc.W? {
      AloneIsReady(v, t, w);
    }
    CallGoesOn(v, s, w, FlushAll, n, t);
    FlushingStep(v, t.mem, t.procs[w]);
  }

  lemma {:induction false} FlushEnds(v: Vehicle, s: State, w: nat, n: nat, t: State) returns (k: nat, u: State)
    requires WellLaid(v) && Shaped(v, s) && Shaped(v, t) && w < |s.procs| && FlushesSoFar(v, s, w, n, t)
    ensures Shaped(v, u) && FlushesSoFar(v, s, w, k, u) && u.procs[w].pc.Hold?
    decreases PacketsLeft(v, t.procs[w].pc), StepsLeft(t.procs[w])
  {
    if t.procs[w].pc.Hold? {
      k, u := n, t;
    } else {
      FlushGoesOn(v, s, w, n, t);
      k, u := FlushEnds(v, s, w, n + 1, Next(v, t, Event(w, Tick)));
    }
  }

  lemma FlushedAfter(v: Vehicle, s: State, w: nat, n: nat, t: State)
    requires WellLaid(v) && Shaped(v, s) && w < |s.procs| && Leads(v, s, w, FlushAll, n, t) && t.procs[w].pc.Hold?
    ensures Flushed(t.procs[w])
  {
    FlushLeavesNoMark(v, s, CallRun(w, FlushAll, n), w);
  }

  /** A call of `flush`: it ends with no packet marked, after at most one write of each packet. */
  lemma FlushCompletes(v: Vehicle, s: State, w: nat) returns (n: nat, t: State)
    requires WellLaid(v) && Shaped(v, s) && Inv(v, s) && OthersOutside(s, w) && s.procs[w].pc.Hold?
    ensures Shaped(v, t) && Reaches(v, s, w, FlushAll, n, t) && Flushed(t.procs[w])
    ensures |t.mem.log| <= |s.mem.log| + |v.packets|
  {
    CallBegins(v, s, w, FlushAll);
    n, t := FlushEnds(v, s, w, 0, Next(v, s, Event(w, FlushAll)));
    FlushedAfter(v, s, w, n, t);
  }

  // ---------------------------------------------------------------- closing a session

  function GivesLeft(v: Vehicle, pc: Pc): nat {
    if pc.Unlock? && pc.k <= |v.packets| then |v.packets| - pc.k + 1 else 0
  }

  /** The call so far. */
  ghost predicate GivesSoFar(v: Vehicle, s: State, w: nat, n: nat, t: State)
    requires WellLaid(v) && Shaped(v, s) && w < |s.procs|
  {
    && Reaches(v, s, w, EndSession, n, t) && SameData(s.mem, t.mem)
    && (t.procs[w].pc.Unlock? || t.procs[w].pc.Idle?)
  }

  lemma GiveStep(v: Vehicle, m: Memory, p: Proc)
    requires WellLaid(v) && ShapedMem(v, m) && Shaped1(v, p) && Ready(v, m, p) && p.pc.Unlock?
    ensures var l := LocalStep(v, m, p, Tick);
      SameData(m, l.mem) && (l.proc.pc.Unlock? || l.proc.pc.Idle?) && GivesLeft(v, l.proc.pc) < GivesLeft(v, p.pc)
  {
  }

  lemma GiveGoesOn(v: Vehicle, s: State, w: nat, n: nat, t: State)
    requires WellLaid(v) && Shaped(v, s) && Shaped(v, t) && w < |s.procs| && GivesSoFar(v, s, w, n, t)
    requires t.procs[w].pc.Unlock?
    ensures var t' := Next(v, t, Event(w, Tick));
      GivesSoFar(v, s, w, n + 1, t') && GivesLeft(v, t'.procs[w].pc) < GivesLeft(v, t.procs[w].pc)
  {
    CallGoesOn(v, s, w, EndSession, n, t);
    GiveStep(v, t.mem, t.procs[w]);
  }

  lemma {:induction false} GiveEnds(v: Vehicle, s: State, w: nat, n: nat, t: State) returns (k: nat, u: State)
    requires WellLaid(v) && Shaped(v, s) && Shaped(v, t) && w < |s.procs| && GivesSoFar(v, s, w, n, t)
    ensures Shaped(v, u) && GivesSoFar(v, s, w, k, u) && u.procs[w].pc.Idle?
    decreases GivesLeft(v, t.procs[w].pc)
  {
    if t.procs[w].pc.Idle? {
      k, u := n, t;
    } else {
      GiveGoesOn(v, s, w, n, t);
      k, u := GiveEnds(v, s, w, n + 1, Next(v, t, Event(w, Tick)));
    }
  }

  predicate AllFree(v: Vehicle, m: Memory) {
    forall j :: 0 <= j < |v.packets| && j < |m.locks| && Lockable(v, j) ==> m.locks[j] == 1
  }

  lemma LocksAreFree(v: Vehicle, s: State, w: nat)
    requires Shaped(v, s) && PacketLocksInv(v, s) && OthersHoldNone(s, w) && HoldsNone(s.procs[w].pc)
    ensures AllFree(v, s.mem)
  {
    forall j | 0 <= j < |v.packets| && Lockable(v, j)
      ensures s.mem.locks[j] == 1
    {
      NoOtherHolders(v, s.procs, |s.procs|, j, w);
      HoldersApart(v, s.procs, |s.procs|, j, w);
    }
  }

  lemma CloseBegins(v: Vehicle, s: State, w: nat)
    requires WellLaid(v) && Shaped(v, s) && Inv(v, s) && OthersOutside(s, w) && s.procs[w].pc.Hold?
    ensures GivesSoFar(v, s, w, 0, Next(v, s, Event(w, EndSession)))
  {
    CallBegins(v, s, w, EndSession);
  }

  /** A call of `unlock` comes to its end without changing any packet. */
  lemma SessionCloses(v: Vehicle, s: State, w: nat) returns (n: nat, t: State)
    requires WellLaid(v) && Shaped(v, s) && Inv(v, s) && OthersOutside(s, w) && s.procs[w].pc.Hold?
    ensures Shaped(v, t) && Reaches(v, s, w, EndSession, n, t) && SameData(s.mem, t.mem) && t.procs[w].pc.Idle?
  {
    CloseBegins(v, s, w);
    n, t := GiveEnds(v, s, w, 0, Next(v, s, Event(w, EndSession)));
  }

  /** If no other session was open, all locks are free then. */
  lemma ClosedIsFree(v: Vehicle, s: State, w: nat) returns (n: nat, t: State)
    requires WellLaid(v) && Shaped(v, s) && Inv(v, s) && OthersOutside(s, w) && s.procs[w].pc.Hold?
    requires OthersHoldNone(s, w)
    ensures Shaped(v, t) && Reaches(v, s, w, EndSession, n, t) && t.procs[w].pc.Idle? && AllFree(v, t.mem)
  {
    n, t := SessionCloses(v, s, w);
    StillHoldNone(s, t, w);
    LocksAreFree(v, t, w);
  }

  // ---------------------------------------------------------------- adding all packets

  function AddsLeft(v: Vehicle, pc: Pc): nat {
    if pc.Adding? && pc.k <= |v.packets| then |v.packets| - pc.k + 1 else 0
  }

  /** The call so far. */
  ghost predicate AddsSoFar(v: Vehicle, s: State, r: nat, n: nat, t: State)
    requires WellLaid(v) && Shaped(v, s) && r < |s.procs|
  {
    && Reaches(v, s, r, AddAll, n, t) && SameData(s.mem, t.mem) && t.procs[r].checkAll
    && (t.procs[r].pc.Adding? || t.procs[r].pc.Idle?)
  }

  lemma AddStep(v: Vehicle, m: Memory, p: Proc)
    requires WellLaid(v) && ShapedMem(v, m) && Shaped1(v, p) && Ready(v, m, p) && p.pc.Adding? && p.checkAll
    ensures var l := LocalStep(v, m, p, Tick);
      && SameData(m, l.mem) && l.proc.checkAll && (l.proc.pc.Adding? || l.proc.pc.Idle?)
      && AddsLeft(v, l.proc.pc) < AddsLeft(v, p.pc)
  {
  }

  lemma AddGoesOn(v: Vehicle, s: State, r: nat, n: nat, t: State)
    requires WellLaid(v) && Shaped(v, s) && Shaped(v, t) && r < |s.procs| && AddsSoFar(v, s, r, n, t)
    requires t.procs[r].pc.Adding?
    ensures var t' := Next(v, t, Event(r, Tick));
      AddsSoFar(v, s, r, n + 1, t') && AddsLeft(v, t'.procs[r].pc) < AddsLeft(v, t.procs[r].pc)
  {
    CallGoesOn(v, s, r, AddAll, n, t);
    AddStep(v, t.mem, t.procs[r]);
  }

  lemma {:induction false} AddEnds(v: Vehicle, s: State, r: nat, n: nat, t: State) returns (k: nat, u: State)
    requires WellLaid(v) && Shaped(v, s) && Shaped(v, t) && r < |s.procs| && AddsSoFar(v, s, r, n, t)
    ensures Shaped(v, u) && AddsSoFar(v, s, r, k, u) && u.procs[r].pc.Idle?
    decreases AddsLeft(v, t.procs[r].pc)
  {
    if t.procs[r].pc.Idle? {
      k, u := n, t;
    } else {
      AddGoesOn(v, s, r, n, t);
      k, u := AddEnds(v, s, r, n + 1, Next(v, t, Event(r, Tick)));
    }
  }

  predicate TracksEverything(v: Vehicle, p: Proc) {
    forall j :: 0 <= j < |v.packets| ==> j in p.ids
  }

  /** A call of `add_all`: every packet is tracked after it. */
  lemma AddsAll(v: Vehicle, s: State, r: nat) returns (n: nat, t: State)
    requires WellLaid(v) && Shaped(v, s) && Inv(v, s) && OthersOutside(s, r) && s.procs[r].pc.Idle?
    ensures Shaped(v, t) && Reaches(v, s, r, AddAll, n, t) && SameData(s.mem, t.mem) && t.procs[r].pc.Idle?
    ensures TracksEverything(v, t.procs[r])
  {
    CallBegins(v, s, r, AddAll);
    n, t := AddEnds(v, s, r, 0, Next(v, s, Event(r, AddAll)));
    assert ProcOk(v, t.mem, t.procs[r]);
  }

  // ---------------------------------------------------------------- a write and its flush

  /** The write of a measurement and a flush of `n` steps. */
  function Tail(w: nat, i: nat, data: seq<byte>, n: nat): (run: seq<Event>)
    ensures |run| == n + 2
  {
    CallRun(w, WriteMeas(i, data), 0) + CallRun(w, FlushAll, n)
  }

  lemma TailWrites(front: seq<Event>, w: nat, i: nat, data: seq<byte>, n: nat)
    ensures WritesAndFlushes(front + Tail(w, i, data, n), w, i, data, |front|, |front| + 1)
  {
    var tail := Tail(w, i, data, n);
    assert tail[0] == Event(w, WriteMeas(i, data)) && tail[1] == Event(w, FlushAll);
    assert forall k :: 1 < k < |tail| ==> tail[k] == Event(w, Tick);
    assert forall k :: 0 <= k < |tail| ==> (front + tail)[|front| + k] == tail[k];
  }

  /** Everybody is outside the protocol. */
  ghost predicate AllOutside(s: State) {
    forall q :: 0 <= q < |s.procs| ==> Outside(s.procs[q].pc)
  }

  /** An open session writes the measurement and flushes it. */
  lemma WriteCompletes(v: Vehicle, s: State, w: nat, i: nat, data: seq<byte>) returns (n: nat, t: State)
    requires WellLaid(v) && Shaped(v, s) && Inv(v, s) && OthersOutside(s, w) && s.procs[w].pc.Hold?
    requires i < |v.measurements| && |data| == v.measurements[i].size
    ensures Valid(v, s, Tail(w, i, data, n)) && t == Run(v, s, Tail(w, i, data, n)) && Shaped(v, t) && Inv(v, t)
    ensures AllOutside(t) && OthersStay(s, t, w) && t.procs[w].pc.Hold?
    ensures |t.mem.log| <= |s.mem.log| + |v.packets|
  {
    CallBegins(v, s, w, WriteMeas(i, data));
    var u := Next(v, s, Event(w, WriteMeas(i, data)));
    n, t := FlushCompletes(v, u, w);
    OthersStayOn(s, u, t, w);
    LeadsTwice(v, s, w, WriteMeas(i, data), 0, u, w, FlushAll, n, t);
  }

  /** A process that has nothing to do does nothing meanwhile. */
  lemma IdleStays(s: State, t: State, w: nat, r: nat)
    requires OthersStay(s, t, w) && r < |s.procs| && r != w && s.procs[r].pc.Idle?
    ensures t.procs[r] == s.procs[r]
  {
  }

  /** Nobody is inside the protocol or has a session open, and processes `w` and `r` are idle. */
  ghost predicate Calm(s: State, w: nat, r: nat) {
    && w != r && w < |s.procs| && r < |s.procs| && s.procs[w].pc.Idle? && s.procs[r].pc.Idle?
    && AllOutside(s) && forall q :: 0 <= q < |s.procs| ==> HoldsNone(s.procs[q].pc)
  }

  /** Process `w` opens a session, writes and flushes. */
  lemma SessionWrites(v: Vehicle, s: State, w: nat, r: nat, i: nat, data: seq<byte>)
      returns (front: seq<Event>, u: State, n: nat, t: State)
    requires WellLaid(v) && Shaped(v, s) && Inv(v, s) && Calm(s, w, r)
    requires i < |v.measurements| && |data| == v.measurements[i].size
    ensures Valid(v, s, front) && u == Run(v, s, front) && Shaped(v, u) && w < |u.procs| && u.mem.log == s.mem.log
    ensures Valid(v, u, Tail(w, i, data, n)) && t == Run(v, u, Tail(w, i, data, n)) && Shaped(v, t) && Inv(v, t)
    ensures AllOutside(t) && |t.procs| == |s.procs| && t.procs[w].pc.Hold? && t.procs[r].pc.Idle?
    ensures |t.mem.log| <= |s.mem.log| + |v.packets|
  {
    var k;
    k, u := SessionOpens(v, s, w);
    front := CallRun(w, Session, k);
    IdleStays(s, u, w, r);
    n, t := WriteCompletes(v, u, w, i, data);
    IdleStays(u, t, w, r);
  }

  // ---------------------------------------------------------------- an update of everything

  /** Process `r` adds all packets and updates. */
  lemma ReadsAll(v: Vehicle, s: State, r: nat) returns (later: seq<Event>, t: State)
    requires WellLaid(v) && Shaped(v, s) && Inv(v, s) && AllOutside(s) && r < |s.procs| && s.procs[r].pc.Idle?
    ensures Valid(v, s, later) && t == Run(v, s, later) && Shaped(v, t) && Inv(v, t) && SameData(s.mem, t.mem)
    ensures |t.procs| == |s.procs| && JustUpdated(t.procs[r]) && t.procs[r].synced == |t.mem.log|
    ensures TracksEverything(v, t.procs[r])
  {
    var n, u := AddsAll(v, s, r);
    var k;
    k, t := UpdateEnds(v, u, r, Standard);
    later := CallRun(r, AddAll, n) + CallRun(r, Update(Standard), k);
    LeadsTwice(v, s, r, AddAll, n, u, r, Update(Standard), k, t);
  }

  /** A packet written among the last `INT_MAX` writes is recent. */
  lemma WrittenIsRecent(v: Vehicle, log: seq<Commit>, p: Proc, m: nat, n: nat)
    requires WellLaid(v) && m < |v.measurements| && OnlyVirtual(v, m) && p.synced == |log| <= n + INT_MAX
    requires WrittenSince(log, n, v.measurements[m].locations[0].packet)
    ensures Recent(v, log, p, m)
  {
    var j := v.measurements[m].locations[0].packet;
    assert log[..|log|] == log && Stored(v, m, 0);
    var k :| n <= k < |log| && log[k].packet == j;
    NonceOfLastWrite(log, j, k);
    assert NonceAt(v, log, p, m, 0) >= k + 2;
  }

  lemma HasReadAll(v: Vehicle, t: State, r: nat, m: nat, n: nat)
    requires WellLaid(v) && r < |t.procs| && m < |v.measurements| && OnlyVirtual(v, m)
    requires JustUpdated(t.procs[r]) && t.procs[r].synced == |t.mem.log| <= n + INT_MAX
    requires TracksEverything(v, t.procs[r])
    requires WrittenSince(t.mem.log, n, v.measurements[m].locations[0].packet)
    ensures HasRead(v, |t.mem.log|, t, r, m)
  {
    WrittenIsRecent(v, t.mem.log, t.procs[r], m, n);
  }

  // ---------------------------------------------------------------- from one process to another

  /** The write reaches the packets of the measurement. */
  lemma TailReachesPacket(v: Vehicle, s: State, w: nat, m: nat, data: seq<byte>, n: nat)
    requires WellLaid(v) && Shaped(v, s) && w < |s.procs| && m < |v.measurements| && OnlyVirtual(v, m)
    requires Valid(v, s, Tail(w, m, data, n)) && Run(v, s, Tail(w, m, data, n)).procs[w].pc.Hold?
    ensures WrittenSince(Run(v, s, Tail(w, m, data, n)).mem.log, |s.mem.log|, v.measurements[m].locations[0].packet)
  {
    TailWrites([], w, m, data, n);
    assert [] + Tail(w, m, data, n) == Tail(w, m, data, n);
    WriteReachesPackets(v, s, Tail(w, m, data, n), w, m, data, 1, 0);
  }

  /** The run up to the end of the flush. */
  function Whole(before: seq<Event>, front: seq<Event>, w: nat, i: nat, data: seq<byte>, n: nat): (run: seq<Event>)
    ensures before <= run
  {
    before + front + Tail(w, i, data, n)
  }

  lemma WholeWrites(v: Vehicle, s: State, before: seq<Event>, t: State, front: seq<Event>, u: State,
                    w: nat, i: nat, data: seq<byte>, n: nat)
    requires WellLaid(v) && Shaped(v, s) && Valid(v, s, before) && t == Run(v, s, before)
    requires Valid(v, t, front) && u == Run(v, t, front) && Valid(v, u, Tail(w, i, data, n))
    ensures Valid(v, s, Whole(before, front, w, i, data, n))
    ensures Run(v, s, Whole(before, front, w, i, data, n)) == Run(v, u, Tail(w, i, data, n))
  {
    Append(v, s, before, front);
    Append(v, s, before + front, Tail(w, i, data, n));
  }

  /** From every calm state some run leads through a write of `data` and its flush by process `w`. */
  lemma WriteGetsThrough(v: Vehicle, count: nat, before: seq<Event>, w: nat, r: nat, m: nat, data: seq<byte>)
      returns (run: seq<Event>, a: nat, b: nat)
    requires WellLaid(v) && Valid(v, Init(v, count), before) && Calm(After(v, count, before), w, r)
    requires m < |v.measurements| && OnlyVirtual(v, m) && |data| == v.measurements[m].size
    ensures before <= run && Valid(v, Init(v, count), run) && WritesThrough(v, count, run, w, m, data, a, b)
    ensures var s, t := After(v, count, before), After(v, count, run);
      && AllOutside(t) && t.procs[r].pc.Idle? && |t.mem.log| <= |s.mem.log| + |v.packets|
      && WrittenSince(t.mem.log, |s.mem.log|, v.measurements[m].locations[0].packet)
  {
    var s := After(v, count, before);
    ReachableInv(v, count, before);
    var front, u, n, t := SessionWrites(v, s, w, r, m, data);
    TailWrites(before + front, w, m, data, n);
    TailReachesPacket(v, u, w, m, data, n);
    WholeWrites(v, Init(v, count), before, s, front, u, w, m, data, n);
    run, a, b := Whole(before, front, w, m, data, n), |before + front|, |before + front| + 1;
  }

  /** And some run from there through an update by process `r`. */
  lemma DataGetsThrough(v: Vehicle, count: nat, before: seq<Event>, w: nat, r: nat, m: nat, data: seq<byte>)
      returns (run: seq<Event>, later: seq<Event>, a: nat, b: nat)
    requires WellLaid(v) && Valid(v, Init(v, count), before) && Calm(After(v, count, before), w, r)
    requires m < |v.measurements| && OnlyVirtual(v, m) && |data| == v.measurements[m].size && |v.packets| <= INT_MAX
    ensures before <= run && Valid(v, Init(v, count), run) && WritesThrough(v, count, run, w, m, data, a, b)
    ensures var t := After(v, count, run); Valid(v, t, later) && HasRead(v, |t.mem.log|, Run(v, t, later), r, m)
  {
    run, a, b := WriteGetsThrough(v, count, before, w, r, m, data);
    var t := After(v, count, run);
    ReachableInv(v, count, run);
    var u;
    later, u := ReadsAll(v, t, r);
    HasReadAll(v, u, r, m, |After(v, count, before).mem.log|);
  }

  /** Every unsigned number that fits its measurement can be brought from any process to any other:
      from every reachable state in which the two are idle, nobody is inside the protocol and no session
      is open, a run leads through its write, a flush and an update to a reader that gets it. */
  lemma EveryNumberGetsThrough(v: Vehicle, count: nat, before: seq<Event>, w: nat, r: nat, m: nat, value: nat)
      returns (run: seq<Event>, later: seq<Event>, a: nat, b: nat)
    requires WellLaid(v) && Valid(v, Init(v, count), before) && Calm(After(v, count, before), w, r)
    requires m < |v.measurements| && OnlyVirtual(v, m) && |v.packets| <= INT_MAX
    requires ReadsUnsigned(v.measurements[m]) && value < Pow256(v.measurements[m].size)
    ensures before <= run && Valid(v, Init(v, count), run)
    ensures WritesThrough(v, count, run, w, m, LittleBytes(value, v.measurements[m].size), a, b)
    ensures var t := After(v, count, run);
      && Valid(v, t, later) && HasRead(v, |t.mem.log|, Run(v, t, later), r, m)
      && UintOf(v, Run(v, t, later).procs[r], m) == Some(value)
  {
    run, later, a, b := DataGetsThrough(v, count, before, w, r, m, LittleBytes(value, v.measurements[m].size));
    NumberWrittenIsNumberRead(v, count, run, later, w, r, m, value, a, b);
  }

  /** The same for signed numbers. */
  lemma EverySignedGetsThrough(v: Vehicle, count: nat, before: seq<Event>, w: nat, r: nat, m: nat, value: int)
      returns (run: seq<Event>, later: seq<Event>, a: nat, b: nat)
    requires WellLaid(v) && Valid(v, Init(v, count), before) && Calm(After(v, count, before), w, r)
    requires m < |v.measurements| && OnlyVirtual(v, m) && |v.packets| <= INT_MAX
    requires ReadsSigned(v.measurements[m]) && FitsSigned(value, v.measurements[m].size)
    ensures before <= run && Valid(v, Init(v, count), run)
    ensures var n := v.measurements[m].size;
      WritesThrough(v, count, run, w, m, LittleBytes(PatternIn(value, n), n), a, b)
    ensures var t := After(v, count, run);
      && Valid(v, t, later) && HasRead(v, |t.mem.log|, Run(v, t, later), r, m)
      && IntOf(v, Run(v, t, later).procs[r], m) == Some(value)
  {
    var n := v.measurements[m].size;
    run, later, a, b := DataGetsThrough(v, count, before, w, r, m, LittleBytes(PatternIn(value, n), n));
    SignedWrittenIsSignedRead(v, count, run, later, w, r, m, value, a, b);
  }
}
