/** The readers-writers protocol: which semaphore values and counts go with which program
    counters, mutual exclusion and the writers' preference. */
module Exclusion {
  import opened Layout
  import opened Protocol

  /** How many processes stand where. `wm`, `rm`, `rt` and `res` count the holders of `wmutex`,
      of `rmutex`, the readers holding `readTry` and the writers holding `resource`. Writers
      (readers) that are counted are `Early` while the first of them may still have to take
      `readTry` (`resource`), then `Mid`; `Late` ones are no longer counted but may still have
      to give it back. `Take` and `Give` count those about to do so. */
  datatype Tally = Tally(
    wm: int, rm: int, rt: int, res: int,
    wEarly: int, wMid: int, wLate: int, wTake: int, wGive: int,
    rEarly: int, rMid: int, rLate: int, rTake: int, rGive: int)

  const NOBODY := Tally(0, 0, 0, 0, 0, 0, 0, 0, 0, 0, 0, 0, 0, 0)

  function Plus(a: Tally, b: Tally): Tally {
    Tally(a.wm + b.wm, a.rm + b.rm, a.rt + b.rt, a.res + b.res,
          a.wEarly + b.wEarly, a.wMid + b.wMid, a.wLate + b.wLate, a.wTake + b.wTake, a.wGive + b.wGive,
          a.rEarly + b.rEarly, a.rMid + b.rMid, a.rLate + b.rLate, a.rTake + b.rTake, a.rGive + b.rGive)
  }

  function Weigh(pc: Pc): Tally {
    match pc
    case W(w, _) => (
      match w
      case EnterMutex => NOBODY
      case CountIn => Tally(1, 0, 0, 0, 0, 0, 0, 0, 0, 0, 0, 0, 0, 0)
      case TestFirst => Tally(1, 0, 0, 0, 1, 0, 0, 0, 0, 0, 0, 0, 0, 0)
      case TakeTry => Tally(1, 0, 0, 0, 1, 0, 0, 1, 0, 0, 0, 0, 0, 0)
      case LeaveMutex => Tally(1, 0, 0, 0, 0, 1, 0, 0, 0, 0, 0, 0, 0, 0)
      case TakeResource => Tally(0, 0, 0, 0, 0, 1, 0, 0, 0, 0, 0, 0, 0, 0)
      case ReenterMutex => Tally(0, 0, 0, 0, 0, 1, 0, 0, 0, 0, 0, 0, 0, 0)
      case CountOut => Tally(1, 0, 0, 0, 0, 1, 0, 0, 0, 0, 0, 0, 0, 0)
      case TestLast => Tally(1, 0, 0, 0, 0, 0, 1, 0, 0, 0, 0, 0, 0, 0)
      case GiveTry => Tally(1, 0, 0, 0, 0, 0, 1, 0, 1, 0, 0, 0, 0, 0)
      case ExitMutex => Tally(1, 0, 0, 0, 0, 0, 0, 0, 0, 0, 0, 0, 0, 0)
      case _ => Tally(0, 0, 0, 1, 0, 1, 0, 0, 0, 0, 0, 0, 0, 0))
    case R(r) => (
      match r
      case RTakeTry => NOBODY
      case RTakeMutex => Tally(0, 0, 1, 0, 0, 0, 0, 0, 0, 0, 0, 0, 0, 0)
      case RCountIn => Tally(0, 1, 1, 0, 0, 0, 0, 0, 0, 0, 0, 0, 0, 0)
      case RTestFirst => Tally(0, 1, 1, 0, 0, 0, 0, 0, 0, 1, 0, 0, 0, 0)
      case RTakeResource => Tally(0, 1, 1, 0, 0, 0, 0, 0, 0, 1, 0, 0, 1, 0)
      case RLeaveMutex => Tally(0, 1, 1, 0, 0, 0, 0, 0, 0, 0, 1, 0, 0, 0)
      case RGiveTry => Tally(0, 0, 1, 0, 0, 0, 0, 0, 0, 0, 1, 0, 0, 0)
      case RCheck => Tally(0, 0, 0, 0, 0, 0, 0, 0, 0, 0, 1, 0, 0, 0))
    case Copying(_) => Tally(0, 0, 0, 0, 0, 0, 0, 0, 0, 0, 1, 0, 0, 0)
    case U(u, _) => (
      match u
      case UTakeMutex => Tally(0, 0, 0, 0, 0, 0, 0, 0, 0, 0, 1, 0, 0, 0)
      case UCountOut => Tally(0, 1, 0, 0, 0, 0, 0, 0, 0, 0, 1, 0, 0, 0)
      case UTestLast => Tally(0, 1, 0, 0, 0, 0, 0, 0, 0, 0, 0, 1, 0, 0)
      case UGiveResource => Tally(0, 1, 0, 0, 0, 0, 0, 0, 0, 0, 0, 1, 0, 1)
      case ULeaveMutex => Tally(0, 1, 0, 0, 0, 0, 0, 0, 0, 0, 0, 0, 0, 0))
    case _ => NOBODY
  }

  /** The sum of the first `n` weights. */
  function Total(ts: seq<Tally>, n: nat): Tally
    requires n <= |ts|
  {
    if n == 0 then NOBODY else Plus(Total(ts, n - 1), ts[n - 1])
  }

  /** The same without the `i`-th. */
  function TotalBut(ts: seq<Tally>, n: nat, i: nat): Tally
    requires n <= |ts|
  {
    if n == 0 then NOBODY
    else if n - 1 == i then TotalBut(ts, n - 1, i)
    else Plus(TotalBut(ts, n - 1, i), ts[n - 1])
  }

  function Weights(procs: seq<Proc>): (ts: seq<Tally>)
    ensures |ts| == |procs|
  {
    seq(|procs|, q requires 0 <= q < |procs| => Weigh(procs[q].pc))
  }

  function Sum(procs: seq<Proc>): Tally {
    Total(Weights(procs), |procs|)
  }

  /** All processes but `i`. */
  function Rest(procs: seq<Proc>, i: nat): Tally {
    TotalBut(Weights(procs), |procs|, i)
  }

  /** What every sum of weights satisfies. */
  predicate Coherent(t: Tally) {
    && t.wEarly + t.wLate <= t.wm && 0 <= t.wTake <= t.wEarly && 0 <= t.wGive <= t.wLate
    && t.rEarly + t.rLate <= t.rm && 0 <= t.rTake <= t.rEarly && 0 <= t.rGive <= t.rLate
    && t.rEarly <= t.rt && 0 <= t.res <= t.wMid && 0 <= t.rMid
  }

  lemma {:induction false} TotalApart(ts: seq<Tally>, n: nat, i: nat)
    requires n <= |ts| && i < |ts|
    ensures Total(ts, n) == if i < n then Plus(ts[i], TotalBut(ts, n, i)) else TotalBut(ts, n, i)
  {
    if n != 0 {
      TotalApart(ts, n - 1, i);
    }
  }

  lemma {:induction false} TotalButUpdated(ts: seq<Tally>, n: nat, i: nat, t: Tally)
    requires n <= |ts| && i < |ts|
    ensures TotalBut(ts[i := t], n, i) == TotalBut(ts, n, i)
  {
    if n != 0 {
      TotalButUpdated(ts, n - 1, i, t);
    }
  }

  lemma {:induction false} TotalCleared(ts: seq<Tally>, n: nat, i: nat)
    requires n <= |ts| && i < |ts|
    ensures Total(ts[i := NOBODY], n) == TotalBut(ts, n, i)
  {
    if n != 0 {
      TotalCleared(ts, n - 1, i);
    }
  }

  lemma {:induction false} TotalButCoherent(ts: seq<Tally>, n: nat, i: nat)
    requires n <= |ts| && forall q :: 0 <= q < |ts| ==> Coherent(ts[q])
    ensures Coherent(TotalBut(ts, n, i))
  {
    if n != 0 {
      TotalButCoherent(ts, n - 1, i);
    }
  }

  lemma WeightsCoherent(procs: seq<Proc>)
    ensures forall q :: 0 <= q < |procs| ==> Coherent(Weights(procs)[q])
  {
  }

  lemma WeighCoherent(pc: Pc)
    ensures Coherent(Weigh(pc))
  {
  }

  /** One process apart from the others, before and after it moves. */
  lemma SetApart(procs: seq<Proc>, i: nat, p: Proc)
    requires i < |procs|
    ensures Coherent(Rest(procs, i))
    ensures Sum(procs) == Plus(Weigh(procs[i].pc), Rest(procs, i))
    ensures Sum(procs[i := p]) == Plus(Weigh(p.pc), Rest(procs, i))
  {
    var ts, n, t := Weights(procs), |procs|, Weigh(p.pc);
    WeightsCoherent(procs);
    TotalButCoherent(ts, n, i);
    TotalApart(ts, n, i);
    assert Weights(procs[i := p]) == ts[i := t];
    TotalApart(ts[i := t], n, i);
    TotalButUpdated(ts, n, i, t);
  }

  /** A process apart from the others still weighs what it weighs there. */
  lemma RestHas(procs: seq<Proc>, i: nat, j: nat) returns (t: Tally)
    requires i < |procs| && j < |procs| && i != j
    ensures Coherent(t) && Rest(procs, i) == Plus(Weigh(procs[j].pc), t)
  {
    var us, n := Weights(procs)[i := NOBODY], |procs|;
    WeightsCoherent(procs);
    t := TotalBut(us, n, j);
    TotalButCoherent(us, n, j);
    TotalCleared(Weights(procs), n, i);
    TotalApart(us, n, j);
  }

  /** Waking sleepers moves nobody between places that count. */
  lemma SumAfterWake(procs: seq<Proc>, packet: nat)
    ensures Sum(WakeUp(procs, packet)) == Sum(procs)
  {
    assert Weights(WakeUp(procs, packet)) == Weights(procs);
  }

  // ---------------------------------------------------------------- the invariant

  predicate WritersHoldTry(t: Tally) { t.wMid + t.wLate > 0 }
  predicate ReadersHoldResource(t: Tally) { t.rMid + t.rLate > 0 }

  predicate Balanced(m: Memory, t: Tally) {
    && m.wmutex + t.wm == 1
    && m.rmutex + t.rm == 1
    && m.readTry + t.rt + (if WritersHoldTry(t) then 1 else 0) == 1
    && m.resource + t.res + (if ReadersHoldResource(t) then 1 else 0) == 1
    && m.writers == t.wEarly + t.wMid
    && m.readers == t.rEarly + t.rMid
    && (t.wTake > 0 ==> m.writers == 1) && (t.wGive > 0 ==> m.writers == 0)
    && (t.rTake > 0 ==> m.readers == 1) && (t.rGive > 0 ==> m.readers == 0)
  }

  predicate LockInv(s: State) {
    Balanced(s.mem, Sum(s.procs))
  }

  lemma EnteringKeepsBalance(v: Vehicle, m: Memory, p: Proc, rest: Tally)
    requires ShapedMem(v, m) && Shaped1(v, p) && Ready(v, m, p)
    requires p.pc.W? && Entering(p.pc.w)
    requires Coherent(rest) && Balanced(m, Plus(Weigh(p.pc), rest))
    ensures var l := EnterWrite(v, m, p); Balanced(l.mem, Plus(Weigh(l.proc.pc), rest))
  {
    match p.pc.w
    case EnterMutex => case CountIn => case TestFirst =>
    case TakeTry => case LeaveMutex => case TakeResource =>
  }

  lemma WritingKeepsBalance(v: Vehicle, m: Memory, p: Proc, rest: Tally)
    requires ShapedMem(v, m) && Shaped1(v, p) && Ready(v, m, p)
    requires InWrite(p.pc)
    requires Coherent(rest) && Balanced(m, Plus(Weigh(p.pc), rest))
    ensures var l := HoldWrite(v, m, p); Balanced(l.mem, Plus(Weigh(l.proc.pc), rest))
  {
  }

  lemma WriterOutKeepsBalance(v: Vehicle, m: Memory, p: Proc, rest: Tally)
    requires ShapedMem(v, m) && Shaped1(v, p) && Ready(v, m, p)
    requires p.pc.W? && (p.pc.w.ReenterMutex? || p.pc.w.CountOut? || p.pc.w.TestLast?)
    requires Coherent(rest) && Balanced(m, Plus(Weigh(p.pc), rest))
    ensures var l := LeaveWrite(v, m, p); Balanced(l.mem, Plus(Weigh(l.proc.pc), rest))
  {
    match p.pc.w
    case ReenterMutex => case CountOut => case TestLast =>
  }

  lemma LeavingKeepsBalance(v: Vehicle, m: Memory, p: Proc, rest: Tally)
    requires ShapedMem(v, m) && Shaped1(v, p) && Ready(v, m, p)
    requires p.pc.W? && Leaving(p.pc.w)
    requires Coherent(rest) && Balanced(m, Plus(Weigh(p.pc), rest))
    ensures var l := LeaveWrite(v, m, p); Balanced(l.mem, Plus(Weigh(l.proc.pc), rest))
  {
    if !(p.pc.w.GiveTry? || p.pc.w.ExitMutex?) {
      WriterOutKeepsBalance(v, m, p, rest);
    }
  }

  lemma QueueingKeepsBalance(v: Vehicle, m: Memory, p: Proc, rest: Tally)
    requires ShapedMem(v, m) && Shaped1(v, p) && Ready(v, m, p)
    requires p.pc.R? && (p.pc.r.RTakeTry? || p.pc.r.RTakeMutex? || p.pc.r.RCountIn? || p.pc.r.RTestFirst?)
    requires Coherent(rest) && Balanced(m, Plus(Weigh(p.pc), rest))
    ensures var l := EnterRead(v, m, p); Balanced(l.mem, Plus(Weigh(l.proc.pc), rest))
  {
    match p.pc.r
    case RTakeTry => case RTakeMutex => case RCountIn => case RTestFirst =>
  }

  lemma AdmittedKeepsBalance(v: Vehicle, m: Memory, p: Proc, rest: Tally)
    requires ShapedMem(v, m) && Shaped1(v, p) && Ready(v, m, p)
    requires p.pc.R? && (p.pc.r.RTakeResource? || p.pc.r.RLeaveMutex? || p.pc.r.RGiveTry? || p.pc.r.RCheck?)
    requires Coherent(rest) && Balanced(m, Plus(Weigh(p.pc), rest))
    ensures var l := EnterRead(v, m, p); Balanced(l.mem, Plus(Weigh(l.proc.pc), rest))
  {
  }

  lemma CountingOutKeepsBalance(v: Vehicle, m: Memory, p: Proc, rest: Tally)
    requires ShapedMem(v, m) && Shaped1(v, p) && Ready(v, m, p)
    requires p.pc.U? && (p.pc.u.UTakeMutex? || p.pc.u.UCountOut?)
    requires Coherent(rest) && Balanced(m, Plus(Weigh(p.pc), rest))
    ensures var l := LeaveRead(v, m, p); Balanced(l.mem, Plus(Weigh(l.proc.pc), rest))
  {
  }

  lemma GivingBackKeepsBalance(v: Vehicle, m: Memory, p: Proc, rest: Tally)
    requires ShapedMem(v, m) && Shaped1(v, p) && Ready(v, m, p)
    requires p.pc.U? && (p.pc.u.UTestLast? || p.pc.u.UGiveResource?)
    requires Coherent(rest) && Balanced(m, Plus(Weigh(p.pc), rest))
    ensures var l := LeaveRead(v, m, p); Balanced(l.mem, Plus(Weigh(l.proc.pc), rest))
  {
  }

  lemma UnlockedKeepsBalance(v: Vehicle, m: Memory, p: Proc, rest: Tally)
    requires ShapedMem(v, m) && Shaped1(v, p) && Ready(v, m, p)
    requires p.pc.U? && p.pc.u.ULeaveMutex?
    requires Coherent(rest) && Balanced(m, Plus(Weigh(p.pc), rest))
    ensures var l := LeaveRead(v, m, p); Balanced(l.mem, Plus(Weigh(l.proc.pc), rest))
  {
    assert Weigh(LeaveRead(v, m, p).proc.pc) == NOBODY;
  }

  lemma WriteKeepsBalance(v: Vehicle, m: Memory, p: Proc, rest: Tally)
    requires ShapedMem(v, m) && Shaped1(v, p) && Ready(v, m, p) && p.pc.W?
    requires Coherent(rest) && Balanced(m, Plus(Weigh(p.pc), rest))
    ensures var l := WriteStep(v, m, p); Balanced(l.mem, Plus(Weigh(l.proc.pc), rest))
  {
    if Entering(p.pc.w) {
      EnteringKeepsBalance(v, m, p, rest);
    } else if Leaving(p.pc.w) {
      LeavingKeepsBalance(v, m, p, rest);
    } else {
      WritingKeepsBalance(v, m, p, rest);
    }
  }

  lemma ReadKeepsBalance(v: Vehicle, m: Memory, p: Proc, rest: Tally)
    requires ShapedMem(v, m) && Shaped1(v, p) && Ready(v, m, p) && p.pc.R?
    requires Coherent(rest) && Balanced(m, Plus(Weigh(p.pc), rest))
    ensures var l := EnterRead(v, m, p); Balanced(l.mem, Plus(Weigh(l.proc.pc), rest))
  {
    if p.pc.r.RTakeTry? || p.pc.r.RTakeMutex? || p.pc.r.RCountIn? || p.pc.r.RTestFirst? {
      QueueingKeepsBalance(v, m, p, rest);
    } else {
      AdmittedKeepsBalance(v, m, p, rest);
    }
  }

  lemma ChoicesWeighNothing(v: Vehicle, m: Memory, p: Proc, c: Choice)
    requires WellLaid(v) && ShapedMem(v, m) && Shaped1(v, p) && Allowed(v, m, p, c) && !c.Tick?
    ensures Weigh(p.pc) == NOBODY == Weigh(ChoiceStep(v, m, p, c).proc.pc)
  {
  }

  lemma SessionsWeighNothing(v: Vehicle, m: Memory, p: Proc)
    requires ShapedMem(v, m) && Shaped1(v, p) && Ready(v, m, p) && InSession(p.pc)
    ensures Weigh(p.pc) == NOBODY == Weigh(SessionStep(v, m, p).proc.pc)
  {
  }

  lemma ViewingKeepsWeight(v: Vehicle, m: Memory, p: Proc)
    requires ShapedMem(v, m) && Shaped1(v, p) && (p.pc.Adding? || p.pc.Copying? || p.pc.FutexCall? || p.pc.Recheck?)
    ensures Weigh(ViewStep(v, m, p).proc.pc) == Weigh(p.pc)
  {
  }

  /** One step of one process keeps the balance against the rest. */
  lemma StepKeepsBalance(v: Vehicle, m: Memory, p: Proc, c: Choice, rest: Tally)
    requires WellLaid(v) && ShapedMem(v, m) && Shaped1(v, p) && Allowed(v, m, p, c)
    requires Coherent(rest) && Balanced(m, Plus(Weigh(p.pc), rest))
    ensures var l := LocalStep(v, m, p, c); Balanced(l.mem, Plus(Weigh(l.proc.pc), rest))
  {
    if !c.Tick? {
      ChoicesWeighNothing(v, m, p, c);
    } else if InSession(p.pc) {
      SessionsWeighNothing(v, m, p);
    } else if p.pc.Adding? || p.pc.Copying? || p.pc.FutexCall? || p.pc.Recheck? {
      ViewingKeepsWeight(v, m, p);
    } else if p.pc.W? {
      WriteKeepsBalance(v, m, p, rest);
    } else if p.pc.R? {
      ReadKeepsBalance(v, m, p, rest);
    } else if p.pc.u.ULeaveMutex? {
      UnlockedKeepsBalance(v, m, p, rest);
    } else if p.pc.u.UTakeMutex? || p.pc.u.UCountOut? {
      CountingOutKeepsBalance(v, m, p, rest);
    } else {
      GivingBackKeepsBalance(v, m, p, rest);
    }
  }

  lemma NextKeepsLockInv(v: Vehicle, s: State, e: Event)
    requires WellLaid(v) && Shaped(v, s) && Enabled(v, s, e) && LockInv(s)
    ensures LockInv(Next(v, s, e))
  {
    var p := s.procs[e.pid];
    var others := Others(s.procs, p, e.choice);
    var l := LocalStep(v, s.mem, p, e.choice);
    SetApart(others, e.pid, l.proc);
    SumAfterWake(s.procs, if p.pc.W? then p.pc.job.packet else 0);
    StepKeepsBalance(v, s.mem, p, e.choice, Rest(others, e.pid));
  }

  lemma {:induction false} TotalOfNobody(ts: seq<Tally>, n: nat)
    requires n <= |ts| && forall q :: 0 <= q < |ts| ==> ts[q] == NOBODY
    ensures Total(ts, n) == NOBODY
  {
    if n != 0 {
      TotalOfNobody(ts, n - 1);
    }
  }

  lemma InitLockInv(v: Vehicle, count: nat)
    ensures LockInv(Init(v, count))
  {
    TotalOfNobody(Weights(Init(v, count).procs), count);
  }

  lemma {:induction false} RunKeepsLockInv(v: Vehicle, s: State, run: seq<Event>)
    requires WellLaid(v) && Shaped(v, s) && Valid(v, s, run) && LockInv(s)
    ensures LockInv(Run(v, s, run))
    decreases |run|
  {
    if run != [] {
      NextKeepsLockInv(v, s, run[0]);
      RunKeepsLockInv(v, Next(v, s, run[0]), run[1..]);
    }
  }

  // ---------------------------------------------------------------- what it gives

  lemma Exclusive(s: State, i: nat, j: nat)
    requires LockInv(s) && i < |s.procs| && j < |s.procs| && i != j
    requires InWrite(s.procs[i].pc)
    ensures !InWrite(s.procs[j].pc) && !InRead(s.procs[j].pc)
  {
    SetApart(s.procs, i, s.procs[i]);
    var t := RestHas(s.procs, i, j);
  }

  /** Mutual exclusion: in every run of any number of processes, while one process is inside
      a write no other is inside a write or holds a read lock. */
  lemma MutualExclusion(v: Vehicle, count: nat, run: seq<Event>, i: nat, j: nat)
    requires WellLaid(v) && Valid(v, Init(v, count), run)
    requires i < count && j < count && i != j
    requires InWrite(Run(v, Init(v, count), run).procs[i].pc)
    ensures var q := Run(v, Init(v, count), run).procs[j]; !InWrite(q.pc) && !InRead(q.pc)
  {
    InitLockInv(v, count);
    RunKeepsLockInv(v, Init(v, count), run);
    Exclusive(Run(v, Init(v, count), run), i, j);
  }

  /** Whether the writers, as a group, hold `readTry`. */
  predicate WritersInside(s: State) {
    WritersHoldTry(Sum(s.procs))
  }

  ghost predicate WritersInsideThroughout(v: Vehicle, s: State, run: seq<Event>)
    requires WellLaid(v) && Shaped(v, s) && Valid(v, s, run)
    decreases |run|
  {
    WritersInside(s) && (run != [] ==> WritersInsideThroughout(v, Next(v, s, run[0]), run[1..]))
  }

  lemma CountingInExcludesWriters(m: Memory, rest: Tally)
    ensures var t := Plus(Weigh(R(RCountIn)), rest); Coherent(rest) && Balanced(m, t) ==> !WritersHoldTry(t)
  {
  }

  /** A step taken while the writers hold `readTry` admits no reader. */
  lemma NoAdmission(v: Vehicle, s: State, e: Event)
    requires WellLaid(v) && Shaped(v, s) && Enabled(v, s, e) && LockInv(s) && WritersInside(s)
    ensures Next(v, s, e).mem.readers <= s.mem.readers
  {
    SetApart(s.procs, e.pid, s.procs[e.pid]);
    CountingInExcludesWriters(s.mem, Rest(s.procs, e.pid));
  }

  /** Writers' preference: from the step where the first writer takes `readTry` until the last
      one gives it back, however many steps that takes, the count of readers never rises. */
  lemma {:induction false} WriterPreference(v: Vehicle, s: State, run: seq<Event>)
    requires WellLaid(v) && Shaped(v, s) && Valid(v, s, run) && LockInv(s)
    requires WritersInsideThroughout(v, s, run)
    ensures Run(v, s, run).mem.readers <= s.mem.readers
    decreases |run|
  {
    if run != [] {
      NoAdmission(v, s, run[0]);
      NextKeepsLockInv(v, s, run[0]);
      WriterPreference(v, Next(v, s, run[0]), run[1..]);
    }
  }
}
