/** Writer sessions: who holds which per-packet lock, what a session's cache stands for, and
    why what sessions commit is what running them one after another would give. */
module Sessions {
  import opened Layout
  import opened Protocol

  // ---------------------------------------------------------------- per-packet locks

  /** Whether a process at `pc` holds the lock of packet `j`. */
  predicate Holds(v: Vehicle, pc: Pc, j: nat) {
    Lockable(v, j) &&
    match pc
    case LockTake(k) => j < k
    case LockLoad(k) => j <= k
    case Hold => true
    case Flush(_) => true
    case FlushDone(_) => true
    case W(_, job) => job.ret.ToFlush?
    case Unlock(k) => k <= j
    case _ => false
  }

  /** Whether it has also copied the packet into its cache. */
  predicate Loaded(v: Vehicle, pc: Pc, j: nat) {
    Holds(v, pc, j) && pc != LockLoad(j)
  }

  predicate HasAll(pc: Pc) {
    pc.Hold? || pc.Flush? || pc.FlushDone? || (pc.W? && pc.job.ret.ToFlush?)
  }

  function One(b: bool): nat { if b then 1 else 0 }

  function Holders(v: Vehicle, procs: seq<Proc>, n: nat, j: nat): nat
    requires n <= |procs|
  {
    if n == 0 then 0 else Holders(v, procs, n - 1, j) + One(Holds(v, procs[n - 1].pc, j))
  }

  /** The holders other than process `i`. */
  function HoldersBut(v: Vehicle, procs: seq<Proc>, n: nat, j: nat, i: nat): nat
    requires n <= |procs|
  {
    if n == 0 then 0
    else if n - 1 == i then HoldersBut(v, procs, n - 1, j, i)
    else HoldersBut(v, procs, n - 1, j, i) + One(Holds(v, procs[n - 1].pc, j))
  }

  lemma {:induction false} HoldersApart(v: Vehicle, procs: seq<Proc>, n: nat, j: nat, i: nat)
    requires n <= |procs| && i < |procs|
    ensures Holders(v, procs, n, j) == HoldersBut(v, procs, n, j, i) + One(i < n && Holds(v, procs[i].pc, j))
  {
    if n != 0 {
      HoldersApart(v, procs, n - 1, j, i);
    }
  }

  /** Steps of `i` and wake-ups of others change no other holder. */
  lemma {:induction false} HoldersButSame(v: Vehicle, procs: seq<Proc>, procs': seq<Proc>, n: nat, j: nat, i: nat)
    requires n <= |procs| == |procs'|
    requires forall q :: 0 <= q < |procs| && q != i ==> Bystander(procs[q], procs'[q])
    ensures HoldersBut(v, procs, n, j, i) == HoldersBut(v, procs', n, j, i)
  {
    if n != 0 {
      HoldersButSame(v, procs, procs', n - 1, j, i);
    }
  }

  lemma {:induction false} HoldersButAtLeast(v: Vehicle, procs: seq<Proc>, n: nat, j: nat, i: nat, q: nat)
    requires q < n <= |procs| && q != i && Holds(v, procs[q].pc, j)
    ensures HoldersBut(v, procs, n, j, i) >= 1
  {
    if q < n - 1 {
      HoldersButAtLeast(v, procs, n - 1, j, i, q);
    }
  }

  ghost predicate PacketLocksInv(v: Vehicle, s: State)
    requires Shaped(v, s)
  {
    forall j :: 0 <= j < |v.packets| && Lockable(v, j) ==> s.mem.locks[j] + Holders(v, s.procs, |s.procs|, j) == 1
  }

  /** No two processes hold the lock of the same packet. */
  lemma OneHolder(v: Vehicle, s: State, i: nat, q: nat, j: nat)
    requires Shaped(v, s) && PacketLocksInv(v, s) && i < |s.procs| && q < |s.procs| && i != q && j < |v.packets|
    requires Holds(v, s.procs[i].pc, j)
    ensures !Holds(v, s.procs[q].pc, j)
  {
    HoldersApart(v, s.procs, |s.procs|, j, i);
    if Holds(v, s.procs[q].pc, j) {
      HoldersButAtLeast(v, s.procs, |s.procs|, j, i, q);
    }
  }

  predicate HoldsNone(pc: Pc) {
    !HasAll(pc) && !InSession(pc)
  }

  /** A choice starts or goes on with a session without touching a lock. */
  lemma ChoiceKeepsHolding(v: Vehicle, m: Memory, p: Proc, c: Choice, j: nat)
    requires WellLaid(v) && ShapedMem(v, m) && Shaped1(v, p) && Allowed(v, m, p, c) && !c.Tick?
    requires j < |v.packets|
    ensures Holds(v, ChoiceStep(v, m, p, c).proc.pc, j) == Holds(v, p.pc, j)
  {
  }

  /** A session step changes the lock of packet `j` exactly as it changes whether it holds it. */
  lemma SessionKeepsLockSum(v: Vehicle, m: Memory, p: Proc, j: nat)
    requires ShapedMem(v, m) && Shaped1(v, p) && Ready(v, m, p) && InSession(p.pc)
    requires j < |v.packets| && Lockable(v, j)
    ensures var l := SessionStep(v, m, p);
      l.mem.locks[j] + One(Holds(v, l.proc.pc, j)) == m.locks[j] + One(Holds(v, p.pc, j))
  {
  }

  lemma ReaderHoldsNone(v: Vehicle, m: Memory, p: Proc)
    requires WellLaid(v) && ShapedMem(v, m) && Shaped1(v, p) && Ready(v, m, p) && !p.pc.W? && !InSession(p.pc)
    ensures var l := LocalStep(v, m, p, Tick); HoldsNone(p.pc) && HoldsNone(l.proc.pc) && l.mem.locks == m.locks
  {
  }

  lemma StepKeepsLockSum(v: Vehicle, m: Memory, p: Proc, c: Choice, j: nat)
    requires WellLaid(v) && ShapedMem(v, m) && Shaped1(v, p) && Allowed(v, m, p, c)
    requires j < |v.packets| && Lockable(v, j)
    ensures var l := LocalStep(v, m, p, c);
      l.mem.locks[j] + One(Holds(v, l.proc.pc, j)) == m.locks[j] + One(Holds(v, p.pc, j))
  {
    if !c.Tick? {
      ChoiceKeepsHolding(v, m, p, c, j);
    } else if InSession(p.pc) {
      SessionKeepsLockSum(v, m, p, j);
    } else if !p.pc.W? {
      ReaderHoldsNone(v, m, p);
    }
  }

  lemma NextKeepsPacketLocksInv(v: Vehicle, s: State, e: Event)
    requires WellLaid(v) && Shaped(v, s) && Enabled(v, s, e) && PacketLocksInv(v, s)
    ensures PacketLocksInv(v, Next(v, s, e))
  {
    var s', i := Next(v, s, e), e.pid;
    forall j | 0 <= j < |v.packets| && Lockable(v, j)
      ensures s'.mem.locks[j] + Holders(v, s'.procs, |s'.procs|, j) == 1
    {
      HoldersApart(v, s.procs, |s.procs|, j, i);
      HoldersApart(v, s'.procs, |s'.procs|, j, i);
      HoldersButSame(v, s.procs, s'.procs, |s.procs|, j, i);
      StepKeepsLockSum(v, s.mem, s.procs[i], e.choice, j);
    }
  }
}
