/** Freedom from deadlock: whoever waits waits for someone who can move. Per-packet locks are
    taken in ascending order and before the readers-writers lock. */
module Deadlock {
  import opened Layout
  import opened Protocol
  import opened Exclusion
  import opened Sessions
  import opened Telemetry

  /** In the middle of something, and not asleep waiting for news. */
  predicate Busy(pc: Pc) {
    !pc.Idle? && !pc.Asleep?
  }

  /** A process that holds a session open can always flush or end it. */
  predicate CanMove(v: Vehicle, m: Memory, p: Proc) {
    Busy(p.pc) && (p.pc.Hold? || Ready(v, m, p))
  }

  predicate Mover(v: Vehicle, s: State, q: int) {
    0 <= q < |s.procs| && CanMove(v, s.mem, s.procs[q])
  }

  datatype Place = WMutex | RMutex | Try | Resource | WritersIn | ReadersIn

  function At(t: Tally, place: Place): int {
    match place
    case WMutex => t.wm
    case RMutex => t.rm
    case Try => t.rt
    case Resource => t.res
    case WritersIn => t.wMid + t.wLate
    case ReadersIn => t.rMid + t.rLate
  }

  /** A positive count has somebody behind it. */
  lemma {:induction false} SomeoneAt(ts: seq<Tally>, n: nat, place: Place) returns (q: nat)
    requires n <= |ts| && At(Total(ts, n), place) > 0
    ensures q < n && At(ts[q], place) > 0
  {
    if At(ts[n - 1], place) > 0 {
      q := n - 1;
    } else {
      q := SomeoneAt(ts, n - 1, place);
    }
  }

  lemma Holder(s: State, place: Place) returns (q: nat)
    requires At(Sum(s.procs), place) > 0
    ensures q < |s.procs| && At(Weigh(s.procs[q].pc), place) > 0
  {
    q := SomeoneAt(Weights(s.procs), |s.procs|, place);
  }

  // ---------------------------------------------------------------- who is where

  predicate AtTakeTry(pc: Pc) { pc.W? && pc.w.TakeTry? }
  predicate AtTakeResource(pc: Pc) { pc.W? && pc.w.TakeResource? }
  predicate AtReenter(pc: Pc) { pc.W? && pc.w.ReenterMutex? }

  lemma WMutexHolders(v: Vehicle, m: Memory, p: Proc)
    requires At(Weigh(p.pc), WMutex) > 0
    ensures AtTakeTry(p.pc) || CanMove(v, m, p)
  {
  }

  lemma RMutexHolders(v: Vehicle, m: Memory, p: Proc)
    requires At(Weigh(p.pc), RMutex) > 0
    ensures p.pc == R(RTakeResource) || CanMove(v, m, p)
  {
  }

  lemma TryHolders(v: Vehicle, m: Memory, p: Proc)
    requires At(Weigh(p.pc), Try) > 0
    ensures p.pc == R(RTakeMutex) || p.pc == R(RTakeResource) || CanMove(v, m, p)
  {
  }

  lemma ResourceHolders(v: Vehicle, m: Memory, p: Proc)
    requires At(Weigh(p.pc), Resource) > 0
    ensures CanMove(v, m, p)
  {
  }

  lemma WritersInside(v: Vehicle, m: Memory, p: Proc)
    requires At(Weigh(p.pc), WritersIn) > 0
    ensures AtTakeResource(p.pc) || (AtReenter(p.pc) && Weigh(p.pc).wMid == 1) || CanMove(v, m, p)
  {
  }

  lemma ReadersInside(v: Vehicle, m: Memory, p: Proc)
    requires At(Weigh(p.pc), ReadersIn) > 0
    ensures (p.pc.U? && p.pc.u.UTakeMutex? && Weigh(p.pc).rMid == 1) || CanMove(v, m, p)
  {
  }

  // ---------------------------------------------------------------- who can move

  /** Nobody waits for the resource as first reader while another reader is inside. */
  lemma FirstReaderIsAlone(s: State, i: nat, j: nat)
    requires LockInv(s) && i < |s.procs| && j < |s.procs| && s.procs[i].pc == R(RTakeResource)
    ensures Weigh(s.procs[j].pc).rMid == 0
  {
    SetApart(s.procs, i, s.procs[i]);
    if i != j {
      var t := RestHas(s.procs, i, j);
      WeighCoherent(s.procs[j].pc);
    }
  }

  lemma FirstWriterIsAlone(s: State, i: nat, j: nat)
    requires LockInv(s) && i < |s.procs| && j < |s.procs| && AtTakeTry(s.procs[i].pc)
    ensures Weigh(s.procs[j].pc).wMid == 0
  {
    SetApart(s.procs, i, s.procs[i]);
    if i != j {
      var t := RestHas(s.procs, i, j);
      WeighCoherent(s.procs[j].pc);
    }
  }

  lemma ResourceTaken(v: Vehicle, s: State) returns (q: nat)
    requires LockInv(s) && s.mem.resource == 0
    ensures Mover(v, s, q)
  {
    if Sum(s.procs).res > 0 {
      q := Holder(s, Resource);
      ResourceHolders(v, s.mem, s.procs[q]);
    } else {
      q := Holder(s, ReadersIn);
      ReadersInside(v, s.mem, s.procs[q]);
      if !CanMove(v, s.mem, s.procs[q]) {
        var r := Holder(s, RMutex);
        RMutexHolders(v, s.mem, s.procs[r]);
        if s.procs[r].pc == R(RTakeResource) {
          FirstReaderIsAlone(s, r, q);
        }
        q := r;
      }
    }
  }

  lemma RMutexTaken(v: Vehicle, s: State) returns (q: nat)
    requires LockInv(s) && s.mem.rmutex == 0
    ensures Mover(v, s, q)
  {
    q := Holder(s, RMutex);
    RMutexHolders(v, s.mem, s.procs[q]);
    if !CanMove(v, s.mem, s.procs[q]) {
      q := ResourceTaken(v, s);
    }
  }

  lemma TryTaken(v: Vehicle, s: State) returns (q: nat)
    requires LockInv(s) && s.mem.readTry == 0
    ensures Mover(v, s, q)
  {
    if Sum(s.procs).rt > 0 {
      q := Holder(s, Try);
      TryHolders(v, s.mem, s.procs[q]);
      if !CanMove(v, s.mem, s.procs[q]) {
        if s.mem.resource == 0 {
          q := ResourceTaken(v, s);
        } else {
          q := RMutexTaken(v, s);
        }
      }
    } else {
      q := Holder(s, WritersIn);
      WritersInside(v, s.mem, s.procs[q]);
      if !CanMove(v, s.mem, s.procs[q]) {
        if AtTakeResource(s.procs[q].pc) {
          q := ResourceTaken(v, s);
        } else {
          var w := Holder(s, WMutex);
          WMutexHolders(v, s.mem, s.procs[w]);
          if AtTakeTry(s.procs[w].pc) {
            FirstWriterIsAlone(s, w, q);
          }
          q := w;
        }
      }
    }
  }

  lemma WMutexTaken(v: Vehicle, s: State) returns (q: nat)
    requires LockInv(s) && s.mem.wmutex == 0
    ensures Mover(v, s, q)
  {
    q := Holder(s, WMutex);
    WMutexHolders(v, s.mem, s.procs[q]);
    if !CanMove(v, s.mem, s.procs[q]) {
      q := TryTaken(v, s);
    }
  }

  /** Somebody can move if a process inside the readers-writers protocol is there at all. */
  lemma SharedLockMoves(v: Vehicle, s: State, i: nat) returns (q: nat)
    requires LockInv(s) && i < |s.procs| && (s.procs[i].pc.W? || s.procs[i].pc.R? || s.procs[i].pc.U?)
    ensures Mover(v, s, q)
  {
    if CanMove(v, s.mem, s.procs[i]) {
      q := i;
    } else if s.mem.wmutex == 0 {
      q := WMutexTaken(v, s);
    } else if s.mem.readTry == 0 {
      q := TryTaken(v, s);
    } else if s.mem.rmutex == 0 {
      q := RMutexTaken(v, s);
    } else {
      q := ResourceTaken(v, s);
    }
  }

  lemma {:induction false} SomeoneHolds(v: Vehicle, procs: seq<Proc>, n: nat, j: nat) returns (q: nat)
    requires n <= |procs| && Holders(v, procs, n, j) > 0
    ensures q < n && Holds(v, procs[q].pc, j)
  {
    if Holds(v, procs[n - 1].pc, j) {
      q := n - 1;
    } else {
      q := SomeoneHolds(v, procs, n - 1, j);
    }
  }

  /** The chain of waiting goes up through the packets: whoever holds `k` waits, if at all,
      for a higher one. */
  lemma {:induction false} PacketLockMoves(v: Vehicle, s: State, i: nat) returns (q: nat)
    requires Shaped(v, s) && LockInv(s) && PacketLocksInv(v, s) && i < |s.procs| && s.procs[i].pc.LockTake?
    ensures Mover(v, s, q)
    decreases |v.packets| - s.procs[i].pc.k
  {
    assert Shaped1(v, s.procs[i]);
    if CanMove(v, s.mem, s.procs[i]) {
      q := i;
    } else {
      var h := SomeoneHolds(v, s.procs, |s.procs|, s.procs[i].pc.k);
      assert Shaped1(v, s.procs[h]);
      if s.procs[h].pc.LockTake? {
        q := PacketLockMoves(v, s, h);
      } else if s.procs[h].pc.W? {
        q := SharedLockMoves(v, s, h);
      } else {
        q := h;
      }
    }
  }

  lemma SomeoneMoves(v: Vehicle, s: State, i: nat) returns (q: nat)
    requires Shaped(v, s) && LockInv(s) && PacketLocksInv(v, s) && i < |s.procs| && Busy(s.procs[i].pc)
    ensures Mover(v, s, q)
  {
    if s.procs[i].pc.W? || s.procs[i].pc.R? || s.procs[i].pc.U? {
      q := SharedLockMoves(v, s, i);
    } else if s.procs[i].pc.LockTake? {
      q := PacketLockMoves(v, s, i);
    } else {
      q := i;
    }
  }

  /** Deadlock freedom: in every reachable state in which some process is in the middle of
      something, such a process has an enabled step. */
  lemma NoDeadlock(v: Vehicle, count: nat, run: seq<Event>, i: nat)
    requires WellLaid(v) && Valid(v, Init(v, count), run)
    requires i < count && Busy(After(v, count, run).procs[i].pc)
    ensures var s := After(v, count, run);
      exists e :: Enabled(v, s, e) && Busy(s.procs[e.pid].pc)
  {
    ReachableInv(v, count, run);
    var s := After(v, count, run);
    var q := SomeoneMoves(v, s, i);
    var e := Event(q, if s.procs[q].pc.Hold? then EndSession else Tick);
    assert Enabled(v, s, e);
  }
}
