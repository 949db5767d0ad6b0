/** Sleeping in `read_lock` and being woken by `write`: no wake-up is lost, except where the
    listed form waits on bits that the writer does not wake. */
module Wakeup {
  import opened Layout
  import opened Protocol
  import opened Exclusion
  import opened Snapshots

  // ---------------------------------------------------------------- sleepers

  /** Some writer has committed `packet` and has yet to make its wake call. */
  ghost predicate WakePending(s: State, packet: nat) {
    exists w :: 0 <= w < |s.procs| && AboutToWake(s.procs[w].pc, packet)
  }

  predicate AboutToWake(pc: Pc, packet: nat) {
    pc.W? && (pc.w.Stamp? || pc.w.Wake?) && pc.job.packet == packet && pc.job.wakes
  }

  /** The waking writes a sleeper has missed since it looked: at most the very last one,
      and that one is still about to wake it. */
  ghost predicate SleepOk(s: State, p: Proc) {
    p.pc.Asleep? ==>
      forall k :: 0 <= k < |s.mem.log| && p.view.lastNonce <= k + 1
                  && s.mem.log[k].wakes && Covers(p, s.mem.log[k].packet) ==>
        k == |s.mem.log| - 1 && WakePending(s, s.mem.log[k].packet)
  }

  ghost predicate SleepInv(s: State) {
    forall q :: 0 <= q < |s.procs| ==> SleepOk(s, s.procs[q])
  }

  /** A step that is not a writer's own inside: nobody's wake is missed by it. */
  lemma OutsideKeepsSleepInv(v: Vehicle, s: State, s': State, i: nat)
    requires Shaped(v, s) && Shaped(v, s') && |s'.procs| == |s.procs| && i < |s.procs|
    requires SleepInv(s) && SameData(s.mem, s'.mem) && !InWrite(s.procs[i].pc)
    requires s'.procs[i].pc.Asleep? ==> s.mem.nonce == |s.mem.log| + 1 == s'.procs[i].view.lastNonce
    requires forall q :: 0 <= q < |s.procs| && q != i ==> Bystander(s.procs[q], s'.procs[q])
    ensures SleepInv(s')
  {
  }

  /** The steps of the one writer inside. */
  lemma InsideKeepsSleepInv(v: Vehicle, s: State, s': State, i: nat)
    requires Shaped(v, s) && Shaped(v, s') && |s'.procs| == |s.procs| && Alone(s, i)
    requires SleepInv(s) && InWrite(s.procs[i].pc) && Progress(s.mem, s.procs[i]) && Ready(v, s.mem, s.procs[i])
    requires HoldWrite(v, s.mem, s.procs[i]) == Local(s'.mem, s'.procs[i])
    requires forall q :: 0 <= q < |s.procs| && q != i ==> Bystander(s.procs[q], s'.procs[q])
    requires s.procs[i].pc.w.Wake? && s.procs[i].pc.job.wakes ==>
      forall q :: 0 <= q < |s.procs| && q != i ==>
        !(s'.procs[q].pc.Asleep? && Covers(s'.procs[q], s.procs[i].pc.job.packet))
    ensures SleepInv(s')
  {
    var p, p' := s.procs[i], s'.procs[i];
    assert forall packet :: WakePending(s, packet) ==> AboutToWake(p.pc, packet);
    assert p.pc.w.Bump? || s'.mem.log == s.mem.log;
    forall q | 0 <= q < |s.procs| && s'.procs[q].pc.Asleep?
      ensures SleepOk(s', s'.procs[q])
    {
      assert q != i && s'.procs[q] == s.procs[q];
      forall k | 0 <= k < |s'.mem.log| && s.procs[q].view.lastNonce <= k + 1
                 && s'.mem.log[k].wakes && Covers(s.procs[q], s'.mem.log[k].packet)
        ensures k == |s'.mem.log| - 1 && WakePending(s', s'.mem.log[k].packet)
      {
        assert k < |s.mem.log| ==> s'.mem.log[k] == s.mem.log[k];
        assert AboutToWake(p'.pc, s'.mem.log[k].packet);
      }
    }
  }

  lemma InsideIsAlone(s: State, i: nat)
    requires LockInv(s) && i < |s.procs| && InWrite(s.procs[i].pc)
    ensures Alone(s, i)
  {
    forall q | 0 <= q < |s.procs| && q != i
      ensures !InWrite(s.procs[q].pc)
    {
      Exclusive(s, i, q);
    }
  }

  lemma NextKeepsSleepInv(v: Vehicle, s: State, e: Event)
    requires WellLaid(v) && Shaped(v, s) && Enabled(v, s, e) && LockInv(s) && MemInv(v, s) && SleepInv(s)
    ensures SleepInv(Next(v, s, e))
  {
    var s', i := Next(v, s, e), e.pid;
    if e.choice.Tick? && InWrite(s.procs[i].pc) {
      InsideIsAlone(s, i);
      InsideKeepsSleepInv(v, s, s', i);
    } else {
      OutsideKeepsSleepInv(v, s, s', i);
    }
  }
}
