/** When the packet-list form of `read_lock` does lose wake-ups: it waits on bit `i` for the
    `i`-th listed packet, but a write of a packet wakes the bit of its id modulo 32. */
module LostWake {
  import opened Bytes
  import opened Layout
  import opened History
  import opened Protocol
  import opened Wakeup
  import opened Telemetry
  import opened Solo
  import opened Updating

  /** Before its commit. */
  predicate Before(w: WStage) {
    Entering(w) || w.Copy? || w.Bump?
  }

  /** Exactly one commit more, of packet `j`, that makes a wake call or makes none. */
  predicate OneCommitMore(log: seq<Commit>, log': seq<Commit>, j: nat, wakes: bool) {
    |log'| == |log| + 1 && log == log'[..|log|] && log'[|log|].packet == j && log'[|log|].wakes == wakes
  }

  /** A write has come some way from where the log was `log`. */
  predicate Underway(log: seq<Commit>, m: Memory, pc: Pc, job: Job) {
    && pc.W? && pc.job == job && !Leaving(pc.w)
    && (if Before(pc.w) then m.log == log else OneCommitMore(log, m.log, job.packet, job.wakes))
  }

  lemma StepUnderway(v: Vehicle, log: seq<Commit>, m: Memory, p: Proc)
    requires ShapedMem(v, m) && Shaped1(v, p) && Ready(v, m, p) && p.pc.W?
    requires Underway(log, m, p.pc, p.pc.job) && !p.pc.w.GiveResource?
    ensures var l := WriteStep(v, m, p);
      Underway(log, l.mem, l.proc.pc, p.pc.job) && Left(p.pc.job, l.proc.pc.w) < Left(p.pc.job, p.pc.w)
  {
  }

  /** The call does not wake sleeper `p`: it wakes nobody, or not the bits `p` waits on. */
  predicate Unwoken(p: Proc, job: Job) {
    p.pc.Asleep? && !(job.wakes && Covers(p, job.packet))
  }

  /** Another process sleeps and nobody but `w` is inside the protocol. */
  ghost predicate SleepsOn(p: Proc, t: State, w: nat, i: nat) {
    OthersOutside(t, w) && i < |t.procs| && i != w && t.procs[i] == p && p.pc.Asleep?
  }

  lemma StepSleepsOn(v: Vehicle, t: State, w: nat, i: nat, c: Choice)
    requires WellLaid(v) && Shaped(v, t) && i < |t.procs| && SleepsOn(t.procs[i], t, w, i) && Enabled(v, t, Event(w, c))
    requires t.procs[w].pc.W? ==> Unwoken(t.procs[i], t.procs[w].pc.job)
    ensures Next(v, t, Event(w, c)).procs[i] == t.procs[i]
  {
  }

  /** The call so far has brought `w` to `t` while `i` slept on. */
  ghost predicate SoFar(v: Vehicle, s: State, w: nat, c: Choice, n: nat, t: State, i: nat, job: Job)
    requires WellLaid(v) && Shaped(v, s) && i < |s.procs|
  {
    && Reaches(v, s, w, c, n, t) && i != w && t.procs[i] == s.procs[i] && Unwoken(s.procs[i], job)
    && Underway(s.mem.log, t.mem, t.procs[w].pc, job)
  }

  lemma OneStepMore(v: Vehicle, s: State, w: nat, c: Choice, n: nat, t: State, i: nat, job: Job)
    requires WellLaid(v) && Shaped(v, s) && i < |s.procs| && Shaped(v, t) && SoFar(v, s, w, c, n, t, i, job)
    requires !t.procs[w].pc.w.GiveResource?
    ensures Enabled(v, t, Event(w, Tick))
    ensures var t' := Next(v, t, Event(w, Tick));
      SoFar(v, s, w, c, n + 1, t', i, job) && Left(job, t'.procs[w].pc.w) < Left(job, t.procs[w].pc.w)
  {
    AloneIsReady(v, t, w);
    Solo.CallGoesOn(v, s, w, c, n, t);
    StepUnderway(v, s.mem.log, t.mem, t.procs[w]);
    StepSleepsOn(v, t, w, i, Tick);
  }

  // ---------------------------------------------------------------- a whole call

  /** The step begins a call: an idle process calls `write` or `clear`, or a session's flush comes
      to a marked packet and calls `write`. */
  predicate IsCall(p: Proc, c: Choice) {
    c.Direct? || c.Clear? || (c.Tick? && p.pc.Flush? && p.pc.k < |p.drafts.dirty| && p.drafts.dirty[p.pc.k])
  }

  /** The packet it is about. */
  function PacketOf(p: Proc, c: Choice): nat
    requires IsCall(p, c)
  {
    if c.Tick? then p.pc.k else c.packet
  }

  /** What the process sets out to do. */
  function JobOf(v: Vehicle, p: Proc, c: Choice): (j: Job)
    requires IsCall(p, c) && PacketOf(p, c) < |v.packets| && |p.drafts.buffers| == |v.packets|
    ensures j.packet == PacketOf(p, c) && j.wakes == !c.Clear?
  {
    if c.Direct? then Job(c.packet, c.data, true, ToIdle)
    else if c.Clear? then Job(c.packet, seq(v.packets[c.packet].size, _ => c.value), false, ToIdle)
    else Job(p.pc.k, p.drafts.buffers[p.pc.k], true, ToFlush(p.pc.k))
  }

  /** Process `i` sleeps and everybody else but `w` is outside the protocol. */
  ghost predicate Quiet(s: State, i: nat, w: nat) {
    i < |s.procs| && SleepsOn(s.procs[i], s, w, i)
  }

  lemma CallStarts(v: Vehicle, m: Memory, p: Proc, c: Choice)
    requires WellLaid(v) && ShapedMem(v, m) && Shaped1(v, p) && Allowed(v, m, p, c) && IsCall(p, c)
    ensures PacketOf(p, c) < |v.packets| && !p.pc.W?
    ensures var l := LocalStep(v, m, p, c); l.mem == m && l.proc.pc == W(EnterMutex, JobOf(v, p, c))
    ensures var l := LocalStep(v, m, p, c); Underway(m.log, l.mem, l.proc.pc, JobOf(v, p, c))
  {
  }

  /** The first step: process `w` begins its call. */
  lemma StartOf(v: Vehicle, s: State, w: nat, i: nat, c: Choice)
    requires WellLaid(v) && Shaped(v, s) && Inv(v, s) && Quiet(s, i, w)
    requires Enabled(v, s, Event(w, c)) && IsCall(s.procs[w], c)
    ensures PacketOf(s.procs[w], c) < |v.packets|
    ensures Unwoken(s.procs[i], JobOf(v, s.procs[w], c)) ==>
      SoFar(v, s, w, c, 0, Next(v, s, Event(w, c)), i, JobOf(v, s.procs[w], c))
  {
    CallStarts(v, s.mem, s.procs[w], c);
    CallBegins(v, s, w, c);
    StepSleepsOn(v, s, w, i, c);
  }

  /** After some number of steps the call is past its wake call, and the sleeper still sleeps. */
  lemma {:induction false} CallIsPast(v: Vehicle, s: State, w: nat, c: Choice, n: nat, t: State, i: nat, job: Job)
      returns (k: nat, u: State)
    requires WellLaid(v) && Shaped(v, s) && i < |s.procs| && Shaped(v, t) && SoFar(v, s, w, c, n, t, i, job)
    ensures Shaped(v, u) && SoFar(v, s, w, c, k, u, i, job) && u.procs[w].pc.w.GiveResource?
    decreases Left(job, t.procs[w].pc.w)
  {
    if t.procs[w].pc.w.GiveResource? {
      k, u := n, t;
    } else {
      OneStepMore(v, s, w, c, n, t, i, job);
      k, u := CallIsPast(v, s, w, c, n + 1, Next(v, t, Event(w, Tick)), i, job);
    }
  }

  /** A whole call, past its futex call, has been made and the sleeper sleeps on: there is one
      commit more, and no wake call for it is to come. */
  ghost predicate Missed(s: State, t: State, i: nat, j: nat, wakes: bool) {
    i < |s.procs| && i < |t.procs| && t.procs[i] == s.procs[i]
    && OneCommitMore(s.mem.log, t.mem.log, j, wakes) && !WakePending(t, j)
  }

  /** Some run that begins with the call ends with the call missed. */
  ghost predicate SleepsThrough(v: Vehicle, s: State, i: nat, w: nat, c: Choice)
    requires WellLaid(v) && Shaped(v, s) && w < |s.procs| && IsCall(s.procs[w], c)
  {
    exists run :: CanMiss(v, s, run, i, w, c)
  }

  ghost predicate CanMiss(v: Vehicle, s: State, run: seq<Event>, i: nat, w: nat, c: Choice)
    requires WellLaid(v) && Shaped(v, s) && w < |s.procs| && IsCall(s.procs[w], c)
  {
    && run != [] && run[0] == Event(w, c) && Valid(v, s, run)
    && Missed(s, Run(v, s, run), i, PacketOf(s.procs[w], c), !c.Clear?)
  }

  lemma PastIsMissed(s: State, t: State, w: nat, i: nat, job: Job)
    requires i < |s.procs| && i < |t.procs| && t.procs[i] == s.procs[i] && OthersOutside(t, w)
    requires t.procs[w].pc.W? && t.procs[w].pc.w.GiveResource? && Underway(s.mem.log, t.mem, t.procs[w].pc, job)
    ensures Missed(s, t, i, job.packet, job.wakes)
  {
  }

  /** A call that does not wake the sleeper is missed. */
  lemma UnwokenCallIsMissed(v: Vehicle, s: State, i: nat, w: nat, c: Choice)
    requires WellLaid(v) && Shaped(v, s) && Inv(v, s) && Quiet(s, i, w)
    requires Enabled(v, s, Event(w, c)) && IsCall(s.procs[w], c)
    requires c.Clear? || !Covers(s.procs[i], PacketOf(s.procs[w], c))
    ensures SleepsThrough(v, s, i, w, c)
  {
    StartOf(v, s, w, i, c);
    var job := JobOf(v, s.procs[w], c);
    var k, t := CallIsPast(v, s, w, c, 0, Next(v, s, Event(w, c)), i, job);
    PastIsMissed(s, t, w, i, job);
    assert CanMiss(v, s, CallRun(w, c, k), i, w, c);
  }

  lemma SleeperLooked(v: Vehicle, s: State, i: nat)
    requires Shaped(v, s) && Inv(v, s) && i < |s.procs| && s.procs[i].pc.Asleep?
    ensures s.procs[i].view.lastNonce <= |s.mem.log| + 1
  {
    assert ProcOk(v, s.mem, s.procs[i]);
  }

  /** A write that wakes the sleeper's bit is not. */
  lemma CoveredCallIsNotMissed(s: State, t: State, i: nat, j: nat)
    requires i < |s.procs| && i < |t.procs| && SleepOk(t, t.procs[i])
    requires s.procs[i].pc.Asleep? && Covers(s.procs[i], j) && s.procs[i].view.lastNonce <= |s.mem.log| + 1
    ensures !Missed(s, t, i, j, true)
  {
  }

  /** A sleeper sleeps through a whole call of `write` or `clear`, by itself or in a flush, exactly
      if the call is a `clear` or the sleeper does not wait on the bit that `write` wakes. */
  lemma SleepsThroughExactlyWhen(v: Vehicle, count: nat, before: seq<Event>, i: nat, w: nat, c: Choice)
    requires WellLaid(v) && Valid(v, Init(v, count), before) && Quiet(After(v, count, before), i, w)
    requires Enabled(v, After(v, count, before), Event(w, c)) && IsCall(After(v, count, before).procs[w], c)
    ensures var s := After(v, count, before);
      SleepsThrough(v, s, i, w, c) <==> c.Clear? || !Covers(s.procs[i], PacketOf(s.procs[w], c))
  {
    var s := After(v, count, before);
    ReachableInv(v, count, before);
    var j := PacketOf(s.procs[w], c);
    if c.Clear? || !Covers(s.procs[i], j) {
      UnwokenCallIsMissed(v, s, i, w, c);
    } else {
      SleeperLooked(v, s, i);
      forall run | run != [] && run[0] == Event(w, c) && Valid(v, s, run)
        ensures !CanMiss(v, s, run, i, w, c)
      {
        RunKeepsInv(v, s, run);
        CoveredCallIsNotMissed(s, Run(v, s, run), i, j);
      }
    }
  }

  // ---------------------------------------------------------------- exactly when

  /** Packet `j` has a newer nonce than the one sleeper `p` knows, and its last write was no
      `clear`. */
  ghost predicate NewsFor(p: Proc, t: State, i: nat, j: nat)
    requires j < |p.view.lastNonces|
  {
    && i < |t.procs| && t.procs[i] == p && PacketNonce(t.mem.log, j) != p.view.lastNonces[j]
    && LastWakes(t.mem.log, j)
  }

  /** Whatever happens from here, process `i` does not sleep through a write of packet `j`:
      once there is news of it, a wake call for it is still to come. */
  ghost predicate AlwaysWoken(v: Vehicle, s: State, i: nat, j: nat)
    requires WellLaid(v) && Shaped(v, s) && i < |s.procs| && j < |v.packets|
  {
    forall run | Valid(v, s, run) :: NewsFor(s.procs[i], Run(v, s, run), i, j) ==> WakePending(Run(v, s, run), j)
  }

  lemma SleeperIsWoken(v: Vehicle, s: State, i: nat, j: nat, run: seq<Event>)
    requires WellLaid(v) && Shaped(v, s) && Inv(v, s) && i < |s.procs| && j < |v.packets| && Valid(v, s, run)
    requires s.procs[i].pc.Asleep? && !s.procs[i].checkAll && j in s.procs[i].ids && Covers(s.procs[i], j)
    ensures NewsFor(s.procs[i], Run(v, s, run), i, j) ==> WakePending(Run(v, s, run), j)
  {
    RunKeepsInv(v, s, run);
    if NewsFor(s.procs[i], Run(v, s, run), i, j) {
      NoLostWakeupListed(v, Run(v, s, run), i, j);
    }
  }

  lemma KnownNonceIsOld(v: Vehicle, s: State, i: nat, j: nat)
    requires Shaped(v, s) && Inv(v, s) && i < |s.procs| && j < |v.packets|
    ensures s.procs[i].view.lastNonces[j] <= |s.mem.log| + 1
  {
    assert ProcOk(v, s.mem, s.procs[i]);
  }

  lemma MissedWriteIsNews(s: State, i: nat, j: nat, t: State)
    requires i < |s.procs| && j < |s.procs[i].view.lastNonces| && Missed(s, t, i, j, true)
    requires s.procs[i].view.lastNonces[j] <= |s.mem.log| + 1
    ensures NewsFor(s.procs[i], t, i, j)
  {
    assert PacketNonce(t.mem.log, j) == |t.mem.log| + 1;
  }

  /** Process `i` sleeps in the listed form with packet `j` in its list, and process `w` can begin
      a write of `j`, by a call of its own or in a flush. */
  ghost predicate Listening(v: Vehicle, s: State, i: nat, w: nat, c: Choice, j: nat) {
    && Quiet(s, i, w) && !s.procs[i].checkAll && j in s.procs[i].ids && j < |v.packets|
    && Enabled(v, s, Event(w, c)) && IsCall(s.procs[w], c) && !c.Clear? && PacketOf(s.procs[w], c) == j
  }

  /** The bit of a packet is one of the list's: its id modulo 32 is below the length of the list. */
  predicate BitListed(p: Proc, j: nat) {
    j % 32 < |p.ids|
  }

  lemma UncoveredIsNotWoken(v: Vehicle, s: State, i: nat, w: nat, c: Choice, j: nat)
    requires WellLaid(v) && Shaped(v, s) && Inv(v, s) && Listening(v, s, i, w, c, j) && !Covers(s.procs[i], j)
    ensures !AlwaysWoken(v, s, i, j)
  {
    UnwokenCallIsMissed(v, s, i, w, c);
    var run :| CanMiss(v, s, run, i, w, c);
    KnownNonceIsOld(v, s, i, j);
    MissedWriteIsNews(s, i, j, Run(v, s, run));
  }

  /** The listed form is safe for packet `j` exactly when the id modulo 32 is below the length
      of the list, whatever the place of `j` in the list is. */
  lemma WokenExactlyWhenCovered(v: Vehicle, count: nat, before: seq<Event>, i: nat, w: nat, c: Choice, j: nat)
    requires WellLaid(v) && Valid(v, Init(v, count), before) && Listening(v, After(v, count, before), i, w, c, j)
    ensures AlwaysWoken(v, After(v, count, before), i, j) <==> BitListed(After(v, count, before).procs[i], j)
  {
    var s := After(v, count, before);
    ReachableInv(v, count, before);
    if Covers(s.procs[i], j) {
      forall run | Valid(v, s, run)
        ensures NewsFor(s.procs[i], Run(v, s, run), i, j) ==> WakePending(Run(v, s, run), j)
      {
        SleeperIsWoken(v, s, i, j, run);
      }
    } else {
      UncoveredIsNotWoken(v, s, i, w, c, j);
    }
  }

  // ---------------------------------------------------------------- a sleeper that is missed

  /** A viewer of packet `j` alone that has gone to sleep before the first write. */
  predicate SleepsFor(t: State, j: nat) {
    && |t.procs| == 2 && t.procs[0].pc.Asleep? && t.procs[0].ids == [j] && !t.procs[0].checkAll
    && t.procs[1].pc.Idle?
  }

  /** Two processes of which one tracks packet `j` alone, and nothing has happened yet. */
  ghost predicate TracksOne(s: State, j: nat) {
    && |s.procs| == 2 && s.procs[0].pc.Idle? && s.procs[1].pc.Idle? && s.procs[0].ids == [j] && !s.procs[0].checkAll
    && !News(s.mem.log, s.procs[0])
  }

  lemma AddsOne(v: Vehicle, j: nat) returns (t: State)
    requires WellLaid(v) && j < |v.packets|
    ensures Shaped(v, t) && Inv(v, t) && Reaches(v, Init(v, 2), 0, Add(j), 0, t) && TracksOne(t, j)
  {
    var s := Init(v, 2);
    InitInv(v, 2);
    CallBegins(v, s, 0, Add(j));
    t := Next(v, s, Event(0, Add(j)));
  }

  lemma NothingNewSleeps(log: seq<Commit>, m: Memory, p: Proc, p': Proc)
    requires ComesOut(log, m, p, p') && !News(log, p) && p'.mode.Blocking? && p.ids != []
    ensures p'.pc.Asleep? && p'.ids == p.ids && p'.checkAll == p.checkAll
  {
  }

  lemma FallsAsleep(v: Vehicle, s: State, j: nat) returns (n: nat, t: State)
    requires WellLaid(v) && Shaped(v, s) && Inv(v, s) && TracksOne(s, j)
    ensures Leads(v, s, 0, Update(Blocking), n, t) && SleepsFor(t, j)
  {
    n, t := UpdateEnds(v, s, 0, Blocking);
    NothingNewSleeps(s.mem.log, t.mem, s.procs[0], t.procs[0]);
  }

  /** From the start process 0 adds packet `j` and calls `update` in blocking mode. */
  lemma SleeperOf(v: Vehicle, j: nat) returns (run: seq<Event>)
    requires WellLaid(v) && j < |v.packets|
    ensures Valid(v, Init(v, 2), run) && SleepsFor(Run(v, Init(v, 2), run), j)
  {
    var s := AddsOne(v, j);
    var n, t := FallsAsleep(v, s, j);
    run := CallRun(0, Add(j), 0) + CallRun(0, Update(Blocking), n);
    LeadsTwice(v, Init(v, 2), 0, Add(j), 0, s, 0, Update(Blocking), n, t);
  }

  /** The failure is real: a viewer of one single packet whose id is not a multiple of 32 is
      never woken by a write of it. */
  lemma LoneListenerIsMissed(v: Vehicle, j: nat) returns (run: seq<Event>)
    requires WellLaid(v) && j < |v.packets| && !v.packets[j].isVirtual && j % 32 != 0
    ensures Valid(v, Init(v, 2), run)
    ensures var t := Run(v, Init(v, 2), run); t.procs[0].pc.Asleep? && t.procs[0].ids == [j] && !AlwaysWoken(v, t, 0, j)
  {
    run := SleeperOf(v, j);
    assert Run(v, Init(v, 2), run).procs[0].ids[0] == j;
    WokenExactlyWhenCovered(v, 2, run, 0, 1, Direct(j, Zeros(v.packets[j].size)), j);
  }

  /** And whatever its packet is, it can sleep through a whole `clear` of it. */
  lemma ClearIsMissed(v: Vehicle, j: nat, x: byte) returns (run: seq<Event>)
    requires WellLaid(v) && j < |v.packets| && !v.packets[j].isVirtual
    ensures Valid(v, Init(v, 2), run)
    ensures var t := Run(v, Init(v, 2), run);
      t.procs[0].pc.Asleep? && t.procs[0].ids == [j] && SleepsThrough(v, t, 0, 1, Clear(j, x))
  {
    run := SleeperOf(v, j);
    SleepsThroughExactlyWhen(v, 2, run, 0, 1, Clear(j, x));
  }
}
