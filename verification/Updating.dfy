/** How `TelemetryViewer::update` ends when nobody else is inside the readers-writers protocol, and
    what it returns once it has been let in. */
module Updating {
  import opened Layout
  import opened History
  import opened Caches
  import opened Protocol
  import opened Snapshots
  import opened Viewing
  import opened Telemetry
  import opened Solo

  // ---------------------------------------------------------------- what follows the copying

  lemma TickKeepsUpdated(v: Vehicle, m: Memory, p: Proc)
    requires WellLaid(v) && ShapedMem(v, m) && Shaped1(v, p) && Ready(v, m, p) && Updated(p)
    ensures Updated(LocalStep(v, m, p, Tick).proc)
  {
  }

  /** Whatever the others do, a process that was let in and has come out of its call has success. */
  lemma {:induction false} LetInSucceeds(v: Vehicle, s: State, run: seq<Event>, r: nat)
    requires WellLaid(v) && Shaped(v, s) && Valid(v, s, run) && r < |s.procs| && Updated(s.procs[r])
    requires forall k :: 0 <= k < |run| && run[k].pid == r ==> run[k].choice.Tick?
    ensures Updated(Run(v, s, run).procs[r])
    ensures Run(v, s, run).procs[r].pc.Idle? ==> Run(v, s, run).procs[r].outcome == Success
    decreases |run|
  {
    if run != [] {
      if run[0].pid == r {
        TickKeepsUpdated(v, s.mem, s.procs[r]);
      }
      LetInSucceeds(v, Next(v, s, run[0]), run[1..], r);
    }
  }

  // ---------------------------------------------------------------- a call that is alone

  /** The check lets the process in. */
  predicate Admits(m: Memory, p: Proc)
    requires Sized(p.view, |m.nonces|)
  {
    p.mode.Standard? || SeesChange(m, p)
  }

  predicate SeesChange(m: Memory, p: Proc)
    requires Sized(p.view, |m.nonces|)
  {
    if p.checkAll then p.view.lastNonce != m.nonce else AnyChanged(p.view, p.ids, m.nonces)
  }

  /** How `update` ends for a process that does not have to wait for others, when there is something
      new for it or there is not. A futex wait on no bits at all is refused. */
  predicate EndsAs(p: Proc, news: bool) {
    if p.mode.Standard? || news then JustUpdated(p)
    else if p.mode.NonBlocking? then p.pc.Idle? && p.outcome.Blocked?
    else if !p.checkAll && p.ids == [] then p.pc.Idle? && p.outcome.Failed?
    else p.pc.Asleep?
  }

  predicate Ended(pc: Pc) {
    pc.Idle? || pc.Asleep?
  }

  /** Where the call can be once the check has answered. */
  predicate Heads(p: Proc, admits: bool) {
    match p.pc
    case Copying(_) => admits
    case U(_, a) => a == (if admits then Finish else if p.mode.Blocking? then Sleep else GiveUp)
    case FutexCall => !admits && p.mode.Blocking?
    case _ => false
  }

  /** The call of a process that was `p0` when it began. Nothing is written meanwhile. */
  predicate Asking(m: Memory, p0: Proc, p: Proc)
    requires Sized(p0.view, |m.nonces|)
  {
    && p.ids == p0.ids && p.checkAll == p0.checkAll && p.mode == p0.mode
    && if p.pc.R? then p == p0.(pc := p.pc)
       else
         && (if Admits(m, p0) then p.synced == |m.log| else p.view.lastNonce == m.nonce && p.buffers == p0.buffers)
         && if Ended(p.pc) then EndsAs(p, Admits(m, p0)) else Heads(p, Admits(m, p0))
  }

  /** Steps it still has to take, at most. */
  function ToGo(p: Proc): nat {
    match p.pc
    case R(r) => |p.ids| + (match r case RTakeTry => 15 case RTakeMutex => 14 case RCountIn => 13 case RTestFirst => 12
                                    case RTakeResource => 11 case RLeaveMutex => 10 case RGiveTry => 9 case RCheck => 8)
    case Copying(k) => if k <= |p.ids| then |p.ids| - k + 7 else 0
    case U(u, _) => (match u case UTakeMutex => 6 case UCountOut => 5 case UTestLast => 4 case UGiveResource => 3
                             case ULeaveMutex => 2)
    case FutexCall => 1
    case _ => 0
  }

  lemma CheckAnswers(v: Vehicle, m: Memory, p0: Proc, p: Proc)
    requires ShapedMem(v, m) && Shaped1(v, p) && Shaped1(v, p0) && Asking(m, p0, p) && p.pc == R(RCheck)
    ensures Asking(m, p0, CheckStep(v, m, p)) && ToGo(CheckStep(v, m, p)) < ToGo(p)
  {
  }

  lemma EnterAsks(v: Vehicle, m: Memory, p0: Proc, p: Proc)
    requires ShapedMem(v, m) && Shaped1(v, p) && Shaped1(v, p0) && Asking(m, p0, p) && p.pc.R? && Ready(v, m, p)
    ensures var l := EnterRead(v, m, p); Asking(l.mem, p0, l.proc) && ToGo(l.proc) < ToGo(p)
  {
    if p.pc.r.RCheck? {
      CheckAnswers(v, m, p0, p);
    }
  }

  lemma LeaveAsks(v: Vehicle, m: Memory, p0: Proc, p: Proc)
    requires ShapedMem(v, m) && Shaped1(v, p) && Shaped1(v, p0) && Asking(m, p0, p) && p.pc.U? && Ready(v, m, p)
    ensures var l := LeaveRead(v, m, p); Asking(l.mem, p0, l.proc) && ToGo(l.proc) < ToGo(p)
  {
  }

  lemma ViewAsks(v: Vehicle, m: Memory, p0: Proc, p: Proc)
    requires ShapedMem(v, m) && Shaped1(v, p) && Shaped1(v, p0) && Asking(m, p0, p)
    requires p.pc.Copying? || p.pc.FutexCall?
    ensures var l := ViewStep(v, m, p); Asking(l.mem, p0, l.proc) && ToGo(l.proc) < ToGo(p)
  {
  }

  lemma AskStep(v: Vehicle, m: Memory, p0: Proc, p: Proc)
    requires WellLaid(v) && ShapedMem(v, m) && Shaped1(v, p) && Shaped1(v, p0) && Asking(m, p0, p) && !Ended(p.pc)
    requires Ready(v, m, p)
    ensures var l := LocalStep(v, m, p, Tick); SameData(m, l.mem) && Asking(l.mem, p0, l.proc) && ToGo(l.proc) < ToGo(p)
  {
    if p.pc.R? {
      EnterAsks(v, m, p0, p);
    } else if p.pc.U? {
      LeaveAsks(v, m, p0, p);
    } else {
      ViewAsks(v, m, p0, p);
    }
  }

  // ---------------------------------------------------------------- what is new

  /** Something is new for the process: for the listed form, a packet on its list was written since it
      was last refreshed; for the other, the number of writes is not the one it last saw. */
  ghost predicate News(log: seq<Commit>, p: Proc) {
    if p.checkAll then p.view.lastNonce != |log| + 1
    else exists k :: 0 <= k < |p.ids| && p.ids[k] < |p.seen| && WrittenSince(log, p.seen[p.ids[k]], p.ids[k])
  }

  lemma SeesNews(v: Vehicle, m: Memory, p: Proc)
    requires ShapedMem(v, m) && Shaped1(v, p) && NoncesOk(v, m.log, p) && Settled(v, m)
    ensures SeesChange(m, p) <==> News(m.log, p)
  {
    if !p.checkAll {
      forall k | 0 <= k < |p.ids|
        ensures p.view.lastNonces[p.ids[k]] != m.nonces[p.ids[k]] <==> WrittenSince(m.log, p.seen[p.ids[k]], p.ids[k])
      {
        FlagMeansWritten(v, m, p, p.ids[k]);
      }
    }
  }

  /** While everybody is outside the protocol the memory is exactly what the history says. */
  lemma SettledOutside(v: Vehicle, s: State, w: nat)
    requires Shaped(v, s) && MemInv(v, s) && OthersOutside(s, w) && Outside(s.procs[w].pc)
    ensures Settled(v, s.mem)
  {
    forall q | 0 <= q < |s.procs|
      ensures !InWrite(s.procs[q].pc)
    {
    }
  }

  /** The process as its call of `update` begins. */
  function Begun(p: Proc, mode: Mode): (p': Proc)
    ensures |p'.view.updated| == |p.view.updated| && p'.view.lastNonces == p.view.lastNonces
  {
    p.(pc := R(RTakeTry), mode := mode, outcome := NoOutcome, view := ClearFlags(p.view))
  }

  lemma BegunAdmits(v: Vehicle, m: Memory, p: Proc, mode: Mode)
    requires ShapedMem(v, m) && Shaped1(v, p) && NoncesOk(v, m.log, p) && Settled(v, m)
    ensures Admits(m, Begun(p, mode)) <==> mode.Standard? || News(m.log, p)
  {
    SeesNews(v, m, p);
    assert SeesChange(m, Begun(p, mode)) == SeesChange(m, p);
  }

  /** The call so far, of a process that was `p0` when it was about to take the read lock. */
  ghost predicate AsksSoFar(v: Vehicle, s: State, r: nat, c: Choice, p0: Proc, n: nat, t: State)
    requires WellLaid(v) && Shaped(v, s) && Shaped1(v, p0) && r < |s.procs|
  {
    Reaches(v, s, r, c, n, t) && SameData(s.mem, t.mem) && Asking(t.mem, p0, t.procs[r])
  }

  lemma AskGoesOn(v: Vehicle, s: State, r: nat, c: Choice, p0: Proc, n: nat, t: State)
    requires WellLaid(v) && Shaped(v, s) && Shaped1(v, p0) && Shaped(v, t) && r < |s.procs|
    requires AsksSoFar(v, s, r, c, p0, n, t) && !Ended(t.procs[r].pc)
    ensures Enabled(v, t, Event(r, Tick))
    ensures var t' := Next(v, t, Event(r, Tick));
      AsksSoFar(v, s, r, c, p0, n + 1, t') && ToGo(t'.procs[r]) < ToGo(t.procs[r])
  {
    if t.procs[r].pc.R? || t.procs[r].pc.U? {
      AloneIsReady(v, t, r);
    }
    CallGoesOn(v, s, r, c, n, t);
    AskStep(v, t.mem, p0, t.procs[r]);
  }

  lemma {:induction false} AskEnds(v: Vehicle, s: State, r: nat, c: Choice, p0: Proc, n: nat, t: State)
      returns (k: nat, u: State)
    requires WellLaid(v) && Shaped(v, s) && Shaped1(v, p0) && Shaped(v, t) && r < |s.procs|
    requires AsksSoFar(v, s, r, c, p0, n, t)
    ensures Shaped(v, u) && AsksSoFar(v, s, r, c, p0, k, u) && Ended(u.procs[r].pc)
    decreases ToGo(t.procs[r])
  {
    if Ended(t.procs[r].pc) {
      k, u := n, t;
    } else {
      AskGoesOn(v, s, r, c, p0, n, t);
      k, u := AskEnds(v, s, r, c, p0, n + 1, Next(v, t, Event(r, Tick)));
    }
  }

  /** Every tracked buffer is the packet as it is now in shared memory. */
  predicate Current(m: Memory, p: Proc) {
    forall k :: 0 <= k < |p.ids| ==>
      p.ids[k] < |p.buffers| && p.ids[k] < |m.packets| && p.buffers[p.ids[k]] == m.packets[p.ids[k]]
  }

  lemma SyncedIsCurrent(v: Vehicle, m: Memory, p: Proc)
    requires ShapedMem(v, m) && Shaped1(v, p) && ViewOk(v, m.log, p) && Settled(v, m) && JustUpdated(p)
    requires p.synced == |m.log|
    ensures Current(m, p)
  {
    assert m.log[..|m.log|] == m.log;
    forall k | 0 <= k < |p.ids|
      ensures p.buffers[p.ids[k]] == m.packets[p.ids[k]]
    {
      assert p.ids[k] in p.ids && !StillToCopy(p, p.ids[k]);
    }
  }

  /** How it comes out of the call: by success exactly in the standard mode or if something is new, and
      then with the buffers it tracks as in shared memory. */
  ghost predicate ComesOut(log: seq<Commit>, m: Memory, p: Proc, p': Proc) {
    && p'.ids == p.ids && p'.checkAll == p.checkAll && EndsAs(p', News(log, p))
    && (JustUpdated(p') ==> p'.synced == |m.log| && Current(m, p'))
    && (!JustUpdated(p') ==> p'.buffers == p.buffers)
  }

  lemma AskedComesOut(v: Vehicle, s: State, r: nat, c: Choice, p0: Proc, n: nat, t: State)
    requires WellLaid(v) && Shaped(v, s) && Shaped1(v, p0) && Shaped(v, t) && r < |s.procs|
    requires AsksSoFar(v, s, r, c, p0, n, t) && Ended(t.procs[r].pc)
    requires Admits(s.mem, p0) <==> p0.mode.Standard? || News(s.mem.log, s.procs[r])
    requires var p := s.procs[r]; p0.ids == p.ids && p0.checkAll == p.checkAll && p0.buffers == p.buffers
    ensures ComesOut(s.mem.log, t.mem, s.procs[r], t.procs[r])
  {
    assert ProcOk(v, t.mem, t.procs[r]);
    if JustUpdated(t.procs[r]) {
      SettledOutside(v, t, r);
      SyncedIsCurrent(v, t.mem, t.procs[r]);
    }
  }

  /** A call of `update` by itself comes to its end in every mode. */
  lemma UpdateEnds(v: Vehicle, s: State, r: nat, mode: Mode) returns (n: nat, t: State)
    requires WellLaid(v) && Shaped(v, s) && Inv(v, s) && OthersOutside(s, r) && s.procs[r].pc.Idle?
    ensures Shaped(v, t) && Reaches(v, s, r, Update(mode), n, t) && SameData(s.mem, t.mem)
    ensures t.procs[r].mode == mode && ComesOut(s.mem.log, t.mem, s.procs[r], t.procs[r])
  {
    var p0 := Begun(s.procs[r], mode);
    CallBegins(v, s, r, Update(mode));
    n, t := AskEnds(v, s, r, Update(mode), p0, 0, Next(v, s, Event(r, Update(mode))));
    SettledOutside(v, s, r);
    assert ProcOk(v, s.mem, s.procs[r]);
    BegunAdmits(v, s.mem, s.procs[r], mode);
    AskedComesOut(v, s, r, Update(mode), p0, n, t);
  }

  function Again(p: Proc): Proc {
    p.(pc := R(RTakeTry))
  }

  lemma WakeAdmits(v: Vehicle, m: Memory, p: Proc)
    requires ShapedMem(v, m) && Shaped1(v, p) && NoncesOk(v, m.log, p) && Settled(v, m)
    ensures Admits(m, Again(p)) <==> p.mode.Standard? || News(m.log, p)
  {
    SeesNews(v, m, p);
    assert SeesChange(m, Again(p)) == SeesChange(m, p);
  }

  lemma RecheckStep(v: Vehicle, m: Memory, p: Proc)
    requires WellLaid(v) && ShapedMem(v, m) && Shaped1(v, p) && p.pc.Recheck? && m.nonce > 0
    ensures Shaped1(v, Again(p)) && LocalStep(v, m, p, Tick) == Local(m, Again(p)) && Asking(m, Again(p), Again(p))
  {
  }

  lemma WakeBegins(v: Vehicle, s: State, r: nat)
    requires WellLaid(v) && Shaped(v, s) && Inv(v, s) && OthersOutside(s, r) && s.procs[r].pc.Recheck?
    ensures Shaped1(v, Again(s.procs[r]))
    ensures AsksSoFar(v, s, r, Tick, Again(s.procs[r]), 0, Next(v, s, Event(r, Tick)))
  {
    RecheckStep(v, s.mem, s.procs[r]);
    CallBegins(v, s, r, Tick);
  }

  /** A process that has been woken looks again, and comes out of its call in the same way. */
  lemma WokenEnds(v: Vehicle, s: State, r: nat) returns (n: nat, t: State)
    requires WellLaid(v) && Shaped(v, s) && Inv(v, s) && OthersOutside(s, r) && s.procs[r].pc.Recheck?
    ensures Shaped(v, t) && Reaches(v, s, r, Tick, n, t) && SameData(s.mem, t.mem)
    ensures t.procs[r].mode == s.procs[r].mode && ComesOut(s.mem.log, t.mem, s.procs[r], t.procs[r])
  {
    var p0 := Again(s.procs[r]);
    WakeBegins(v, s, r);
    n, t := AskEnds(v, s, r, Tick, p0, 0, Next(v, s, Event(r, Tick)));
    SettledOutside(v, s, r);
    assert ProcOk(v, s.mem, s.procs[r]);
    WakeAdmits(v, s.mem, s.procs[r]);
    AskedComesOut(v, s, r, Tick, p0, n, t);
  }

  /** From every reachable state in which a process is idle and the others are outside the protocol,
      its call of `update`, with its own steps only, ends this way. */
  lemma UpdateByItself(v: Vehicle, count: nat, before: seq<Event>, r: nat, mode: Mode) returns (n: nat, t: State)
    requires WellLaid(v) && Valid(v, Init(v, count), before)
    requires var s := After(v, count, before); OthersOutside(s, r) && s.procs[r].pc.Idle?
    ensures Leads(v, After(v, count, before), r, Update(mode), n, t) && |t.procs| == count
    ensures SameData(After(v, count, before).mem, t.mem) && t.procs[r].mode == mode
    ensures var s := After(v, count, before); ComesOut(s.mem.log, t.mem, s.procs[r], t.procs[r])
  {
    ReachableInv(v, count, before);
    n, t := UpdateEnds(v, After(v, count, before), r, mode);
  }
}
