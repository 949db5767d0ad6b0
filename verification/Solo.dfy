/** What a process does while nobody else is inside the readers-writers protocol: it never waits, and
    each of its calls comes to its end. */
module Solo {
  import opened Layout
  import opened Protocol
  import opened Exclusion
  import opened Telemetry

  /** Outside the readers-writers protocol. */
  predicate Outside(pc: Pc) {
    Weigh(pc) == NOBODY && !pc.W? && !pc.R?
  }

  ghost predicate OthersOutside(s: State, w: nat) {
    w < |s.procs| && forall q :: 0 <= q < |s.procs| && q != w ==> Outside(s.procs[q].pc)
  }

  lemma NobodyMore(ts: seq<Tally>, n: nat, i: nat)
    requires 0 < n <= |ts| && n - 1 != i && ts[n - 1] == NOBODY
    ensures TotalBut(ts, n, i) == TotalBut(ts, n - 1, i)
  {
  }

  lemma {:induction false} RestOfNobody(ts: seq<Tally>, n: nat, i: nat)
    requires n <= |ts| && forall q :: 0 <= q < |ts| && q != i ==> ts[q] == NOBODY
    ensures TotalBut(ts, n, i) == NOBODY
  {
    if n != 0 {
      RestOfNobody(ts, n - 1, i);
      if n - 1 != i {
        NobodyMore(ts, n, i);
      }
    }
  }

  lemma AloneBalanced(s: State, w: nat)
    requires LockInv(s) && OthersOutside(s, w)
    ensures Balanced(s.mem, Weigh(s.procs[w].pc))
  {
    SetApart(s.procs, w, s.procs[w]);
    RestOfNobody(Weights(s.procs), |s.procs|, w);
    assert Plus(Weigh(s.procs[w].pc), NOBODY) == Weigh(s.procs[w].pc);
  }

  lemma WriterReady(v: Vehicle, m: Memory, p: Proc)
    requires Balanced(m, Weigh(p.pc)) && p.pc.W?
    ensures Ready(v, m, p)
  {
  }

  lemma ReaderReady(v: Vehicle, m: Memory, p: Proc)
    requires Balanced(m, Weigh(p.pc)) && (p.pc.R? || p.pc.U?)
    ensures Ready(v, m, p)
  {
  }

  /** A process that is alone in the protocol never has to wait there. */
  lemma AloneIsReady(v: Vehicle, s: State, w: nat)
    requires LockInv(s) && OthersOutside(s, w) && (s.procs[w].pc.W? || s.procs[w].pc.R? || s.procs[w].pc.U?)
    ensures Ready(v, s.mem, s.procs[w])
  {
    AloneBalanced(s, w);
    if s.procs[w].pc.W? {
      WriterReady(v, s.mem, s.procs[w]);
    } else {
      ReaderReady(v, s.mem, s.procs[w]);
    }
  }

  // ---------------------------------------------------------------- longer runs

  lemma LaterTail(run: seq<Event>, more: seq<Event>)
    requires |run| > 0
    ensures (run + more)[0] == run[0] && (run + more)[1..] == run[1..] + more
  {
  }

  lemma {:induction false} Append(v: Vehicle, s: State, run: seq<Event>, more: seq<Event>)
    requires WellLaid(v) && Shaped(v, s) && Valid(v, s, run) && Valid(v, Run(v, s, run), more)
    ensures Valid(v, s, run + more) && Run(v, s, run + more) == Run(v, Run(v, s, run), more)
    decreases |run|
  {
    if run == [] {
      assert run + more == more;
    } else {
      LaterTail(run, more);
      Append(v, Next(v, s, run[0]), run[1..], more);
    }
  }

  lemma Extend(v: Vehicle, s: State, run: seq<Event>, e: Event)
    requires WellLaid(v) && Shaped(v, s) && Valid(v, s, run) && Enabled(v, Run(v, s, run), e)
    ensures Valid(v, s, run + [e]) && Run(v, s, run + [e]) == Next(v, Run(v, s, run), e)
  {
    assert [e][1..] == [];
    Append(v, s, run, [e]);
  }

  /** A call and the `n` steps of its own that follow it. */
  function CallRun(w: nat, c: Choice, n: nat): (run: seq<Event>)
    ensures |run| == n + 1 && run[0] == Event(w, c)
    ensures forall k :: 0 < k <= n ==> run[k] == Event(w, Tick)
  {
    if n == 0 then [Event(w, c)] else CallRun(w, c, n - 1) + [Event(w, Tick)]
  }

  /** What the others do in the meantime: nothing, but that a sleeper may be woken. */
  ghost predicate OthersStay(s: State, t: State, w: nat) {
    |t.procs| == |s.procs| && forall q :: 0 <= q < |s.procs| && q != w ==> Bystander(s.procs[q], t.procs[q])
  }

  lemma OthersStayOn(s: State, t: State, u: State, w: nat)
    requires OthersStay(s, t, w) && OthersStay(t, u, w)
    ensures OthersStay(s, u, w)
  {
  }

  /** The call leads from `s` to `t` in `n` steps. */
  ghost predicate Leads(v: Vehicle, s: State, w: nat, c: Choice, n: nat, t: State)
    requires WellLaid(v) && Shaped(v, s)
  {
    Valid(v, s, CallRun(w, c, n)) && t == Run(v, s, CallRun(w, c, n))
  }

  lemma LeadsTwice(v: Vehicle, s: State, w: nat, c: Choice, n: nat, t: State, w': nat, c': Choice, n': nat, t': State)
    requires WellLaid(v) && Shaped(v, s) && Shaped(v, t) && Leads(v, s, w, c, n, t) && Leads(v, t, w', c', n', t')
    ensures var run := CallRun(w, c, n) + CallRun(w', c', n'); Valid(v, s, run) && Run(v, s, run) == t'
  {
    Append(v, s, CallRun(w, c, n), CallRun(w', c', n'));
  }

  /** And all is well there. */
  ghost predicate Reaches(v: Vehicle, s: State, w: nat, c: Choice, n: nat, t: State)
    requires WellLaid(v) && Shaped(v, s)
  {
    Leads(v, s, w, c, n, t) && Shaped(v, t) && Inv(v, t) && OthersOutside(t, w) && OthersStay(s, t, w)
  }

  lemma NextStays(v: Vehicle, s: State, e: Event)
    requires WellLaid(v) && Shaped(v, s) && Enabled(v, s, e) && OthersOutside(s, e.pid)
    ensures OthersOutside(Next(v, s, e), e.pid) && OthersStay(s, Next(v, s, e), e.pid)
  {
  }

  lemma CallBegins(v: Vehicle, s: State, w: nat, c: Choice)
    requires WellLaid(v) && Shaped(v, s) && Inv(v, s) && OthersOutside(s, w) && Enabled(v, s, Event(w, c))
    ensures Reaches(v, s, w, c, 0, Next(v, s, Event(w, c)))
  {
    var e := Event(w, c);
    NextStays(v, s, e);
    NextKeepsInv(v, s, e);
    Extend(v, s, [], e);
    assert [] + [e] == [e];
  }

  lemma LeadsOn(v: Vehicle, s: State, w: nat, c: Choice, n: nat, t: State)
    requires WellLaid(v) && Shaped(v, s) && Shaped(v, t) && Leads(v, s, w, c, n, t) && Enabled(v, t, Event(w, Tick))
    ensures Leads(v, s, w, c, n + 1, Next(v, t, Event(w, Tick)))
  {
    Extend(v, s, CallRun(w, c, n), Event(w, Tick));
    assert CallRun(w, c, n + 1) == CallRun(w, c, n) + [Event(w, Tick)];
  }

  lemma CallGoesOn(v: Vehicle, s: State, w: nat, c: Choice, n: nat, t: State)
    requires WellLaid(v) && Shaped(v, s) && Shaped(v, t) && Reaches(v, s, w, c, n, t)
    requires Ready(v, t.mem, t.procs[w])
    ensures Reaches(v, s, w, c, n + 1, Next(v, t, Event(w, Tick)))
  {
    var e := Event(w, Tick);
    LeadsOn(v, s, w, c, n, t);
    NextStays(v, t, e);
    NextKeepsInv(v, t, e);
    OthersStayOn(s, t, Next(v, t, e), w);
  }

  // ---------------------------------------------------------------- how far a write has come

  /** Steps a write still has to take. */
  function Left(j: Job, w: WStage): nat {
    match w
    case EnterMutex => |j.data| + 15
    case CountIn => |j.data| + 14
    case TestFirst => |j.data| + 13
    case TakeTry => |j.data| + 12
    case LeaveMutex => |j.data| + 11
    case TakeResource => |j.data| + 10
    case Copy(done) => if done <= |j.data| then |j.data| - done + 9 else 9
    case Bump => 8
    case Stamp => 7
    case Wake => 6
    case GiveResource => 5
    case ReenterMutex => 4
    case CountOut => 3
    case TestLast => 2
    case GiveTry => 1
    case ExitMutex => 0
  }

  lemma LeavingMovesOn(v: Vehicle, m: Memory, p: Proc)
    requires ShapedMem(v, m) && Shaped1(v, p) && Ready(v, m, p) && p.pc.W? && Leaving(p.pc.w)
    ensures var pc := LeaveWrite(v, m, p).proc.pc; pc.W? ==> Left(pc.job, pc.w) < Left(p.pc.job, p.pc.w)
  {
  }

  lemma InsideMovesOn(v: Vehicle, m: Memory, p: Proc)
    requires ShapedMem(v, m) && Shaped1(v, p) && Ready(v, m, p) && InWrite(p.pc)
    ensures var pc := HoldWrite(v, m, p).proc.pc; pc.W? && Left(pc.job, pc.w) < Left(p.pc.job, p.pc.w)
  {
  }

  lemma WriteMovesOn(v: Vehicle, m: Memory, p: Proc)
    requires ShapedMem(v, m) && Shaped1(v, p) && Ready(v, m, p) && p.pc.W?
    ensures var pc := WriteStep(v, m, p).proc.pc; pc.W? ==> Left(pc.job, pc.w) < Left(p.pc.job, p.pc.w)
  {
    if Leaving(p.pc.w) {
      LeavingMovesOn(v, m, p);
    } else if !Entering(p.pc.w) {
      InsideMovesOn(v, m, p);
    }
  }
}
