/** What a ticket stands for: the commits that carry it are those of one session, all of them and no
    others, so that replaying commits ticket by ticket is running sessions one after another. */
module Tickets {
  import opened Layout
  import opened History
  import opened Protocol
  import opened Sessions
  import opened Ledger
  import opened Serial
  import opened Telemetry
  import opened EndToEnd

  /** The virtual commits from number `n` on carry ticket `t`, those before carry older ones. */
  ghost predicate OwnSince(v: Vehicle, log: seq<Commit>, n: nat, t: nat) {
    && n <= |log|
    && (forall k :: 0 <= k < n && Lockable(v, log[k].packet) ==> log[k].ticket < t)
    && (forall k :: n <= k < |log| && Lockable(v, log[k].packet) ==> log[k].ticket == t)
  }

  lemma OwnOneMore(v: Vehicle, log: seq<Commit>, c: Commit, n: nat, t: nat)
    requires OwnSince(v, log, n, t) && (Lockable(v, c.packet) ==> c.ticket == t)
    ensures OwnSince(v, log + [c], n, t)
  {
  }

  lemma StepKeepsTicket(v: Vehicle, m: Memory, p: Proc, c: Choice)
    requires WellLaid(v) && ShapedMem(v, m) && Shaped1(v, p) && Allowed(v, m, p, c) && HasAll(p.pc)
    ensures LocalStep(v, m, p, c).proc.ticket == p.ticket
  {
  }

  /** While a session is open, virtual packets are committed by it alone. */
  lemma CommitIsOwn(v: Vehicle, s: State, q: nat, w: nat)
    requires Shaped(v, s) && PacketLocksInv(v, s) && w < |s.procs| && q < |s.procs| && HasAll(s.procs[w].pc)
    requires s.procs[q].pc.W? && JobOk(v, s.procs[q])
    ensures var c := CommitOf(s.procs[q], s.procs[q].pc.job); Lockable(v, c.packet) ==> c.ticket == s.procs[w].ticket
  {
    var j := s.procs[q].pc.job.packet;
    if q != w && Lockable(v, j) {
      OneHolder(v, s, w, q, j);
    }
  }

  lemma NextKeepsOwn(v: Vehicle, s: State, e: Event, w: nat, n: nat)
    requires WellLaid(v) && Shaped(v, s) && Enabled(v, s, e) && Inv(v, s) && w < |s.procs|
    requires HasAll(s.procs[w].pc) && OwnSince(v, s.mem.log, n, s.procs[w].ticket)
    ensures var t := Next(v, s, e);
      t.procs[w].ticket == s.procs[w].ticket && OwnSince(v, t.mem.log, n, s.procs[w].ticket)
  {
    var p := s.procs[e.pid];
    if e.pid == w {
      StepKeepsTicket(v, s.mem, p, e.choice);
    }
    if Commits(p, e.choice) {
      assert ProcOk(v, s.mem, p);
      CommitIsOwn(v, s, e.pid, w);
      OwnOneMore(v, s.mem.log, CommitOf(p, p.pc.job), n, s.procs[w].ticket);
    }
  }

  lemma {:induction false} RunKeepsOwn(v: Vehicle, s: State, run: seq<Event>, w: nat, n: nat)
    requires WellLaid(v) && Shaped(v, s) && Valid(v, s, run) && Inv(v, s) && w < |s.procs|
    requires OpenThroughout(v, s, run, w) && OwnSince(v, s.mem.log, n, s.procs[w].ticket)
    ensures OwnSince(v, Run(v, s, run).mem.log, n, s.procs[w].ticket)
    ensures Run(v, s, run).procs[w].ticket == s.procs[w].ticket
    decreases |run|
  {
    if run != [] {
      NextKeepsInv(v, s, run[0]);
      NextKeepsOwn(v, s, run[0], w, n);
      RunKeepsOwn(v, Next(v, s, run[0]), run[1..], w, n);
    }
  }

  // ---------------------------------------------------------------- one session

  /** The commits with the ticket are the virtual commits from number `n` on. */
  lemma {:induction false} OwnAreSession(v: Vehicle, log: seq<Commit>, n: nat, t: nat)
    requires OwnSince(v, log, n, t)
    ensures SessionOf(v, log, t) == Virtual(v, log[n..])
  {
    if n == |log| {
      SessionOfNone(v, log, t);
    } else {
      var front, c := log[..|log| - 1], log[|log| - 1];
      assert OwnSince(v, front, n, t);
      OwnAreSession(v, front, n, t);
      assert log[n..][..|log| - n - 1] == front[n..] && log[n..][|log| - n - 1] == c;
    }
  }

  /** The last step of `lock`, which draws a ticket that is newer than all in the log. */
  lemma TicketIsNew(v: Vehicle, s: State, w: nat)
    requires WellLaid(v) && Shaped(v, s) && Inv(v, s) && w < |s.procs| && s.procs[w].pc == LockTake(|v.packets|)
    ensures Enabled(v, s, Event(w, Tick))
    ensures var t := Next(v, s, Event(w, Tick));
      t.mem.log == s.mem.log && OwnSince(v, t.mem.log, |s.mem.log|, t.procs[w].ticket)
  {
  }

  /** The commits of virtual packets since the session was opened are exactly those with its ticket,
      as long as it is open, whatever everybody does. */
  lemma TicketIsTheSession(v: Vehicle, count: nat, before: seq<Event>, w: nat, session: seq<Event>)
    requires WellLaid(v) && Valid(v, Init(v, count), before) && w < count
    requires After(v, count, before).procs[w].pc == LockTake(|v.packets|)
    requires var s := After(v, count, before); var e := Event(w, Tick);
      Enabled(v, s, e) && Valid(v, Next(v, s, e), session) && OpenThroughout(v, Next(v, s, e), session, w)
    ensures var s := After(v, count, before); var t := Run(v, Next(v, s, Event(w, Tick)), session);
      |s.mem.log| <= |t.mem.log|
      && SessionOf(v, t.mem.log, t.procs[w].ticket) == Virtual(v, t.mem.log[|s.mem.log|..])
  {
    var s := After(v, count, before);
    var u := Next(v, s, Event(w, Tick));
    ReachableInv(v, count, before);
    TicketIsNew(v, s, w);
    NextKeepsInv(v, s, Event(w, Tick));
    RunKeepsOwn(v, u, session, w, |s.mem.log|);
    OwnAreSession(v, Run(v, u, session).mem.log, |s.mem.log|, u.procs[w].ticket);
  }
}
