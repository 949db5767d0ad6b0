/** What a whole call of `write` or `clear` brings about, and what becomes of a sleeper that a write
    does wake: it returns from `update` with what was written. */
module Waking {
  import opened Bytes
  import opened Layout
  import opened History
  import opened Protocol
  import opened Snapshots
  import opened Viewing
  import opened Telemetry
  import opened Solo
  import opened Updating
  import opened LostWake

  /** One commit more than in `log`, that of the call. */
  predicate CommitOfCall(log: seq<Commit>, log': seq<Commit>, job: Job) {
    OneCommitMore(log, log', job.packet, job.wakes) && log'[|log|].data == job.data
  }

  /** Where a call of `write` stands that began when the log was `log`. */
  predicate Writing(log: seq<Commit>, m: Memory, p: Proc, job: Job) {
    && (if p.pc.W? then p.pc.job == job && job.ret.ToIdle? else p.pc.Idle?)
    && if p.pc.W? && Before(p.pc.w) then m.log == log else CommitOfCall(log, m.log, job)
  }

  lemma WritingStep(v: Vehicle, log: seq<Commit>, m: Memory, p: Proc, job: Job)
    requires ShapedMem(v, m) && Shaped1(v, p) && Ready(v, m, p) && p.pc.W? && Writing(log, m, p, job)
    ensures var l := WriteStep(v, m, p); Writing(log, l.mem, l.proc, job)
  {
  }

  /** The call so far. */
  ghost predicate WritesSoFar(v: Vehicle, s: State, w: nat, c: Choice, n: nat, t: State, job: Job)
    requires WellLaid(v) && Shaped(v, s)
  {
    Reaches(v, s, w, c, n, t) && Writing(s.mem.log, t.mem, t.procs[w], job)
  }

  function WriteLeft(p: Proc): nat {
    if p.pc.W? then Left(p.pc.job, p.pc.w) + 1 else 0
  }

  lemma WriteGoesOn(v: Vehicle, s: State, w: nat, c: Choice, n: nat, t: State, job: Job)
    requires WellLaid(v) && Shaped(v, s) && Shaped(v, t) && WritesSoFar(v, s, w, c, n, t, job) && t.procs[w].pc.W?
    ensures Enabled(v, t, Event(w, Tick))
    ensures var t' := Next(v, t, Event(w, Tick));
      WritesSoFar(v, s, w, c, n + 1, t', job) && WriteLeft(t'.procs[w]) < WriteLeft(t.procs[w])
  {
    AloneIsReady(v, t, w);
    CallGoesOn(v, s, w, c, n, t);
    WritingStep(v, s.mem.log, t.mem, t.procs[w], job);
    WriteMovesOn(v, t.mem, t.procs[w]);
  }

  lemma {:induction false} WriteEnds(v: Vehicle, s: State, w: nat, c: Choice, n: nat, t: State, job: Job)
      returns (k: nat, u: State)
    requires WellLaid(v) && Shaped(v, s) && Shaped(v, t) && WritesSoFar(v, s, w, c, n, t, job)
    ensures Shaped(v, u) && WritesSoFar(v, s, w, c, k, u, job) && u.procs[w].pc.Idle?
    decreases WriteLeft(t.procs[w])
  {
    if t.procs[w].pc.Idle? {
      k, u := n, t;
    } else {
      WriteGoesOn(v, s, w, c, n, t, job);
      k, u := WriteEnds(v, s, w, c, n + 1, Next(v, t, Event(w, Tick)), job);
    }
  }

  lemma CallCommits(log: seq<Commit>, log': seq<Commit>, job: Job, i: nat, size: nat)
    requires CommitOfCall(log, log', job)
    ensures Content(log', i, size) == if i == job.packet then job.data else Content(log, i, size)
    ensures PacketNonce(log', i) == if i == job.packet then |log| + 2 else PacketNonce(log, i)
  {
    assert log' == log + [log'[|log|]];
    AfterCommit(log, log'[|log|], i, size);
  }

  /** What one write of packet `j` does to the shared memory. */
  predicate OneWrite(m: Memory, m': Memory, j: nat, data: seq<byte>) {
    && j < |m.packets| == |m'.packets| && j < |m.nonces| == |m'.nonces| && m'.nonce == m.nonce + 1
    && m'.packets == m.packets[j := data] && m'.nonces == m.nonces[j := m'.nonce]
  }

  lemma CommitIsOneWrite(v: Vehicle, m: Memory, m': Memory, job: Job)
    requires ShapedMem(v, m) && ShapedMem(v, m') && Settled(v, m) && Settled(v, m')
    requires job.packet < |v.packets| && CommitOfCall(m.log, m'.log, job)
    ensures OneWrite(m, m', job.packet, job.data)
  {
    forall i | 0 <= i < |v.packets|
      ensures m'.packets[i] == (if i == job.packet then job.data else m.packets[i])
      ensures m'.nonces[i] == (if i == job.packet then m'.nonce else m.nonces[i])
    {
      CallCommits(m.log, m'.log, job, i, v.packets[i].size);
    }
  }

  lemma CallIsBegun(v: Vehicle, s: State, w: nat, c: Choice)
    requires WellLaid(v) && Shaped(v, s) && Inv(v, s) && OthersOutside(s, w)
    requires Enabled(v, s, Event(w, c)) && (c.Direct? || c.Clear?)
    ensures WritesSoFar(v, s, w, c, 0, Next(v, s, Event(w, c)), JobOf(v, s.procs[w], c))
  {
    CallBegins(v, s, w, c);
    CallStarts(v, s.mem, s.procs[w], c);
  }

  /** A call of `write` or `clear` by a process that has the protocol to itself comes to its end, and
      has then put its bytes into the packet and moved the nonces on, and nothing else. */
  lemma CallWrites(v: Vehicle, s: State, w: nat, c: Choice) returns (n: nat, t: State)
    requires WellLaid(v) && Shaped(v, s) && Inv(v, s) && OthersOutside(s, w)
    requires Enabled(v, s, Event(w, c)) && (c.Direct? || c.Clear?)
    ensures Shaped(v, t) && Reaches(v, s, w, c, n, t) && t.procs[w].pc.Idle?
    ensures OneWrite(s.mem, t.mem, c.packet, if c.Direct? then c.data else seq(v.packets[c.packet].size, _ => c.value))
  {
    var job := JobOf(v, s.procs[w], c);
    CallIsBegun(v, s, w, c);
    n, t := WriteEnds(v, s, w, c, 0, Next(v, s, Event(w, c)), job);
    SettledOutside(v, s, w);
    SettledOutside(v, t, w);
    CommitIsOneWrite(v, s.mem, t.mem, job);
  }

  // ---------------------------------------------------------------- a sleeper that is woken

  /** The call of `write` has not yet made its futex call. */
  predicate Quietly(pc: Pc) {
    pc.W? && (Before(pc.w) || pc.w.Stamp? || pc.w.Wake?)
  }

  /** The call so far: process `i` has slept on, unless the futex call is made. */
  ghost predicate WakesSoFar(v: Vehicle, s: State, w: nat, c: Choice, n: nat, t: State, i: nat, job: Job)
    requires WellLaid(v) && Shaped(v, s) && i < |s.procs|
  {
    WritesSoFar(v, s, w, c, n, t, job) && i != w && (t.procs[i].pc.Asleep? ==> Quietly(t.procs[w].pc))
  }

  lemma WakeStep(v: Vehicle, t: State, w: nat, i: nat)
    requires WellLaid(v) && Shaped(v, t) && Enabled(v, t, Event(w, Tick)) && i < |t.procs| && i != w
    requires t.procs[w].pc.W? && t.procs[w].pc.job.wakes && Covers(t.procs[i], t.procs[w].pc.job.packet)
    requires t.procs[i].pc.Asleep? ==> Quietly(t.procs[w].pc)
    ensures var t' := Next(v, t, Event(w, Tick)); t'.procs[i].pc.Asleep? ==> Quietly(t'.procs[w].pc)
  {
  }

  lemma WakeGoesOn(v: Vehicle, s: State, w: nat, c: Choice, n: nat, t: State, i: nat, job: Job)
    requires WellLaid(v) && Shaped(v, s) && Shaped(v, t) && i < |s.procs| && WakesSoFar(v, s, w, c, n, t, i, job)
    requires job.wakes && Covers(s.procs[i], job.packet) && t.procs[w].pc.W?
    ensures Enabled(v, t, Event(w, Tick))
    ensures var t' := Next(v, t, Event(w, Tick));
      WakesSoFar(v, s, w, c, n + 1, t', i, job) && WriteLeft(t'.procs[w]) < WriteLeft(t.procs[w])
  {
    WriteGoesOn(v, s, w, c, n, t, job);
    WakeStep(v, t, w, i);
  }

  lemma {:induction false} WakeEnds(v: Vehicle, s: State, w: nat, c: Choice, n: nat, t: State, i: nat, job: Job)
      returns (k: nat, u: State)
    requires WellLaid(v) && Shaped(v, s) && Shaped(v, t) && i < |s.procs| && WakesSoFar(v, s, w, c, n, t, i, job)
    requires job.wakes && Covers(s.procs[i], job.packet)
    ensures Shaped(v, u) && WakesSoFar(v, s, w, c, k, u, i, job) && u.procs[w].pc.Idle?
    decreases WriteLeft(t.procs[w])
  {
    if t.procs[w].pc.Idle? {
      k, u := n, t;
    } else {
      WakeGoesOn(v, s, w, c, n, t, i, job);
      k, u := WakeEnds(v, s, w, c, n + 1, Next(v, t, Event(w, Tick)), i, job);
    }
  }

  /** A whole call of `write` by a process that has the protocol to itself: the sleeper it covers is
      awake after it. */
  lemma WriteWakes(v: Vehicle, s: State, i: nat, w: nat, j: nat, data: seq<byte>) returns (n: nat, t: State)
    requires WellLaid(v) && Shaped(v, s) && Inv(v, s) && Quiet(s, i, w) && Covers(s.procs[i], j)
    requires Enabled(v, s, Event(w, Direct(j, data)))
    ensures Shaped(v, t) && Reaches(v, s, w, Direct(j, data), n, t)
    ensures OthersOutside(t, i) && t.procs[i] == s.procs[i].(pc := Recheck)
    ensures CommitOfCall(s.mem.log, t.mem.log, Job(j, data, true, ToIdle))
  {
    CallBegins(v, s, w, Direct(j, data));
    n, t := WakeEnds(v, s, w, Direct(j, data), 0, Next(v, s, Event(w, Direct(j, data))), i, Job(j, data, true, ToIdle));
  }

  /** A write is news for whoever waits for its packet. */
  lemma WriteIsNews(v: Vehicle, s: State, i: nat, j: nat, log': seq<Commit>)
    requires Shaped(v, s) && Inv(v, s) && i < |s.procs| && s.procs[i].pc.Asleep? && j < |v.packets|
    requires |log'| == |s.mem.log| + 1 && log'[|s.mem.log|].packet == j
    requires s.procs[i].checkAll || j in s.procs[i].ids
    ensures News(log', s.procs[i].(pc := Recheck)) && j in s.procs[i].ids
  {
    var p := s.procs[i].(pc := Recheck);
    assert ProcOk(v, s.mem, s.procs[i]);
    if !p.checkAll {
      var k :| 0 <= k < |p.ids| && p.ids[k] == j;
      assert WrittenSince(log', p.seen[p.ids[k]], p.ids[k]);
    }
  }

  lemma ReadsWhatWokeIt(v: Vehicle, t: State, u: State, i: nat, j: nat, data: seq<byte>)
    requires WellLaid(v) && Shaped(v, t) && Shaped(v, u) && MemInv(v, t) && i < |t.procs| && i < |u.procs|
    requires OthersOutside(t, i) && Outside(t.procs[i].pc) && SameData(t.mem, u.mem)
    requires j < |v.packets| && Content(t.mem.log, j, v.packets[j].size) == data
    requires Current(u.mem, u.procs[i]) && j in u.procs[i].ids
    ensures u.procs[i].buffers[j] == data
  {
    SettledOutside(v, t, i);
    var k :| 0 <= k < |u.procs[i].ids| && u.procs[i].ids[k] == j;
  }

  lemma WokenByNews(v: Vehicle, t: State, i: nat, j: nat) returns (k: nat, u: State)
    requires WellLaid(v) && Shaped(v, t) && Inv(v, t) && OthersOutside(t, i) && j < |v.packets|
    requires t.procs[i].pc.Recheck? && News(t.mem.log, t.procs[i]) && j in t.procs[i].ids
    ensures Leads(v, t, i, Tick, k, u) && i < |u.procs| && JustUpdated(u.procs[i]) && j < |u.procs[i].buffers|
    ensures u.procs[i].buffers[j] == Content(t.mem.log, j, v.packets[j].size)
  {
    k, u := WokenEnds(v, t, i);
    ReadsWhatWokeIt(v, t, u, i, j, Content(t.mem.log, j, v.packets[j].size));
  }

  lemma SleeperComesBack(v: Vehicle, s: State, i: nat, w: nat, j: nat, data: seq<byte>)
      returns (n: nat, t: State, k: nat, u: State)
    requires WellLaid(v) && Shaped(v, s) && Inv(v, s) && Quiet(s, i, w) && Covers(s.procs[i], j)
    requires Enabled(v, s, Event(w, Direct(j, data))) && (s.procs[i].checkAll || j in s.procs[i].ids)
    ensures Shaped(v, t) && Leads(v, s, w, Direct(j, data), n, t) && Leads(v, t, i, Tick, k, u) && i < |u.procs|
    ensures JustUpdated(u.procs[i]) && j < |u.procs[i].buffers| && u.procs[i].buffers[j] == data
  {
    n, t := WriteWakes(v, s, i, w, j, data);
    WriteIsNews(v, s, i, j, t.mem.log);
    CallCommits(s.mem.log, t.mem.log, Job(j, data, true, ToIdle), j, v.packets[j].size);
    k, u := WokenByNews(v, t, i, j);
  }

  /** The blocking update at work: from every reachable state in which a process sleeps, nobody else is
      inside the protocol and the packet is one the sleeper waits for and has a bit for, a write of the
      packet and then the sleeper's own steps end its call with success, and with the bytes written. */
  lemma SleeperReadsTheWrite(v: Vehicle, count: nat, before: seq<Event>, i: nat, w: nat, j: nat, data: seq<byte>)
      returns (n: nat, k: nat)
    requires WellLaid(v) && Valid(v, Init(v, count), before) && Quiet(After(v, count, before), i, w)
    requires Enabled(v, After(v, count, before), Event(w, Direct(j, data)))
    requires var p := After(v, count, before).procs[i]; Covers(p, j) && (p.checkAll || j in p.ids)
    ensures Valid(v, After(v, count, before), CallRun(w, Direct(j, data), n) + CallRun(i, Tick, k))
    ensures var p := Run(v, After(v, count, before), CallRun(w, Direct(j, data), n) + CallRun(i, Tick, k)).procs[i];
      JustUpdated(p) && j < |p.buffers| && p.buffers[j] == data
  {
    var s, t, u := After(v, count, before), After(v, count, before), After(v, count, before);
    ReachableInv(v, count, before);
    n, t, k, u := SleeperComesBack(v, s, i, w, j, data);
    LeadsTwice(v, s, w, Direct(j, data), n, t, i, Tick, k, u);
  }
}
