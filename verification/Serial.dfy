/** The order of sessions: what they commit is what running them one after another gives. */
module Serial {
  import opened Bytes
  import opened Layout
  import opened History
  import opened Protocol
  import opened Sessions
  import opened Ledger

  // ---------------------------------------------------------------- the committed log

  /** A commit of a virtual packet changes its last content by exactly the edits it carries. */
  ghost predicate Additive(v: Vehicle, log: seq<Commit>, k: nat)
    requires k < |log|
  {
    Lockable(v, log[k].packet) ==>
      Caught(Content(log[..k], log[k].packet, v.packets[log[k].packet].size), log[k].edits, log[k].data)
  }

  /** Every commit of a virtual packet belongs to a session; sessions do not interleave. */
  ghost predicate LogOk(v: Vehicle, log: seq<Commit>, tickets: nat) {
    && (forall k :: 0 <= k < |log| ==> log[k].packet < |v.packets| && Additive(v, log, k))
    && (forall k :: 0 <= k < |log| && Lockable(v, log[k].packet) ==> 1 <= log[k].ticket < tickets)
    && (forall a, b :: 0 <= a < b < |log| && Lockable(v, log[a].packet) && Lockable(v, log[b].packet) ==>
          log[a].ticket <= log[b].ticket)
  }

  /** A session that holds every virtual packet is the newest of all that have committed. */
  ghost predicate TicketOk(v: Vehicle, m: Memory, p: Proc) {
    HasAll(p.pc) ==>
      && 1 <= p.ticket < m.tickets
      && forall k :: 0 <= k < |m.log| && Lockable(v, m.log[k].packet) ==> m.log[k].ticket <= p.ticket
  }

  lemma CommitKeepsLogOk(v: Vehicle, m: Memory, p: Proc)
    requires ShapedMem(v, m) && Shaped1(v, p) && p.pc.W? && p.pc.w.Bump?
    requires SessionOk(v, m.log, p) && TicketOk(v, m, p) && LogOk(v, m.log, m.tickets) && m.tickets >= 1
    ensures LogOk(v, m.log + [CommitOf(p, p.pc.job)], m.tickets)
  {
    var c := CommitOf(p, p.pc.job);
    var log' := m.log + [c];
    forall k | 0 <= k < |log'|
      ensures log'[k].packet < |v.packets| && Additive(v, log', k)
    {
      PrefixOfLonger(m.log, c, k);
      assert k < |m.log| ==> Additive(v, m.log, k);
    }
  }

  /** A commit by a session leaves its own ticket the newest. */
  lemma CommitKeepsTicketOk(v: Vehicle, m: Memory, m': Memory, c: Commit, p: Proc)
    requires TicketOk(v, m, p) && m'.log == m.log + [c] && m'.tickets == m.tickets
    requires HasAll(p.pc) && Lockable(v, c.packet) ==> c.ticket == p.ticket
    ensures TicketOk(v, m', p)
  {
  }

  // ---------------------------------------------------------------- serial execution

  /** The commits of virtual packets in `log`. */
  function Virtual(v: Vehicle, log: seq<Commit>): seq<Commit> {
    if |log| == 0 then []
    else
      var c := log[|log| - 1];
      Virtual(v, log[..|log| - 1]) + (if Lockable(v, c.packet) then [c] else [])
  }

  /** Those of one session, in order. */
  function SessionOf(v: Vehicle, log: seq<Commit>, ticket: nat): seq<Commit> {
    if |log| == 0 then []
    else
      var c := log[|log| - 1];
      SessionOf(v, log[..|log| - 1], ticket) + (if Lockable(v, c.packet) && c.ticket == ticket then [c] else [])
  }

  /** Sessions 0 to `n - 1` one after another. */
  function InOrder(v: Vehicle, log: seq<Commit>, n: nat): seq<Commit> {
    if n == 0 then [] else InOrder(v, log, n - 1) + SessionOf(v, log, n - 1)
  }

  /** One packet after the edits of some commits are applied to it in turn. */
  function Replay(buf: seq<byte>, cs: seq<Commit>, packet: nat): (r: seq<byte>)
    ensures |r| == |buf|
  {
    if |cs| == 0 then buf
    else
      var c := cs[|cs| - 1];
      var before := Replay(buf, cs[..|cs| - 1], packet);
      if c.packet == packet then PatchAll(before, c.edits) else before
  }

  lemma {:induction false} SessionOfNone(v: Vehicle, log: seq<Commit>, ticket: nat)
    requires forall k :: 0 <= k < |log| && Lockable(v, log[k].packet) ==> log[k].ticket != ticket
    ensures SessionOf(v, log, ticket) == []
  {
    if |log| > 0 {
      SessionOfNone(v, log[..|log| - 1], ticket);
    }
  }

  lemma SessionOneMore(v: Vehicle, log: seq<Commit>, c: Commit, ticket: nat)
    ensures SessionOf(v, log + [c], ticket)
         == SessionOf(v, log, ticket) + if Lockable(v, c.packet) && c.ticket == ticket then [c] else []
  {
  }

  lemma Around(a: seq<Commit>, b: seq<Commit>, c: Commit)
    requires b == []
    ensures (a + [c]) + b == (a + b) + [c]
  {
  }

  /** The newest commit goes to the end of its session, and so to the end of the order. */
  lemma {:induction false} InOrderOneMore(v: Vehicle, log: seq<Commit>, c: Commit, n: nat)
    requires Lockable(v, c.packet)
    requires forall k :: 0 <= k < |log| && Lockable(v, log[k].packet) ==> log[k].ticket <= c.ticket
    ensures InOrder(v, log + [c], n) == InOrder(v, log, n) + (if c.ticket < n then [c] else [])
  {
    if n != 0 {
      InOrderOneMore(v, log, c, n - 1);
      SessionOneMore(v, log, c, n - 1);
      if c.ticket < n - 1 {
        SessionOfNone(v, log, n - 1);
        Around(InOrder(v, log, n - 1), SessionOf(v, log, n - 1), c);
      }
    }
  }

  lemma {:induction false} InOrderSkips(v: Vehicle, log: seq<Commit>, c: Commit, n: nat)
    requires !Lockable(v, c.packet)
    ensures InOrder(v, log + [c], n) == InOrder(v, log, n)
  {
    if n != 0 {
      InOrderSkips(v, log, c, n - 1);
      SessionOneMore(v, log, c, n - 1);
    }
  }

  lemma {:induction false} InOrderOfNone(v: Vehicle, n: nat)
    ensures InOrder(v, [], n) == []
  {
    if n != 0 {
      InOrderOfNone(v, n - 1);
    }
  }

  lemma LogOkPrefix(v: Vehicle, log: seq<Commit>, tickets: nat)
    requires |log| > 0 && LogOk(v, log, tickets)
    ensures LogOk(v, log[..|log| - 1], tickets)
  {
    var front := log[..|log| - 1];
    forall k | 0 <= k < |front|
      ensures front[k].packet < |v.packets| && Additive(v, front, k)
    {
      assert Additive(v, log, k);
      assert front[..k] == log[..k];
    }
  }

  /** The sessions one after another are the virtual commits as they happened. */
  lemma {:induction false} OrderIsHistory(v: Vehicle, log: seq<Commit>, tickets: nat)
    requires LogOk(v, log, tickets)
    ensures InOrder(v, log, tickets) == Virtual(v, log)
  {
    if |log| == 0 {
      InOrderOfNone(v, tickets);
    } else {
      var front, c := log[..|log| - 1], log[|log| - 1];
      LogOkPrefix(v, log, tickets);
      OrderIsHistory(v, front, tickets);
      assert front + [c] == log;
      if Lockable(v, c.packet) {
        InOrderOneMore(v, front, c, tickets);
      } else {
        InOrderSkips(v, front, c, tickets);
      }
    }
  }

  lemma ReplayOneMore(buf: seq<byte>, cs: seq<Commit>, c: Commit, packet: nat)
    ensures Replay(buf, cs + [c], packet) ==
      if c.packet == packet then PatchAll(Replay(buf, cs, packet), c.edits) else Replay(buf, cs, packet)
    ensures Replay(buf, cs + [], packet) == Replay(buf, cs, packet)
  {
    assert (cs + [c])[..|cs|] == cs && cs + [] == cs;
  }

  /** Replaying the edits of all virtual commits gives what each virtual packet holds. */
  lemma {:induction false} ReplayIsContent(v: Vehicle, log: seq<Commit>, tickets: nat, j: nat)
    requires LogOk(v, log, tickets) && Lockable(v, j)
    ensures Content(log, j, v.packets[j].size) == Replay(Zeros(v.packets[j].size), Virtual(v, log), j)
  {
    if |log| > 0 {
      var front, c := log[..|log| - 1], log[|log| - 1];
      LogOkPrefix(v, log, tickets);
      ReplayIsContent(v, front, tickets, j);
      assert Additive(v, log, |log| - 1);
      ReplayOneMore(Zeros(v.packets[j].size), Virtual(v, front), c, j);
    }
  }
}
