/** The client side of commanding: the resource locks, the order and time of program events, and
    the wait for an acknowledgement. */
module Commanding {
  import opened Wrappers
  import opened Bytes

  // ---------------------------------------------------------------- the wait for an acknowledgement

  const NUM_RETRANSMITS: nat := 5

  /** One pass of the loop: the time, and the sequence number read if the update did not fail. */
  datatype Poll = Poll(now: uint32, read: Option<uint32>)

  datatype Result = Acked | GaveUp | StillWaiting

  /** `limit` is how long a client waits before it counts a timeout: 200 ms in `ec_cmd`, 20 ms in
      `ec_program`. */
  predicate Expired(limit: nat, start: uint32, now: uint32) {
    now >= (start + limit) % U32
  }

  /** The timer runs for `limit`, unless the end of that time lies past the wrap-around of the clock:
      then it is over at once. */
  lemma ExpiredExactlyWhen(limit: uint32, start: uint32, now: uint32)
    requires start <= now
    ensures Expired(limit, start, now) <==> now >= start + limit || start + limit >= U32
  {
  }

  /** When the timer was last started, after `n` passes. */
  function StartAfter(limit: nat, start: uint32, polls: seq<Poll>, n: nat): uint32
    requires n <= |polls|
  {
    if n == 0 then start
    else
      var s := StartAfter(limit, start, polls, n - 1);
      if Expired(limit, s, polls[n - 1].now) then polls[n - 1].now else s
  }

  predicate TimesOut(limit: nat, start: uint32, polls: seq<Poll>, k: nat)
    requires k < |polls|
  {
    Expired(limit, StartAfter(limit, start, polls, k), polls[k].now)
  }

  function TimeoutsIn(limit: nat, start: uint32, polls: seq<Poll>, n: nat): nat
    requires n <= |polls|
  {
    if n == 0 then 0 else TimeoutsIn(limit, start, polls, n - 1) + if TimesOut(limit, start, polls, n - 1) then 1 else 0
  }

  /** Pass `k` reads the number waited for. */
  predicate Sees(limit: nat, start: uint32, polls: seq<Poll>, k: nat, cmdNum: uint32)
    requires k < |polls|
  {
    !TimesOut(limit, start, polls, k) && polls[k].read == Some(cmdNum)
  }

  /** The wait loop of both clients, with the time limit of either. It ends well at the first pass
      that sees the number, badly at the fifth timeout if that comes first; "retransmitting" only
      starts the timer again. */
  method WaitForAck(limit: nat, cmdNum: uint32, seqNum: uint32, start: uint32, polls: seq<Poll>)
      returns (r: Result, used: nat)
    requires seqNum != cmdNum
    ensures used <= |polls| && TimeoutsIn(limit, start, polls, used) <= NUM_RETRANSMITS
    ensures r.Acked? ==>
      used > 0 && Sees(limit, start, polls, used - 1, cmdNum) && TimeoutsIn(limit, start, polls, used) < NUM_RETRANSMITS
    ensures r.GaveUp? <==> TimeoutsIn(limit, start, polls, used) == NUM_RETRANSMITS
    ensures r.StillWaiting? ==> used == |polls|
    ensures forall k :: 0 <= k < used && Sees(limit, start, polls, k, cmdNum) ==> r.Acked? && k == used - 1
  {
    var seen, begun, count := seqNum, start, 0;
    used := 0;
    while seen != cmdNum
      invariant used <= |polls| && begun == StartAfter(limit, start, polls, used)
      invariant count == TimeoutsIn(limit, start, polls, used) < NUM_RETRANSMITS
      invariant seen == cmdNum ==> used > 0 && Sees(limit, start, polls, used - 1, cmdNum)
      invariant forall k :: 0 <= k < used && Sees(limit, start, polls, k, cmdNum) ==> seen == cmdNum && k == used - 1
      decreases |polls| - used
    {
      if used == |polls| {
        return StillWaiting, used;
      }
      var p := polls[used];
      used := used + 1;
      if p.now >= (begun + limit) % U32 {
        count := count + 1;
        if count == NUM_RETRANSMITS {
          return GaveUp, used;
        }
        begun := p.now;
        continue;
      }
      if p.read.Some? {
        seen := p.read.value;
      }
    }
    return Acked, used;
  }

  /** Readings of the time that go forward, by at most `gap` each, and do not come near the limit of
      32 bits. */
  predicate Steady(limit: nat, gap: nat, start: uint32, polls: seq<Poll>) {
    && start + limit < U32
    && forall k :: 0 <= k < |polls| ==>
         (if k == 0 then start else polls[k - 1].now) <= polls[k].now && polls[k].now + limit < U32
         && polls[k].now <= (if k == 0 then start else polls[k - 1].now) + gap
  }

  function LastNow(start: uint32, polls: seq<Poll>, n: nat): uint32
    requires n <= |polls|
  {
    if n == 0 then start else polls[n - 1].now
  }

  lemma OneLimitMore(c: nat, limit: nat)
    ensures (c + 1) * limit == c * limit + limit
  {
  }

  /** A timeout is counted when the limit is over and not before: after `n` passes with `c` timeouts
      at least `c` limits have gone by, and at most `c` limits and gaps before the timer was last
      started; and the limit of the present wait is not over. */
  lemma OnePassMore(limit: nat, start: uint32, polls: seq<Poll>, n: nat)
    requires 0 < n <= |polls| && limit > 0
    requires var begun := StartAfter(limit, start, polls, n - 1);
      begun <= polls[n - 1].now && begun + limit < U32
    ensures var begun, now := StartAfter(limit, start, polls, n - 1), polls[n - 1].now;
      && (TimeoutsIn(limit, start, polls, n) ==
          TimeoutsIn(limit, start, polls, n - 1) + if now >= begun + limit then 1 else 0)
      && StartAfter(limit, start, polls, n) == (if now >= begun + limit then now else begun)
  {
  }

  lemma {:induction false} TimeoutsTakeTheirTime(limit: nat, gap: nat, start: uint32, polls: seq<Poll>, n: nat)
    requires Steady(limit, gap, start, polls) && n <= |polls| && limit > 0
    ensures var c, begun := TimeoutsIn(limit, start, polls, n), StartAfter(limit, start, polls, n);
      && start + c * limit <= begun <= LastNow(start, polls, n) < begun + limit
      && begun <= start + c * (limit + gap)
  {
    if n > 0 {
      TimeoutsTakeTheirTime(limit, gap, start, polls, n - 1);
      var c, last := TimeoutsIn(limit, start, polls, n - 1), LastNow(start, polls, n - 1);
      OneLimitMore(c, limit);
      OneLimitMore(c, limit + gap);
      assert last <= polls[n - 1].now <= last + gap && last + limit < U32;
      OnePassMore(limit, start, polls, n);
    }
  }

  /** So a client gives up after five limits, and no more than five gaps later. */
  lemma GivesUpInTime(limit: nat, gap: nat, start: uint32, polls: seq<Poll>, n: nat)
    requires Steady(limit, gap, start, polls) && 0 < n <= |polls| && limit > 0
    requires TimeoutsIn(limit, start, polls, n) == 5 && TimesOut(limit, start, polls, n - 1)
    ensures start + 5 * limit <= polls[n - 1].now <= start + 5 * (limit + gap)
  {
    TimeoutsTakeTheirTime(limit, gap, start, polls, n);
  }

  // ---------------------------------------------------------------- resource locks

  const NUM_RESOURCES: nat := 2

  datatype LockResult = Taken | Locked | Failed

  class VLock {
    const locks: array<nat>

    /** `create_shm`. */
    constructor ()
      ensures locks.Length == NUM_RESOURCES && (forall i :: 0 <= i < NUM_RESOURCES ==> locks[i] == 1) && fresh(locks)
    {
      locks := new nat[NUM_RESOURCES](_ => 1);
    }

    /** `try_lock`; `lock` with a time limit is the same once its time is over. */
    method TryLock(resource: nat) returns (r: LockResult)
      requires locks.Length == NUM_RESOURCES
      modifies locks
      ensures r.Failed? <==> resource >= NUM_RESOURCES
      ensures r.Taken? <==> resource < NUM_RESOURCES && old(locks[resource]) > 0
      ensures locks[..] == if r.Taken? then old(locks[..])[resource := old(locks[resource]) - 1] else old(locks[..])
    {
      if resource >= NUM_RESOURCES {
        return Failed;
      }
      if locks[resource] == 0 {
        return Locked;
      }
      locks[resource] := locks[resource] - 1;
      return Taken;
    }

    method Unlock(resource: nat) returns (ok: bool)
      requires locks.Length == NUM_RESOURCES
      modifies locks
      ensures ok == (resource < NUM_RESOURCES)
      ensures locks[..] == if ok then old(locks[..])[resource := old(locks[resource]) + 1] else old(locks[..])
    {
      if resource >= NUM_RESOURCES {
        return false;
      }
      locks[resource] := locks[resource] + 1;
      return true;
    }
  }

  /** One resource and the clients that have taken it and not given it back. */
  datatype Resource = Resource(value: nat, holders: set<nat>)

  datatype Use = Take(client: nat) | Give(client: nat)

  function Used(r: Resource, u: Use): Resource {
    match u
    case Take(c) => if r.value > 0 then Resource(r.value - 1, r.holders + {c}) else r
    case Give(c) => Resource(r.value + 1, r.holders - {c})
  }

  /** Whoever takes does not hold the resource yet, and only a holder gives it back. */
  predicate Disciplined(r: Resource, uses: seq<Use>)
    decreases |uses|
  {
    |uses| > 0 ==>
      && (uses[0].Take? <==> uses[0].client !in r.holders)
      && Disciplined(Used(r, uses[0]), uses[1..])
  }

  function UsedAll(r: Resource, uses: seq<Use>): Resource
    decreases |uses|
  {
    if |uses| == 0 then r else UsedAll(Used(r, uses[0]), uses[1..])
  }

  lemma OnlyOne(s: set<nat>, a: nat, b: nat)
    requires |s| <= 1 && a in s && b in s
    ensures a == b
  {
    assert |s - {a}| == 0;
  }

  /** A resource used with discipline is never held by two clients. */
  lemma {:induction false} OneHolder(r: Resource, uses: seq<Use>)
    requires r.value + |r.holders| == 1 && Disciplined(r, uses)
    ensures var r' := UsedAll(r, uses); r'.value + |r'.holders| == 1
    ensures forall a, b :: a in UsedAll(r, uses).holders && b in UsedAll(r, uses).holders ==> a == b
    decreases |uses|
  {
    if |uses| == 0 {
      forall a, b | a in r.holders && b in r.holders
        ensures a == b
      {
        OnlyOne(r.holders, a, b);
      }
    } else {
      OneHolder(Used(r, uses[0]), uses[1..]);
    }
  }

  /** Nothing checks who gives a resource back: it stays a lock exactly if that is the holder. */
  lemma GiveKeepsLockExactlyWhenHeld(r: Resource, client: nat)
    requires r.value + |r.holders| == 1
    ensures var r' := Used(r, Give(client)); r'.value + |r'.holders| == 1 <==> client in r.holders
  {
  }

  // ---------------------------------------------------------------- program events

  predicate Sorted(ts: seq<int>) {
    forall j, k :: 0 <= j < k < |ts| ==> ts[j] <= ts[k]
  }

  /** The check `parse` makes of the times as they come: refused exactly if one is earlier than
      another before it. */
  method CheckTimes(times: seq<int>) returns (ok: bool)
    ensures ok <==> Sorted(times)
  {
    for i := 0 to |times|
      invariant Sorted(times[..i])
    {
      if i > 0 && times[i] < times[i - 1] {
        return false;
      }
      assert times[..i + 1] == times[..i] + [times[i]];
    }
    assert times[..|times|] == times;
    return true;
  }

  lemma HeadIsLeast(a: seq<int>, x: int)
    requires Sorted(a) && x in multiset(a)
    ensures a[0] <= x
  {
  }

  lemma TailWithoutHead(a: seq<int>)
    requires |a| > 0
    ensures Sorted(a) ==> Sorted(a[1..])
    ensures multiset(a[1..]) == multiset(a) - multiset{a[0]} && a[0] in multiset(a)
  {
    assert a == [a[0]] + a[1..];
  }

  lemma SameHead(a: seq<int>, b: seq<int>)
    requires Sorted(a) && Sorted(b) && multiset(a) == multiset(b) && |a| == |b| > 0
    ensures a[0] == b[0] && Sorted(a[1..]) && Sorted(b[1..]) && multiset(a[1..]) == multiset(b[1..])
  {
    TailWithoutHead(a);
    TailWithoutHead(b);
    HeadIsLeast(a, b[0]);
    HeadIsLeast(b, a[0]);
  }

  lemma JoinHead(a: seq<int>, b: seq<int>)
    requires |a| == |b| > 0 && a[0] == b[0] && a[1..] == b[1..]
    ensures a == b
  {
  }

  /** Sorting times that are in order already leaves them in place; only events of the same time
      could change places. */
  lemma {:induction false} SortKeepsTimes(a: seq<int>, b: seq<int>)
    requires Sorted(a) && Sorted(b) && multiset(a) == multiset(b)
    ensures a == b
  {
    SameSize(a, b);
    if |a| > 0 {
      SameHead(a, b);
      SortKeepsTimes(a[1..], b[1..]);
      JoinHead(a, b);
    }
  }

  lemma SameSize(a: seq<int>, b: seq<int>)
    requires multiset(a) == multiset(b)
    ensures |a| == |b|
  {
    assert |multiset(a)| == |a| && |multiset(b)| == |b|;
  }

  datatype Reading = Reading(time: int, stopped: bool)

  /** Wait for the clock to be started; events that are past by then are never carried out. */
  method SkipPassed(times: seq<int>, readings: seq<Reading>) returns (first: nat, used: nat)
    requires Sorted(times)
    ensures first <= |times| && used <= |readings|
    ensures forall k :: 0 <= k < used - 1 ==> readings[k].stopped
    ensures used < |readings| ==> used > 0 && !readings[used - 1].stopped
    ensures forall k :: 0 <= k < first ==> exists i :: 0 <= i < used && times[k] < readings[i].time
    ensures forall k, i :: first <= k < |times| && 0 <= i < used ==> times[k] >= readings[i].time
  {
    first, used := 0, 0;
    var stopped := true;
    while stopped && used < |readings|
      invariant first <= |times| && used <= |readings|
      invariant forall k :: 0 <= k < used - 1 ==> readings[k].stopped
      invariant used > 0 ==> stopped == readings[used - 1].stopped
      invariant used == 0 ==> stopped
      invariant forall k :: 0 <= k < first ==> exists i :: 0 <= i < used && times[k] < readings[i].time
      invariant forall k, i :: first <= k < |times| && 0 <= i < used ==> times[k] >= readings[i].time
    {
      stopped := readings[used].stopped;
      while first < |times| && times[first] < readings[used].time
        invariant first <= |times|
        invariant forall k :: 0 <= k < first ==> exists i :: 0 <= i <= used && times[k] < readings[i].time
        invariant forall k, i :: first <= k < |times| && 0 <= i < used ==> times[k] >= readings[i].time
      {
        first := first + 1;
      }
      used := used + 1;
    }
  }

  /** The first reading taken after the event before the `k`-th one was carried out. */
  function ReadingAfter(at: seq<nat>, k: nat): nat
    requires k <= |at|
  {
    if k == 0 then 0 else at[k - 1] + 1
  }

  /** In the readings from `from` to before `to` the clock runs and is before `time`. */
  predicate NotYet(readings: seq<Reading>, from: nat, to: nat, time: int) {
    from <= to <= |readings| && forall i :: from <= i < to ==> !readings[i].stopped && readings[i].time < time
  }

  /** Of the readings from `from` on, the first one that is not before `time` is `r`, and the clock
      has not been seen stopped by then. */
  predicate DueAt(readings: seq<Reading>, from: nat, r: nat, time: int) {
    NotYet(readings, from, r, time) && r < |readings| && !readings[r].stopped && readings[r].time >= time
  }

  /** Event `first + k` was carried out at reading `at[k]`. */
  predicate Carried(times: seq<int>, first: nat, readings: seq<Reading>, at: seq<nat>, k: nat)
    requires k < |at| && first + |at| <= |times|
  {
    DueAt(readings, ReadingAfter(at, k), at[k], times[first + k])
  }

  predicate AllCarried(times: seq<int>, first: nat, readings: seq<Reading>, at: seq<nat>) {
    first + |at| <= |times| && forall k: nat :: k < |at| ==> Carried(times, first, readings, at, k)
  }

  lemma CarryOneMore(times: seq<int>, first: nat, readings: seq<Reading>, at: seq<nat>, i: nat)
    requires AllCarried(times, first, readings, at) && first + |at| < |times|
    requires DueAt(readings, ReadingAfter(at, |at|), i, times[first + |at|])
    ensures AllCarried(times, first, readings, at + [i]) && ReadingAfter(at + [i], |at| + 1) == i + 1
  {
    var at' := at + [i];
    forall k: nat | k < |at'|
      ensures Carried(times, first, readings, at', k)
    {
      assert k < |at| ==> Carried(times, first, readings, at, k);
      assert ReadingAfter(at', k) == ReadingAfter(at, k);
    }
  }

  /** The execution loop: event after event, each at the first reading that is not before its time,
      until none is left, the clock is seen stopped or no more readings come. */
  method Execute(times: seq<int>, first: nat, readings: seq<Reading>) returns (next: nat, at: seq<nat>)
    requires first <= |times|
    ensures next == first + |at| <= |times| && AllCarried(times, first, readings, at)
    ensures next == |times| || exists n: nat :: NotYet(readings, ReadingAfter(at, |at|), n, times[next])
                                                && (n == |readings| || readings[n].stopped)
  {
    next, at := first, [];
    var i := 0;
    while next < |times| && i < |readings|
      invariant next == first + |at| <= |times| && i <= |readings| && AllCarried(times, first, readings, at)
      invariant next < |times| ==> NotYet(readings, ReadingAfter(at, |at|), i, times[next])
      decreases |readings| - i
    {
      if readings[i].stopped {
        return;
      }
      if readings[i].time >= times[next] {
        CarryOneMore(times, first, readings, at, i);
        at := at + [i];
        next := next + 1;
      }
      i := i + 1;
    }
  }
}
