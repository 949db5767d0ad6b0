/** The countdown clock: five commands on a shared record of 32-bit times. Times are in
    milliseconds; negative clock times are before T-0. */
module Clock {
  import opened Wrappers
  import opened Bytes
  import opened Decimals

  datatype Cmd = Start | Stop | SetHold(arg: int) | ReleaseHold | SetClock(arg: int)

  /** The shared record as a value. */
  datatype Face = Face(t0: uint32, holdSet: bool, hold: int, stopped: bool, stopTime: uint32)

  /** Storing into a `uint32_t`. */
  function Stored(t: int): uint32 {
    t % U32
  }

  predicate Fits32(t: int) {
    0 <= t < U32
  }

  /** What `read_time` shows. */
  function Display(f: Face, now: uint32): int {
    if f.stopped then f.stopTime - f.t0
    else if Holding(f, now) then f.hold
    else now - f.t0
  }

  predicate Holding(f: Face, now: uint32) {
    !f.stopped && f.holdSet && now > f.t0 + f.hold
  }

  /** The clock has reached its hold, stopped or not. */
  predicate AtHold(f: Face, now: uint32) {
    f.holdSet && now >= f.t0 + f.hold
  }

  /** Whether `parse_cmd` reports success. The test for a hold in progress looks at `t0 - hold`,
      not at `t0 + hold` as everything else does. */
  predicate Succeeds(f: Face, now: uint32, c: Cmd) {
    match c
    case Start => f.stopped
    case Stop => !f.stopped
    case ReleaseHold => f.holdSet
    case SetClock(_) => f.stopped
    case SetHold(arg) =>
      if f.stopped then f.stopTime - f.t0 <= arg
      else !(f.holdSet && now > f.t0 - f.hold) && now <= f.t0 + arg
  }

  /** What a successful command leaves, in terms of what the clock shows. */
  function Applied(f: Face, now: uint32, c: Cmd): Face {
    match c
    case Start =>
      var t0 := Stored(now - Display(f, now));
      Face(t0, f.holdSet && now <= t0 + f.hold, f.hold, false, f.stopTime)
    case Stop =>
      Face(if AtHold(f, now) then Stored(now - f.hold) else f.t0, f.holdSet, f.hold, true, now)
    case SetHold(arg) => f.(hold := arg, holdSet := true)
    case ReleaseHold =>
      if AtHold(f, now) then
        var t0 := Stored(now - f.hold);
        Face(t0, false, f.hold, f.stopped, if f.stopped then Stored(t0 + Display(f, now)) else f.stopTime)
      else f.(holdSet := false)
    case SetClock(arg) => f.(t0 := Stored(now - arg), stopTime := now)
  }

  function After(f: Face, now: uint32, c: Cmd): Face {
    if Succeeds(f, now, c) then Applied(f, now, c) else f
  }

  // ---------------------------------------------------------------- no command makes the display jump

  /** The guard under which a command stores no time that wraps around, and under which no hold
      is replaced while it is holding. */
  predicate Smooth(f: Face, now: uint32, c: Cmd) {
    match c
    case Start => f.stopped ==> Fits32(now + f.t0 - f.stopTime)
    case Stop => !f.stopped && AtHold(f, now) ==> Fits32(now - f.hold)
    case SetHold(arg) => !(Holding(f, now) && now <= f.t0 - f.hold && now <= f.t0 + arg)
    case ReleaseHold =>
      AtHold(f, now) ==>
        if f.stopped then Fits32(Stored(now - f.hold) + f.stopTime - f.t0) else Fits32(now - f.hold)
    case SetClock(_) => true
  }

  /** Start, stop, set-hold and release leave the displayed time as it is at that instant exactly
      when no stored time wraps and, for set-hold, the clock is not holding. */
  lemma NoJumpExactlyWhenSmooth(f: Face, now: uint32, c: Cmd)
    requires !c.SetClock?
    ensures Display(After(f, now, c), now) == Display(f, now) <==> Smooth(f, now, c)
  {
  }

  /** Setting the clock shows what was asked for, exactly when that can be stored. */
  lemma SetShowsItsArgumentExactlyWhen(f: Face, now: uint32, arg: int)
    requires f.stopped
    ensures Display(After(f, now, SetClock(arg)), now) == arg <==> Fits32(now - arg)
  {
  }

  /** The wrong sign in the guard of set-hold, shown: a clock held at T-0.5 s accepts a new hold
      at T-0.1 s and the display jumps by 0.1 s at once. */
  lemma SetHoldWhileHoldingJumps()
    ensures var f := Face(1000, true, -500, false, 0);
      && Holding(f, 600) && Succeeds(f, 600, SetHold(-100))
      && Display(f, 600) == -500 && Display(After(f, 600, SetHold(-100)), 600) == -400
  {
  }

  /** While holding, the guard lets a new hold through exactly from here on, where the source's
      own message says it must be released first. */
  lemma HoldGuardMissesExactlyWhen(f: Face, now: uint32, arg: int)
    requires Holding(f, now)
    ensures Succeeds(f, now, SetHold(arg)) <==> now <= f.t0 - f.hold && now <= f.t0 + arg
    ensures Succeeds(f, now, SetHold(arg)) ==> f.hold < 0 && f.hold < arg
  {
  }

  // ---------------------------------------------------------------- conservation over runs

  datatype Event = Event(at: uint32, cmd: Cmd)

  predicate Ordered(from: uint32, run: seq<Event>)
    decreases |run|
  {
    |run| > 0 ==> from <= run[0].at && Ordered(run[0].at, run[1..])
  }

  function EndFace(f: Face, run: seq<Event>): Face
    decreases |run|
  {
    if |run| == 0 then f else EndFace(After(f, run[0].at, run[0].cmd), run[1..])
  }

  function EndTime(from: uint32, run: seq<Event>): uint32
    decreases |run|
  {
    if |run| == 0 then from else EndTime(run[0].at, run[1..])
  }

  /** Time spent stopped between `a` and `b` with the record as it is. */
  function StoppedFor(f: Face, a: uint32, b: uint32): int {
    if f.stopped then b - a else 0
  }

  /** Time spent at the hold between `a` and `b`. */
  function HeldFor(f: Face, a: uint32, b: uint32): int {
    if f.stopped || !f.holdSet || b <= f.t0 + f.hold then 0
    else if a <= f.t0 + f.hold then b - (f.t0 + f.hold)
    else b - a
  }

  function TotalStopped(f: Face, from: uint32, run: seq<Event>): int
    decreases |run|
  {
    if |run| == 0 then 0
    else StoppedFor(f, from, run[0].at) + TotalStopped(After(f, run[0].at, run[0].cmd), run[0].at, run[1..])
  }

  function TotalHeld(f: Face, from: uint32, run: seq<Event>): int
    decreases |run|
  {
    if |run| == 0 then 0
    else HeldFor(f, from, run[0].at) + TotalHeld(After(f, run[0].at, run[0].cmd), run[0].at, run[1..])
  }

  /** No clock is set in the run and every command meets its guard. */
  predicate SmoothRun(f: Face, run: seq<Event>)
    decreases |run|
  {
    |run| > 0 ==>
      && !run[0].cmd.SetClock? && Smooth(f, run[0].at, run[0].cmd)
      && SmoothRun(After(f, run[0].at, run[0].cmd), run[1..])
  }

  /** Between commands the display moves with the wall clock, less the time stopped or held. */
  lemma DisplayBetween(f: Face, a: uint32, b: uint32)
    requires a <= b
    ensures Display(f, b) - Display(f, a) == (b - a) - StoppedFor(f, a, b) - HeldFor(f, a, b)
  {
  }

  /** Conservation: over any run of start, stop, set-hold and release commands, the displayed time
      changes by exactly the wall time minus the time stopped minus the time spent held. */
  lemma {:induction false} Conservation(f: Face, from: uint32, run: seq<Event>)
    requires Ordered(from, run) && SmoothRun(f, run)
    ensures Display(EndFace(f, run), EndTime(from, run)) - Display(f, from)
         == (EndTime(from, run) - from) - TotalStopped(f, from, run) - TotalHeld(f, from, run)
    decreases |run|
  {
    if |run| > 0 {
      var at, f' := run[0].at, After(f, run[0].at, run[0].cmd);
      DisplayBetween(f, from, at);
      NoJumpExactlyWhenSmooth(f, at, run[0].cmd);
      Conservation(f', at, run[1..]);
    }
  }

  // ---------------------------------------------------------------- what the commands mean

  /** A clock as somebody who looks at it knows it: what it shows, whether it runs, its hold, and
      whether it is being held there. */
  datatype Shown = Shown(time: int, running: bool, hold: Option<int>, held: bool)

  function View(f: Face, now: uint32): Shown {
    Shown(Display(f, now), !f.stopped, if f.holdSet then Some(f.hold) else None, Holding(f, now))
  }

  /** A running clock goes on with the wall clock until it is at its hold. */
  function Later(w: Shown, ms: nat): Shown {
    if !w.running then w
    else if w.hold.None? then w.(time := w.time + ms)
    else if w.held || w.time + ms > w.hold.value then w.(time := w.hold.value, held := true)
    else w.(time := w.time + ms)
  }

  predicate Accepts(w: Shown, c: Cmd) {
    match c
    case Start => !w.running
    case Stop => w.running
    case ReleaseHold => w.hold.Some?
    case SetClock(_) => !w.running
    case SetHold(arg) =>
      w.time <= arg && (w.running ==> !w.held && (w.hold.Some? ==> w.time <= -w.hold.value))
  }

  /** What an accepted command changes: nothing but what it is named after, save that a clock that is
      started after its hold loses it. */
  function Commanded(w: Shown, c: Cmd): Shown {
    match c
    case Start => w.(running := true, hold := if w.hold.Some? && w.time > w.hold.value then None else w.hold)
    case Stop => w.(running := false, held := false)
    case SetHold(arg) => w.(hold := Some(arg))
    case ReleaseHold => w.(hold := None, held := false)
    case SetClock(arg) => w.(time := arg)
  }

  /** No stored time wraps around and no hold in progress is replaced. */
  predicate Guarded(f: Face, now: uint32, c: Cmd) {
    Smooth(f, now, c) && (c.SetClock? ==> Fits32(now - c.arg))
  }

  lemma PassesOn(f: Face, now: uint32, later: uint32)
    requires now <= later
    ensures View(f, later) == Later(View(f, now), later - now)
  {
  }

  /** Every command does to what is shown just what its name says. */
  lemma CommandMeans(f: Face, now: uint32, c: Cmd)
    requires Guarded(f, now, c)
    ensures Succeeds(f, now, c) == Accepts(View(f, now), c)
    ensures View(After(f, now, c), now) == if Succeeds(f, now, c) then Commanded(View(f, now), c) else View(f, now)
  {
  }

  function EndShown(w: Shown, from: uint32, run: seq<Event>): Shown
    requires Ordered(from, run)
    decreases |run|
  {
    if |run| == 0 then w
    else
      var u := Later(w, run[0].at - from);
      EndShown(if Accepts(u, run[0].cmd) then Commanded(u, run[0].cmd) else u, run[0].at, run[1..])
  }

  predicate GuardedRun(f: Face, run: seq<Event>)
    decreases |run|
  {
    |run| > 0 ==> Guarded(f, run[0].at, run[0].cmd) && GuardedRun(After(f, run[0].at, run[0].cmd), run[1..])
  }

  /** Over any run of guarded commands the record of 32-bit times shows, at any later time, what
      the clock as it is looked at would show. */
  lemma {:induction false} ShowsWhatIsMeant(f: Face, from: uint32, run: seq<Event>, later: uint32)
    requires Ordered(from, run) && GuardedRun(f, run) && EndTime(from, run) <= later
    ensures View(EndFace(f, run), later) == Later(EndShown(View(f, from), from, run), later - EndTime(from, run))
    decreases |run|
  {
    if |run| == 0 {
      PassesOn(f, from, later);
    } else {
      var e := run[0];
      PassesOn(f, from, e.at);
      CommandMeans(f, e.at, e.cmd);
      ShowsWhatIsMeant(After(f, e.at, e.cmd), e.at, run[1..], later);
    }
  }

  /** A released clock runs on from what it showed, and is not held when it is started again. */
  lemma ReleaseLetsGo(f: Face, now: uint32, later: uint32)
    requires f.holdSet && Smooth(f, now, ReleaseHold) && now <= later
    ensures var f' := After(f, now, ReleaseHold);
      && Succeeds(f, now, ReleaseHold) && !f'.holdSet
      && Display(f', later) == Display(f, now) + (if f.stopped then 0 else later - now)
      && forall at: uint32, then': uint32 :: !Holding(After(f', at, Start), then')
  {
  }

  // ---------------------------------------------------------------- the hold is a ceiling

  /** A hold at `h` is set and has not been passed. */
  predicate Ceiling(f: Face, h: int) {
    f.holdSet && f.hold == h && (f.stopped ==> f.stopTime - f.t0 <= h)
  }

  predicate StartsAndStops(f: Face, run: seq<Event>)
    decreases |run|
  {
    |run| > 0 ==>
      && (run[0].cmd.Start? || run[0].cmd.Stop?) && Smooth(f, run[0].at, run[0].cmd)
      && StartsAndStops(After(f, run[0].at, run[0].cmd), run[1..])
  }

  lemma SetHoldMakesCeiling(f: Face, now: uint32, h: int)
    requires Succeeds(f, now, SetHold(h))
    ensures Ceiling(After(f, now, SetHold(h)), h)
  {
  }

  lemma StartStopKeepsCeiling(f: Face, now: uint32, c: Cmd, h: int)
    requires Ceiling(f, h) && (c.Start? || c.Stop?) && Smooth(f, now, c)
    ensures Ceiling(After(f, now, c), h)
  {
  }

  lemma {:induction false} RunKeepsCeiling(f: Face, run: seq<Event>, h: int)
    requires Ceiling(f, h) && StartsAndStops(f, run)
    ensures Ceiling(EndFace(f, run), h)
    decreases |run|
  {
    if |run| > 0 {
      StartStopKeepsCeiling(f, run[0].at, run[0].cmd, h);
      RunKeepsCeiling(After(f, run[0].at, run[0].cmd), run[1..], h);
    }
  }

  /** Once a hold has been set, no alternation of starts and stops ever shows a later time. */
  lemma HoldIsCeiling(f: Face, now: uint32, h: int, run: seq<Event>, later: uint32)
    requires Succeeds(f, now, SetHold(h)) && StartsAndStops(After(f, now, SetHold(h)), run)
    ensures Display(EndFace(After(f, now, SetHold(h)), run), later) <= h
  {
    SetHoldMakesCeiling(f, now, h);
    RunKeepsCeiling(After(f, now, SetHold(h)), run, h);
  }

  // ---------------------------------------------------------------- the clock in place

  class CountdownClock {
    var t0: uint32
    var holdSet: bool
    var hold: int
    var stopped: bool
    var stopTime: uint32

    function Record(): Face
      reads this
    {
      Face(t0, holdSet, hold, stopped, stopTime)
    }

    /** `create`: stopped at T-0. */
    constructor (now: uint32)
      ensures Record() == Face(now, false, 0, true, now) && Display(Record(), now) == 0
    {
      t0, stopTime, stopped, holdSet, hold := now, now, true, false, 0;
    }

    /** `parse_cmd`: the new record is `After` of the old one. */
    method ParseCmd(now: uint32, c: Cmd) returns (ok: bool)
      modifies this
      ensures ok == Succeeds(old(Record()), now, c)
      ensures Record() == After(old(Record()), now, c)
    {
      ok := true;
      match c
      case Start =>
        if stopped {
          stopped := false;
          t0 := (now + (t0 - stopTime)) % U32;
          if holdSet {
            if now > t0 + hold {
              holdSet := false;
            }
          }
        } else {
          ok := false;
        }
      case Stop =>
        if !stopped {
          stopTime := now;
          stopped := true;
          if holdSet && now >= t0 + hold {
            t0 := (stopTime - hold) % U32;
          }
        } else {
          ok := false;
        }
      case SetHold(arg) =>
        var refT0: int := t0;
        if stopped {
          refT0 := now + (t0 - stopTime);
        } else if holdSet && now > t0 - hold {
          return false;
        }
        if now > refT0 + arg {
          ok := false;
        } else {
          hold := arg;
          holdSet := true;
        }
      case ReleaseHold =>
        if holdSet {
          holdSet := false;
          if now >= t0 + hold {
            var refT0 := t0;
            t0 := (now - hold) % U32;
            if stopped {
              stopTime := (stopTime + (t0 - refT0)) % U32;
            }
          }
        } else {
          ok := false;
        }
      case SetClock(arg) =>
        if !stopped {
          return false;
        }
        t0 := (now - arg) % U32;
        stopTime := now;
    }

    /** `read_time`, with all its optional outputs; `wanted` says whether the hold is asked for. */
    method ReadTime(now: uint32, wanted: bool)
        returns (time: int, isStopped: bool, holding: bool, holdTime: Option<int>, isHoldSet: Option<bool>)
      ensures time == Display(Record(), now) && isStopped == stopped && holding == Holding(Record(), now)
      ensures isHoldSet == if wanted then Some(holdSet) else None
      ensures holdTime == if wanted && holdSet then Some(hold) else None
    {
      holdTime, isHoldSet := None, None;
      if wanted {
        isHoldSet := Some(holdSet);
        if holdSet {
          holdTime := Some(hold);
        }
      }
      isStopped, holding := stopped, false;
      if stopped {
        time := stopTime - t0;
      } else {
        if holdSet && now > t0 + hold {
          time := hold;
          holding := true;
        } else {
          time := now - t0;
        }
      }
    }
  }

  // ---------------------------------------------------------------- T+hh:mm:ss.ms

  function Two(n: nat): string {
    if |Decimal(n)| < 2 then "0" + Decimal(n) else Decimal(n)
  }

  lemma {:induction false} NumberOfPadded(s: string)
    requires |s| > 0
    ensures Number("0" + s) == Number(s)
  {
    assert ("0" + s)[..|s|] == "0" + s[..|s| - 1];
    if |s| == 1 {
      assert "0" + s[..0] == "0";
      assert "0"[..0] == "";
    } else {
      NumberOfPadded(s[..|s| - 1]);
    }
  }

  lemma NumberOfTwo(n: nat)
    ensures Number(Two(n)) == n && |Two(n)| >= 2
  {
    NumberOfDecimal(n);
    NumberOfPadded(Decimal(n));
  }

  const PER_HOUR := 3_600_000
  const PER_MINUTE := 60_000
  const PER_SECOND := 1000

  lemma PartsAddUp(t: nat, h: nat, m: nat)
    requires h == t % PER_HOUR && m == h % PER_MINUTE
    ensures h / PER_MINUTE < 60 && m / PER_SECOND < 60
    ensures t == (((t / PER_HOUR) * 60 + h / PER_MINUTE) * 60 + m / PER_SECOND) * 1000 + m % PER_SECOND
    ensures m % PER_SECOND == t % PER_SECOND
  {
  }

  /** Hours, minutes, seconds and milliseconds as `to_str` prints them. */
  function Parts(t: nat): (p: seq<string>)
    ensures |p| == 4
  {
    var h, m := t % PER_HOUR, t % PER_HOUR % PER_MINUTE;
    [Two(t / PER_HOUR), Two(h / PER_MINUTE), Two(m / PER_SECOND), Decimal(m % PER_SECOND)]
  }

  function Text(sign: string, p: seq<string>): string
    requires |p| == 4
  {
    sign + " " + p[0] + ":" + p[1] + ":" + p[2] + "." + p[3]
  }

  /** The text shows the time to the millisecond; the milliseconds are not padded. */
  lemma PartsGiveTimeBack(t: nat)
    ensures var p := Parts(t);
      && Number(p[1]) < 60 && Number(p[2]) < 60 && Number(p[3]) < 1000
      && |p[0]| >= 2 && |p[1]| >= 2 && |p[2]| >= 2
      && t == ((Number(p[0]) * 60 + Number(p[1])) * 60 + Number(p[2])) * 1000 + Number(p[3])
  {
    var h, m := t % PER_HOUR, t % PER_HOUR % PER_MINUTE;
    NumberOfTwo(t / PER_HOUR);
    NumberOfTwo(h / PER_MINUTE);
    NumberOfTwo(m / PER_SECOND);
    NumberOfDecimal(m % PER_SECOND);
    PartsAddUp(t, h, m);
  }

  lemma MillisecondsStay(t: nat)
    ensures t % PER_HOUR % PER_MINUTE % PER_SECOND == t % PER_SECOND
  {
    PartsAddUp(t, t % PER_HOUR, t % PER_HOUR % PER_MINUTE);
  }

  function Magnitude(t: int): nat {
    if t > 0 then t else -t
  }

  /** `to_str`, which leaves only the milliseconds in its argument. */
  method ToStr(t: int) returns (str: string, time: int)
    ensures str == Text(if t > 0 then "T+" else "T-", Parts(Magnitude(t)))
    ensures time == Magnitude(t) % PER_SECOND
  {
    time := t;
    if time > 0 {
      str := "T+";
    } else {
      str := "T-";
      time := time * -1;
    }
    ghost var n := Magnitude(t);
    assert time == n;
    MillisecondsStay(n);
    var hh := Two(time / PER_HOUR);
    time := time % PER_HOUR;
    var mm := Two(time / PER_MINUTE);
    time := time % PER_MINUTE;
    var ss := Two(time / PER_SECOND);
    time := time % PER_SECOND;
    var ms := Decimal(time);
    assert Parts(n) == [hh, mm, ss, ms];
    str := str + " " + hh + ":" + mm + ":" + ss + "." + ms;
  }
}
