/** Clients that take turns under the command resource: what one leaves behind is what the next one
    finds. */
module Turns {
  import opened Bytes
  import opened Commanding
  import opened Controller
  import opened Engine

  /** One client's turn: the number its viewer showed it before it took the resource, and what
      happens until it gives the resource back. */
  datatype Turn = Turn(view: uint32, run: seq<Event>)

  /** The next client finds the controller, the network and telemetry as they are. */
  function Begin(s: System, view: uint32): System {
    Start(s.controller, view, s.shown, s.wire, s.acks)
  }

  /** A viewer may show any number that was ever acknowledged; the resource is given back after an
      acknowledgement or the last timeout. */
  predicate CanTake(s: System, turn: Turn)
    requires Wired(s.controller.hardware)
  {
    turn.view in s.acks && Valid(Begin(s, turn.view), turn.run)
    && !Run(Begin(s, turn.view), turn.run).client.phase.Waiting?
  }

  function EndOf(s: System, turn: Turn): (t: System)
    requires Wired(s.controller.hardware) && CanTake(s, turn)
    ensures Wired(t.controller.hardware)
  {
    Run(Begin(s, turn.view), turn.run)
  }

  predicate InTurn(s: System, turns: seq<Turn>)
    requires Wired(s.controller.hardware)
    decreases |turns|
  {
    |turns| == 0 || (CanTake(s, turns[0]) && InTurn(EndOf(s, turns[0]), turns[1..]))
  }

  function After(s: System, turns: seq<Turn>): (t: System)
    requires Wired(s.controller.hardware) && InTurn(s, turns)
    ensures Wired(t.controller.hardware)
    decreases |turns|
  {
    if |turns| == 0 then s else After(EndOf(s, turns[0]), turns[1..])
  }

  function Steps(turns: seq<Turn>): nat {
    if |turns| == 0 then 0 else |turns[0].run| + Steps(turns[1..])
  }

  /** Nothing is on its way, and telemetry shows where the controller is. */
  function Origin(c: State): System {
    Start(c, c.seqNum, c.seqNum, {}, {c.seqNum})
  }

  // ---------------------------------------------------------------- nobody is ahead

  /** One of the first `n` numbers after `from`, or `from` itself. */
  ghost predicate Known(from: uint32, n: nat, a: uint32) {
    exists k :: 0 <= k <= n && a == Plus(from, k)
  }

  /** The controller is `n` numbers on and has acknowledged all of them; no command is more than one
      ahead, and no client or acknowledgement is ahead at all. */
  ghost predicate Behind(from: uint32, s: System, n: nat) {
    && s.controller.seqNum == Plus(from, n)
    && (forall c :: c in s.wire ==> Known(from, n + 1, c.seqNum))
    && (forall a :: a in s.acks <==> Known(from, n, a))
    && s.shown in s.acks && s.client.view in s.acks
  }

  lemma KnownNext(from: uint32, n: nat, a: uint32)
    requires Known(from, n, a)
    ensures Known(from, n + 1, a) && Known(from, n + 1, Next(a))
  {
    var k :| 0 <= k <= n && a == Plus(from, k);
    PlusNext(from, k);
  }

  lemma KnownOneMore(from: uint32, n: nat, a: uint32)
    ensures Known(from, n + 1, a) <==> Known(from, n, a) || a == Plus(from, n + 1)
  {
    if Known(from, n + 1, a) {
      var k :| 0 <= k <= n + 1 && a == Plus(from, k);
      assert k != n + 1 ==> Known(from, n, a);
    }
    if Known(from, n, a) {
      KnownNext(from, n, a);
    }
  }

  lemma StepKeepsBehind(from: uint32, s: System, n: nat, e: Event) returns (n': nat)
    requires Wired(s.controller.hardware) && Behind(from, s, n) && Enabled(s, e)
    ensures n <= n' <= n + 1 && Behind(from, Step(s, e), n')
  {
    n' := n;
    PlusNext(from, n);
    if e.Send? {
      KnownNext(from, n, s.client.view);
    } else if e.CommandArrives? && Accepts(s.controller, e.c) {
      n' := n + 1;
      forall a
        ensures Known(from, n + 1, a) <==> Known(from, n, a) || a == Plus(from, n + 1)
        ensures Known(from, n + 1, a) ==> Known(from, n + 2, a)
      {
        KnownOneMore(from, n, a);
        KnownOneMore(from, n + 1, a);
      }
    }
  }

  lemma {:induction false} RunKeepsBehind(from: uint32, s: System, n: nat, run: seq<Event>) returns (n': nat)
    requires Wired(s.controller.hardware) && Behind(from, s, n) && Valid(s, run)
    ensures n <= n' <= n + |run| && Behind(from, Run(s, run), n')
    decreases |run|
  {
    n' := n;
    if |run| > 0 {
      n' := StepKeepsBehind(from, s, n, run[0]);
      n' := RunKeepsBehind(from, Step(s, run[0]), n', run[1..]);
    }
  }

  lemma {:induction false} TurnsKeepBehind(from: uint32, s: System, n: nat, turns: seq<Turn>) returns (n': nat)
    requires Wired(s.controller.hardware) && Behind(from, s, n) && InTurn(s, turns)
    ensures n <= n' <= n + Steps(turns) && Behind(from, After(s, turns), n')
    decreases |turns|
  {
    n' := n;
    if |turns| > 0 {
      n' := RunKeepsBehind(from, Begin(s, turns[0].view), n, turns[0].run);
      n' := TurnsKeepBehind(from, EndOf(s, turns[0]), n', turns[1..]);
    }
  }

  lemma OriginBehind(c: State)
    ensures Behind(c.seqNum, Origin(c), 0)
  {
    assert Plus(c.seqNum, 0) == c.seqNum;
  }

  lemma KnownIsOld(from: uint32, n: nat, a: uint32)
    requires Known(from, n, a) && n < HALF
    ensures Old(Plus(from, n), a)
  {
    var k :| 0 <= k <= n && a == Plus(from, k);
    PlusPlus(from, n, k - n);
  }

  lemma BehindMeetsHypothesis(from: uint32, s: System, n: nat)
    requires Behind(from, s, n) && n < HALF
    ensures Leftovers(s.controller.seqNum, s.wire) && OldAcks(s.controller.seqNum, s.shown, s.acks)
  {
    PlusNext(from, n);
    forall a | Known(from, n + 1, a)
      ensures Old(s.controller.seqNum, a) || a == Next(s.controller.seqNum)
    {
      KnownOneMore(from, n, a);
      if Known(from, n, a) {
        KnownIsOld(from, n, a);
      }
    }
    forall a | a in s.acks
      ensures Old(s.controller.seqNum, a)
    {
      KnownIsOld(from, n, a);
    }
  }

  /** Whatever the clients before have done, the next one meets the hypothesis of
      `FooledExactlyWhen`: no command is more than one ahead of the controller, and no
      acknowledgement is ahead of it. */
  lemma TurnsMeetHypothesis(c: State, turns: seq<Turn>)
    requires Wired(c.hardware) && InTurn(Origin(c), turns) && Steps(turns) < HALF
    ensures var s := After(Origin(c), turns);
      Leftovers(s.controller.seqNum, s.wire) && OldAcks(s.controller.seqNum, s.shown, s.acks)
  {
    OriginBehind(c);
    var n := TurnsKeepBehind(c.seqNum, Origin(c), 0, turns);
    BehindMeetsHypothesis(c.seqNum, After(Origin(c), turns), n);
  }

  /** A number that was acknowledged before the controller's present one: the next is acknowledged
      too. */
  lemma StaleIsTaken(from: uint32, s: System, n: nat, view: uint32)
    requires Behind(from, s, n) && view in s.acks && view != s.controller.seqNum
    ensures Next(view) in s.acks
  {
    var k :| 0 <= k <= n && view == Plus(from, k);
    PlusNext(from, k);
    assert Known(from, n, Next(view));
  }

  /** After any turns, the next client can be told of a command that was never carried out exactly
      when its view is stale or a client that gave up has left a command behind. */
  lemma NextClientFooledExactlyWhen(c: State, turns: seq<Turn>, view: uint32)
    requires Wired(c.hardware) && InTurn(Origin(c), turns) && Steps(turns) < HALF
    requires view in After(Origin(c), turns).acks
    ensures var s := After(Origin(c), turns);
      CanBeFooled(s.controller, view, s.shown, s.wire, s.acks)
      <==> view != s.controller.seqNum || HasLeftover(s.controller.seqNum, s.wire)
  {
    var s := After(Origin(c), turns);
    OriginBehind(c);
    var n := TurnsKeepBehind(c.seqNum, Origin(c), 0, turns);
    BehindMeetsHypothesis(c.seqNum, s, n);
    FooledExactlyWhen(s.controller, view, s.shown, s.wire, s.acks);
    if view != s.controller.seqNum {
      StaleIsTaken(c.seqNum, s, n, view);
    } else {
      FreshIsNotTaken(s.controller, s.shown, s.wire, s.acks);
    }
  }

  lemma FreshIsNotTaken(c: State, shown: uint32, commands: set<Command>, acks: set<uint32>)
    requires OldAcks(c.seqNum, shown, acks)
    ensures NextNumberTaken(c, c.seqNum, shown, commands, acks) <==> HasLeftover(c.seqNum, commands)
  {
    NextInjective(c.seqNum, c.seqNum);
    forall a | Old(c.seqNum, a)
      ensures a != Next(c.seqNum)
    {
      OldIsNotNext(c.seqNum, a, 1);
    }
  }

  // ---------------------------------------------------------------- what a turn leaves

  lemma NoLeftoverIsOld(from: uint32, commands: set<Command>)
    requires Leftovers(from, commands) && !HasLeftover(from, commands)
    ensures OldCommands(from, commands)
  {
  }

  lemma LeftBehindExactlyWhen(from: uint32, hardware: Hardware, s: System)
    requires Wired(hardware) && Inv(from, hardware, s) && OnWire(s) && |s.client.sent| < HALF
    ensures HasLeftover(s.controller.seqNum, s.wire) <==> |s.accepted| < |s.client.sent|
  {
    var n := |s.accepted|;
    PlusNext(from, n);
    if n < |s.client.sent| {
      assert s.client.sent[n] in s.wire && s.client.sent[n].seqNum == Next(s.controller.seqNum);
    } else {
      forall c | c in s.wire
        ensures c.seqNum != Plus(from, n + 1)
      {
        if c in s.client.sent {
          var k :| 0 <= k < |s.client.sent| && s.client.sent[k] == c;
          PlusInjective(from, k + 1, n + 1);
        } else {
          ReachedIsNotNext(from, n, c.seqNum, n + 1);
        }
      }
    }
  }

  /** A turn with a fresh view and nothing left over: it carries out what it sends, in order, and
      leaves a command behind exactly when it has sent one that was not carried out - which it can
      only if it gives up. If it ends with an acknowledgement, the next client finds the same
      conditions at the controller's new number, which this one has seen. */
  lemma TurnLeavesCommandExactlyWhen(c: State, turns: seq<Turn>, run: seq<Event>)
    requires Wired(c.hardware) && InTurn(Origin(c), turns) && Steps(turns) + |run| < HALF
    requires var s := After(Origin(c), turns);
      !HasLeftover(s.controller.seqNum, s.wire) && CanTake(s, Turn(s.controller.seqNum, run))
    ensures var s := After(Origin(c), turns); var t := EndOf(s, Turn(s.controller.seqNum, run));
      && t.accepted <= t.client.sent && t.controller.hardware == ExecutedAll(s.controller.hardware, t.accepted)
      && (HasLeftover(t.controller.seqNum, t.wire) <==> |t.accepted| < |t.client.sent|)
      && (t.client.phase.Ready? ==> t.accepted == t.client.sent && t.client.view == t.controller.seqNum)
  {
    var s := After(Origin(c), turns);
    var from, start := s.controller.seqNum, Begin(s, s.controller.seqNum);
    TurnsMeetHypothesis(c, turns);
    NoLeftoverIsOld(from, s.wire);
    StartInv(s.controller, s.shown, s.wire, s.acks);
    RunKeepsInv(from, s.controller.hardware, start, run);
    RunKeepsAnswered(start, run);
    SentAtMost(start, run);
    LeftBehindExactlyWhen(from, s.controller.hardware, Run(start, run));
  }

  // ---------------------------------------------------------------- many good turns

  /** Every client's view is fresh when its turn comes, and its turn ends with an acknowledgement. */
  predicate AllGood(s: System, turns: seq<Turn>)
    requires Wired(s.controller.hardware) && InTurn(s, turns)
    decreases |turns|
  {
    |turns| == 0
    || (turns[0].view == s.controller.seqNum && EndOf(s, turns[0]).client.phase.Ready?
        && AllGood(EndOf(s, turns[0]), turns[1..]))
  }

  /** What the clients send, turn by turn. */
  function AllSent(s: System, turns: seq<Turn>): seq<Command>
    requires Wired(s.controller.hardware) && InTurn(s, turns)
    decreases |turns|
  {
    if |turns| == 0 then []
    else EndOf(s, turns[0]).client.sent + AllSent(EndOf(s, turns[0]), turns[1..])
  }

  lemma {:induction false} ExecutedInTurn(h: Hardware, a: seq<Command>, b: seq<Command>)
    requires Wired(h)
    ensures ExecutedAll(ExecutedAll(h, a), b) == ExecutedAll(h, a + b)
  {
    if |b| == 0 {
      assert a + b == a;
    } else {
      ExecutedInTurn(h, a, b[..|b| - 1]);
      assert (a + b)[..|a + b| - 1] == a + b[..|b| - 1];
    }
  }

  lemma InTurnOneMore(s: System, turns: seq<Turn>, turn: Turn)
    requires Wired(s.controller.hardware) && InTurn(s, turns) && CanTake(After(s, turns), turn)
    ensures InTurn(s, turns + [turn]) && After(s, turns + [turn]) == EndOf(After(s, turns), turn)
    ensures Steps(turns + [turn]) == Steps(turns) + |turn.run|
    decreases |turns|
  {
    if |turns| == 0 {
      assert turns + [turn] == [turn] && [turn][1..] == [];
    } else {
      InTurnOneMore(EndOf(s, turns[0]), turns[1..], turn);
      assert (turns + [turn])[1..] == turns[1..] + [turn];
    }
  }

  /** Then over all the turns together everything sent is carried out once and in order. */
  lemma {:induction false} GoodTurnsCarryOutAll(c: State, before: seq<Turn>, turns: seq<Turn>)
    requires Wired(c.hardware) && InTurn(Origin(c), before)
    requires var s := After(Origin(c), before);
      !HasLeftover(s.controller.seqNum, s.wire) && InTurn(s, turns) && AllGood(s, turns)
    requires Steps(before) + Steps(turns) < HALF
    ensures var s := After(Origin(c), before); var t := After(s, turns);
      && t.controller.hardware == ExecutedAll(s.controller.hardware, AllSent(s, turns))
      && !HasLeftover(t.controller.seqNum, t.wire)
    decreases |turns|
  {
    var s := After(Origin(c), before);
    if |turns| > 0 {
      var first := turns[0];
      TurnLeavesCommandExactlyWhen(c, before, first.run);
      InTurnOneMore(Origin(c), before, first);
      GoodTurnsCarryOutAll(c, before + [first], turns[1..]);
      var t := EndOf(s, first);
      ExecutedInTurn(s.controller.hardware, t.client.sent, AllSent(t, turns[1..]));
    }
  }

  /** There are such turns: after any turns that leave nothing over, a client with a fresh view gets
      whatever it wants done, if nothing is lost. */
  lemma AnyOrdersGetThrough(c: State, turns: seq<Turn>, orders: seq<Order>) returns (run: seq<Event>)
    requires Wired(c.hardware) && InTurn(Origin(c), turns) && Steps(turns) + 4 * |orders| < HALF
    requires var s := After(Origin(c), turns); !HasLeftover(s.controller.seqNum, s.wire)
    ensures var s := After(Origin(c), turns); var turn := Turn(s.controller.seqNum, run);
      && CanTake(s, turn) && InTurn(s, [turn]) && AllGood(s, [turn])
      && EndOf(s, turn).client.sent == Commands(s.controller.seqNum, orders)
      && EndOf(s, turn).controller.hardware
         == ExecutedAll(s.controller.hardware, Commands(s.controller.seqNum, orders))
  {
    var s := After(Origin(c), turns);
    OriginBehind(c);
    var n := TurnsKeepBehind(c.seqNum, Origin(c), 0, turns);
    IsKnown(c.seqNum, n);
    run := NothingLost(Begin(s, s.controller.seqNum), orders);
    assert [] + Commands(s.controller.seqNum, orders) == Commands(s.controller.seqNum, orders);
    TurnLeavesCommandExactlyWhen(c, turns, run);
    assert [Turn(s.controller.seqNum, run)][1..] == [];
  }

  lemma IsKnown(from: uint32, n: nat)
    ensures Known(from, n, Plus(from, n))
  {
  }

  // ---------------------------------------------------------------- a client that gives up

  /** The failure is real: a client gives up, the next one has a fresh view, and the first one's
      command is carried out and acknowledged in place of the second one's. */
  lemma GivingUpFoolsTheNext(c: State) returns (turn: Turn, run: seq<Event>)
    requires Wired(c.hardware)
    ensures CanTake(Origin(c), turn) && EndOf(Origin(c), turn).client.phase.Stopped?
    ensures var s := EndOf(Origin(c), turn);
      && turn.view == c.seqNum == s.controller.seqNum && Valid(Begin(s, s.controller.seqNum), run)
      && FalseAck(Run(Begin(s, s.controller.seqNum), run)) && |turn.run| + |run| == 10
  {
    var first := GivingUpLeavesCommand(c, c.seqNum, {}, {c.seqNum}, 100, 1);
    turn := Turn(c.seqNum, first);
    var s := EndOf(Origin(c), turn);
    run := LeftoverFools(c, s.shown, s.wire, s.acks, Command(Next(c.seqNum), 100, 1), 100, 0);
  }
}
