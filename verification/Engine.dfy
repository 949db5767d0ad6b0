/** The stop-and-wait command protocol between the one client that holds the command resource and
    the engine controller, over a network that loses, repeats and reorders datagrams. */
module Engine {
  import opened Bytes
  import opened Commanding
  import opened Controller

  datatype Phase = Ready | Waiting | Stopped

  /** The client: the sequence number its viewer shows, the commands sent, how many of them it saw
      acknowledged, and how often it has timed out on the current one. */
  datatype Client = Client(phase: Phase, view: uint32, sent: seq<Command>, acked: nat, timeouts: nat)

  /** `wire` and `acks` hold every datagram ever sent: any of them may arrive at any time, any
      number of times, or never. `shown` is the last acknowledgement that arrived in telemetry. */
  datatype System = System(
    controller: State, accepted: seq<Command>, wire: set<Command>, acks: set<uint32>, shown: uint32, client: Client)

  datatype Event =
    | Send(control: uint16, state: uint16)
    | CommandArrives(c: Command)
    | AckArrives(ack: uint32)
    | Update
    | TimeOut

  predicate Enabled(s: System, e: Event) {
    match e
    case Send(_, _) => s.client.phase.Ready?
    case CommandArrives(c) => c in s.wire
    case AckArrives(a) => a in s.acks
    case Update => s.client.phase.Waiting?
    case TimeOut => s.client.phase.Waiting?
  }

  function Step(s: System, e: Event): (s': System)
    requires Wired(s.controller.hardware) && Enabled(s, e)
    ensures Wired(s'.controller.hardware)
  {
    match e
    case Send(control, state) =>
      var c := Command(Next(s.client.view), control, state);
      s.(wire := s.wire + {c}, client := s.client.(phase := Waiting, sent := s.client.sent + [c], timeouts := 0))
    case CommandArrives(c) =>
      var after := Received(s.controller, c);
      s.(controller := after, acks := s.acks + {after.seqNum},
         accepted := if Accepts(s.controller, c) then s.accepted + [c] else s.accepted)
    case AckArrives(a) => s.(shown := a)
    case Update =>
      var view := s.shown;
      if |s.client.sent| > 0 && view == s.client.sent[|s.client.sent| - 1].seqNum then
        s.(client := s.client.(phase := Ready, view := view, acked := s.client.acked + 1))
      else s.(client := s.client.(view := view))
    case TimeOut =>
      var n := s.client.timeouts + 1;
      s.(client := s.client.(timeouts := n, phase := if n == NUM_RETRANSMITS then Stopped else Waiting))
  }

  /** Before the first command: the client's view is `view`, telemetry shows `shown` by now, and
      `oldCommands` and `oldAcks` are still on their way from earlier. */
  function Start(c: State, view: uint32, shown: uint32, oldCommands: set<Command>, oldAcks: set<uint32>): System {
    System(c, [], oldCommands, oldAcks, shown, Client(Ready, view, [], 0, 0))
  }

  predicate Valid(s: System, run: seq<Event>)
    requires Wired(s.controller.hardware)
    decreases |run|
  {
    |run| == 0 || (Enabled(s, run[0]) && Valid(Step(s, run[0]), run[1..]))
  }

  function Run(s: System, run: seq<Event>): (s': System)
    requires Wired(s.controller.hardware) && Valid(s, run)
    ensures Wired(s'.controller.hardware)
    decreases |run|
  {
    if |run| == 0 then s else Run(Step(s, run[0]), run[1..])
  }

  // ---------------------------------------------------------------- numbers going round

  /** The number `n` steps after `from`. */
  function Plus(from: uint32, n: int): uint32 {
    (from + n) % U32
  }

  lemma PlusNext(from: uint32, n: int)
    ensures Next(Plus(from, n)) == Plus(from, n + 1)
  {
  }

  lemma PlusPlus(from: uint32, a: int, b: int)
    ensures Plus(Plus(from, a), b) == Plus(from, a + b)
  {
  }

  /** Numbers less than one round apart are equal only if they are the same. */
  lemma PlusInjective(from: uint32, a: int, b: int)
    requires a - b < U32 && b - a < U32
    ensures Plus(from, a) == Plus(from, b) <==> a == b
  {
  }

  // ---------------------------------------------------------------- the invariant

  /** How long a run may be, and how old old datagrams may be, so that numbers stay unambiguous. */
  const HALF: nat := 0x8000_0000

  /** An old number: one the controller had reached at the start, not too long ago. */
  ghost predicate Old(from: uint32, n: uint32) {
    exists j: int :: -(HALF as int) < j <= 0 && n == Plus(from, j)
  }

  ghost predicate OldAcks(from: uint32, shown: uint32, acks: set<uint32>) {
    Old(from, shown) && forall a :: a in acks ==> Old(from, a)
  }

  ghost predicate OldCommands(from: uint32, commands: set<Command>) {
    forall c :: c in commands ==> Old(from, c.seqNum)
  }

  /** A number is old, or one that the controller has reached since. */
  ghost predicate Reached(from: uint32, n: nat, a: uint32) {
    Old(from, a) || exists i :: 1 <= i <= n && a == Plus(from, i)
  }

  lemma ReachedStays(from: uint32, n: nat, n': nat, a: uint32)
    requires Reached(from, n, a) && n <= n'
    ensures Reached(from, n', a)
  {
  }

  /** A command on the wire is one of those sent, or its number has been passed. */
  ghost predicate WireOk(from: uint32, s: System) {
    forall c :: c in s.wire ==> c in s.client.sent || Reached(from, |s.accepted|, c.seqNum)
  }

  /** Acknowledgements on their way are numbers that the controller had reached. */
  ghost predicate AcksOk(from: uint32, s: System) {
    Reached(from, |s.accepted|, s.shown) && forall a :: a in s.acks ==> Reached(from, |s.accepted|, a)
  }

  /** The commands have the numbers after `from`, in order. */
  predicate Numbered(from: uint32, cs: seq<Command>) {
    forall k :: 0 <= k < |cs| ==> cs[k].seqNum == Plus(from, k + 1)
  }

  /** Client and controller are in step. */
  predicate InStep(from: uint32, hardware: Hardware, s: System)
    requires Wired(hardware)
  {
    var c := s.client;
    && Numbered(from, c.sent)
    && |c.sent| == c.acked + (if c.phase.Ready? then 0 else 1)
    && c.acked <= |s.accepted| <= |c.sent| && s.accepted == c.sent[..|s.accepted|]
    && s.controller.seqNum == Plus(from, |s.accepted|) && s.controller.hardware == ExecutedAll(hardware, s.accepted)
    && (c.phase.Ready? ==> c.view == Plus(from, c.acked))
  }

  ghost predicate Inv(from: uint32, hardware: Hardware, s: System)
    requires Wired(hardware)
  {
    InStep(from, hardware, s) && WireOk(from, s) && AcksOk(from, s)
  }

  lemma OldIsNotNext(from: uint32, n: uint32, k: nat)
    requires Old(from, n) && 1 <= k <= HALF
    ensures n != Plus(from, k)
  {
  }

  /** What has been reached is not yet to come. */
  lemma ReachedIsNotNext(from: uint32, n: nat, a: uint32, k: nat)
    requires Reached(from, n, a) && n < k <= HALF
    ensures a != Plus(from, k)
  {
    if Old(from, a) {
      OldIsNotNext(from, a, k);
    } else {
      var i :| 1 <= i <= n && a == Plus(from, i);
      PlusInjective(from, i, k);
    }
  }

  /** Of all commands that may arrive, the controller accepts just the next one sent. */
  lemma AcceptsOnlyNext(from: uint32, hardware: Hardware, s: System, c: Command)
    requires Wired(hardware) && Inv(from, hardware, s) && |s.client.sent| < HALF && c in s.wire
    ensures Accepts(s.controller, c) ==> |s.accepted| < |s.client.sent| && c == s.client.sent[|s.accepted|]
  {
    var n := |s.accepted|;
    PlusNext(from, n);
    if c in s.client.sent {
      var k :| 0 <= k < |s.client.sent| && s.client.sent[k] == c;
      PlusInjective(from, k + 1, n + 1);
    } else {
      ReachedIsNotNext(from, n, c.seqNum, n + 1);
    }
  }

  /** What is on its way after a step that leaves the network alone or adds what is due to it. */
  lemma NetworkStaysOk(from: uint32, s: System, s': System)
    requires WireOk(from, s) && AcksOk(from, s) && |s.accepted| <= |s'.accepted|
    requires s.client.sent <= s'.client.sent && Reached(from, |s'.accepted|, s'.shown)
    requires forall c :: c in s'.wire ==> c in s.wire || c in s'.client.sent
    requires forall a :: a in s'.acks ==> a in s.acks || Reached(from, |s'.accepted|, a)
    ensures WireOk(from, s') && AcksOk(from, s')
  {
    forall a | Reached(from, |s.accepted|, a)
      ensures Reached(from, |s'.accepted|, a)
    {
      ReachedStays(from, |s.accepted|, |s'.accepted|, a);
    }
  }

  lemma IsReached(from: uint32, n: nat)
    ensures Reached(from, n, Plus(from, n))
  {
    if n == 0 {
      assert Old(from, Plus(from, 0));
    }
  }

  lemma ArrivalKeepsInStep(from: uint32, hardware: Hardware, s: System, c: Command)
    requires Wired(hardware) && Wired(s.controller.hardware) && InStep(from, hardware, s) && c in s.wire
    requires Accepts(s.controller, c) ==> |s.accepted| < |s.client.sent| && c == s.client.sent[|s.accepted|]
    ensures InStep(from, hardware, Step(s, CommandArrives(c)))
  {
    var s', n := Step(s, CommandArrives(c)), |s.accepted|;
    PlusNext(from, n);
    if Accepts(s.controller, c) {
      assert s'.accepted[..n] == s.accepted;
      assert s'.accepted == s.client.sent[..n + 1];
    }
  }

  lemma ArrivalKeepsInv(from: uint32, hardware: Hardware, s: System, c: Command)
    requires Wired(hardware) && Wired(s.controller.hardware) && Inv(from, hardware, s)
    requires |s.client.sent| < HALF && c in s.wire
    ensures Inv(from, hardware, Step(s, CommandArrives(c)))
  {
    var s', n := Step(s, CommandArrives(c)), |s.accepted|;
    AcceptsOnlyNext(from, hardware, s, c);
    ArrivalKeepsInStep(from, hardware, s, c);
    IsReached(from, |s'.accepted|);
    ReachedStays(from, n, |s'.accepted|, s.shown);
    NetworkStaysOk(from, s, s');
  }

  lemma SendKeepsInv(from: uint32, hardware: Hardware, s: System, e: Event)
    requires Wired(hardware) && Wired(s.controller.hardware) && Inv(from, hardware, s) && e.Send? && Enabled(s, e)
    ensures Inv(from, hardware, Step(s, e))
  {
    PlusNext(from, s.client.acked);
    NetworkStaysOk(from, s, Step(s, e));
  }

  lemma UpdateKeepsInv(from: uint32, hardware: Hardware, s: System)
    requires Wired(hardware) && Wired(s.controller.hardware) && Inv(from, hardware, s) && |s.client.sent| < HALF
    requires s.client.phase.Waiting?
    ensures Inv(from, hardware, Step(s, Update))
  {
    var n := s.client.acked;
    if s.shown == Plus(from, n + 1) && |s.accepted| == n {
      ReachedIsNotNext(from, n, s.shown, n + 1);
    }
    NetworkStaysOk(from, s, Step(s, Update));
  }

  lemma StepKeepsInv(from: uint32, hardware: Hardware, s: System, e: Event)
    requires Wired(hardware) && Wired(s.controller.hardware) && Inv(from, hardware, s)
    requires |s.client.sent| < HALF && Enabled(s, e)
    ensures Inv(from, hardware, Step(s, e))
  {
    match e
    case Send(_, _) => SendKeepsInv(from, hardware, s, e);
    case CommandArrives(c) => ArrivalKeepsInv(from, hardware, s, c);
    case Update => UpdateKeepsInv(from, hardware, s);
    case AckArrives(a) => NetworkStaysOk(from, s, Step(s, e));
    case TimeOut => NetworkStaysOk(from, s, Step(s, e));
  }

  lemma {:induction false} RunKeepsInv(from: uint32, hardware: Hardware, s: System, run: seq<Event>)
    requires Wired(hardware) && Wired(s.controller.hardware) && Inv(from, hardware, s)
    requires Valid(s, run) && |s.client.sent| + |run| < HALF
    ensures Inv(from, hardware, Run(s, run))
    decreases |run|
  {
    if |run| > 0 {
      StepKeepsInv(from, hardware, s, run[0]);
      RunKeepsInv(from, hardware, Step(s, run[0]), run[1..]);
    }
  }

  lemma StartInv(c: State, shown: uint32, oldCommands: set<Command>, oldAcks: set<uint32>)
    requires Wired(c.hardware) && OldCommands(c.seqNum, oldCommands) && OldAcks(c.seqNum, shown, oldAcks)
    ensures Inv(c.seqNum, c.hardware, Start(c, c.seqNum, shown, oldCommands, oldAcks))
  {
  }

  lemma {:induction false} SentAtMost(s: System, run: seq<Event>)
    requires Wired(s.controller.hardware) && Valid(s, run)
    ensures |Run(s, run).client.sent| <= |s.client.sent| + |run|
    decreases |run|
  {
    if |run| > 0 {
      SentAtMost(Step(s, run[0]), run[1..]);
    }
  }

  /** The protocol: from a fresh view with no unexecuted command left over, in every run, the
      commands accepted are a prefix of those sent, include every one the client saw acknowledged,
      each exactly once, and exceed those by at most one; and the outputs are what executing just
      these in order gives. */
  lemma AcceptedIsPrefixOfSent(c: State, shown: uint32, oldCommands: set<Command>, oldAcks: set<uint32>,
                               run: seq<Event>)
    requires Wired(c.hardware) && OldCommands(c.seqNum, oldCommands) && OldAcks(c.seqNum, shown, oldAcks)
    requires Valid(Start(c, c.seqNum, shown, oldCommands, oldAcks), run) && |run| < HALF
    ensures var s := Run(Start(c, c.seqNum, shown, oldCommands, oldAcks), run);
      && s.accepted <= s.client.sent
      && s.client.acked <= |s.accepted| <= s.client.acked + 1
      && |s.client.sent| <= s.client.acked + 1
      && (forall j, k :: 0 <= j < k < |s.accepted| ==> s.accepted[j] != s.accepted[k])
      && s.controller.hardware == ExecutedAll(c.hardware, s.accepted)
  {
    StartInv(c, shown, oldCommands, oldAcks);
    var start := Start(c, c.seqNum, shown, oldCommands, oldAcks);
    RunKeepsInv(c.seqNum, c.hardware, start, run);
    SentAtMost(start, run);
    var s := Run(start, run);
    forall j, k | 0 <= j < k < |s.accepted|
      ensures s.accepted[j] != s.accepted[k]
    {
      assert s.accepted[j] == s.client.sent[j] && s.accepted[k] == s.client.sent[k];
      PlusInjective(c.seqNum, j + 1, k + 1);
    }
  }

  // ---------------------------------------------------------------- what an earlier client leaves

  /** Commands on their way when a session begins: old ones, and those numbered one above the
      controller, which a client that gave up leaves behind. */
  ghost predicate Leftovers(from: uint32, commands: set<Command>) {
    forall c :: c in commands ==> Old(from, c.seqNum) || c.seqNum == Next(from)
  }

  /** One of them is still to be carried out. */
  predicate HasLeftover(from: uint32, commands: set<Command>) {
    exists c :: c in commands && c.seqNum == Next(from)
  }

  lemma NextInjective(a: uint32, b: uint32)
    ensures Next(a) == Next(b) ==> a == b
    ensures Next(a) != a && Next(a) == Plus(a, 1) && Next(Next(a)) == Plus(a, 2)
    ensures Next(Next(a)) != a
  {
  }

  /** A command was acknowledged to the client although it was never carried out. */
  ghost predicate FalseAck(s: System) {
    exists k :: 0 <= k < s.client.acked && k < |s.client.sent| && s.client.sent[k] !in s.accepted
  }

  // ---------------------------------------------------------------- short runs

  lemma StepFirst(s: System, e: Event, rest: seq<Event>)
    requires Wired(s.controller.hardware) && Enabled(s, e) && Valid(Step(s, e), rest)
    ensures Valid(s, [e] + rest) && Run(s, [e] + rest) == Run(Step(s, e), rest)
  {
    assert ([e] + rest)[1..] == rest;
  }

  lemma RunOfTwo(s: System, a: Event, b: Event)
    requires Wired(s.controller.hardware) && Enabled(s, a) && Enabled(Step(s, a), b)
    ensures Valid(s, [a, b]) && Run(s, [a, b]) == Step(Step(s, a), b)
  {
    StepFirst(Step(s, a), b, []);
    StepFirst(s, a, [b] + []);
    assert [a] + ([b] + []) == [a, b];
  }

  lemma RunOfThree(s: System, a: Event, b: Event, c: Event)
    requires Wired(s.controller.hardware) && Enabled(s, a) && Enabled(Step(s, a), b) && Enabled(Step(Step(s, a), b), c)
    ensures Valid(s, [a, b, c]) && Run(s, [a, b, c]) == Step(Step(Step(s, a), b), c)
  {
    RunOfTwo(Step(s, a), b, c);
    StepFirst(s, a, [b, c]);
    assert [a] + [b, c] == [a, b, c];
  }

  // ---------------------------------------------------------------- how a client is fooled

  /** Telemetry shows the client's next number by now: two steps to a false acknowledgement. */
  lemma ShownNumberFools(c: State, view: uint32, shown: uint32, oldCommands: set<Command>, oldAcks: set<uint32>,
                         control: uint16, state: uint16)
      returns (run: seq<Event>)
    requires Wired(c.hardware) && Next(view) == shown
    ensures Valid(Start(c, view, shown, oldCommands, oldAcks), run) && |run| == 2
    ensures FalseAck(Run(Start(c, view, shown, oldCommands, oldAcks), run))
  {
    var s := Start(c, view, shown, oldCommands, oldAcks);
    run := [Send(control, state), Update];
    RunOfTwo(s, Send(control, state), Update);
    assert Run(s, run).client.sent[0] !in Run(s, run).accepted;
  }

  /** An old acknowledgement with the client's next number is on its way, as when the view is two
      behind and the acknowledgement between is late: three steps. */
  lemma LateAckFools(c: State, view: uint32, shown: uint32, oldCommands: set<Command>, oldAcks: set<uint32>,
                     control: uint16, state: uint16)
      returns (run: seq<Event>)
    requires Wired(c.hardware) && Next(view) in oldAcks
    ensures Valid(Start(c, view, shown, oldCommands, oldAcks), run) && |run| == 3
    ensures FalseAck(Run(Start(c, view, shown, oldCommands, oldAcks), run))
  {
    var s := Start(c, view, shown, oldCommands, oldAcks);
    run := [Send(control, state), AckArrives(Next(view)), Update];
    RunOfThree(s, Send(control, state), AckArrives(Next(view)), Update);
    assert Run(s, run).client.sent[0] !in Run(s, run).accepted;
  }

  /** The command of a client that is one behind arrives and is answered with its own number. */
  lemma OneBehindIsFooled(c: State, view: uint32, shown: uint32, oldCommands: set<Command>, oldAcks: set<uint32>,
                          control: uint16, state: uint16)
      returns (run: seq<Event>)
    requires Wired(c.hardware) && Next(view) == c.seqNum
    ensures Valid(Start(c, view, shown, oldCommands, oldAcks), run) && |run| == 4
    ensures FalseAck(Run(Start(c, view, shown, oldCommands, oldAcks), run))
  {
    var s := Start(c, view, shown, oldCommands, oldAcks);
    var x := Command(Next(view), control, state);
    var t := Step(s, Send(control, state));
    NextInjective(c.seqNum, c.seqNum);
    run := [Send(control, state)] + [CommandArrives(x), AckArrives(c.seqNum), Update];
    RunOfThree(t, CommandArrives(x), AckArrives(c.seqNum), Update);
    StepFirst(s, Send(control, state), [CommandArrives(x), AckArrives(c.seqNum), Update]);
    assert Run(s, run).client.sent[0] !in Run(s, run).accepted;
  }

  /** The view is fresh, but another command with the client's next number is on its way: it is
      carried out instead, and its acknowledgement is taken for the client's own. */
  lemma LeftoverFools(c: State, shown: uint32, oldCommands: set<Command>, oldAcks: set<uint32>, x: Command,
                      control: uint16, state: uint16)
      returns (run: seq<Event>)
    requires Wired(c.hardware) && x in oldCommands && x.seqNum == Next(c.seqNum)
    requires x != Command(Next(c.seqNum), control, state)
    ensures Valid(Start(c, c.seqNum, shown, oldCommands, oldAcks), run) && |run| == 4
    ensures FalseAck(Run(Start(c, c.seqNum, shown, oldCommands, oldAcks), run))
  {
    var s := Start(c, c.seqNum, shown, oldCommands, oldAcks);
    var t := Step(s, Send(control, state));
    run := [Send(control, state)] + [CommandArrives(x), AckArrives(x.seqNum), Update];
    RunOfThree(t, CommandArrives(x), AckArrives(x.seqNum), Update);
    StepFirst(s, Send(control, state), [CommandArrives(x), AckArrives(x.seqNum), Update]);
    assert Run(s, run).accepted == [x];
    assert Run(s, run).client.sent[0] !in Run(s, run).accepted;
  }

  /** A client that hears nothing gives up at its fifth timeout. */
  lemma {:induction false} KeepsTimingOut(s: System, n: nat) returns (run: seq<Event>)
    requires Wired(s.controller.hardware) && s.client.phase.Waiting? && 0 < n == NUM_RETRANSMITS - s.client.timeouts
    ensures Valid(s, run) && |run| == n
    ensures Run(s, run) == s.(client := s.client.(timeouts := NUM_RETRANSMITS, phase := Stopped))
    decreases n
  {
    var t, rest := Step(s, TimeOut), [];
    if n > 1 {
      rest := KeepsTimingOut(t, n - 1);
    }
    StepFirst(s, TimeOut, rest);
    run := [TimeOut] + rest;
  }

  /** It leaves its command on the way, with the number above the controller's. */
  lemma GivingUpLeavesCommand(c: State, shown: uint32, oldCommands: set<Command>, oldAcks: set<uint32>,
                              control: uint16, state: uint16)
      returns (run: seq<Event>)
    requires Wired(c.hardware)
    ensures Valid(Start(c, c.seqNum, shown, oldCommands, oldAcks), run) && |run| == 6
    ensures var s := Run(Start(c, c.seqNum, shown, oldCommands, oldAcks), run);
      && s.client.phase.Stopped? && s.controller == c && s.shown == shown && s.acks == oldAcks
      && s.wire == oldCommands + {Command(Next(c.seqNum), control, state)} && HasLeftover(c.seqNum, s.wire)
  {
    var s := Start(c, c.seqNum, shown, oldCommands, oldAcks);
    var rest := KeepsTimingOut(Step(s, Send(control, state)), NUM_RETRANSMITS);
    StepFirst(s, Send(control, state), rest);
    run := [Send(control, state)] + rest;
    assert Command(Next(c.seqNum), control, state) in Run(s, run).wire;
  }

  // ---------------------------------------------------------------- a client is answered

  /** Where the controller stands has been acknowledged, once it has accepted something. */
  predicate Answered(s: System) {
    |s.accepted| > 0 ==> s.controller.seqNum in s.acks
  }

  predicate OnWire(s: System) {
    forall k :: 0 <= k < |s.client.sent| ==> s.client.sent[k] in s.wire
  }

  lemma {:induction false} RunKeepsAnswered(s: System, run: seq<Event>)
    requires Wired(s.controller.hardware) && Valid(s, run) && Answered(s) && OnWire(s)
    ensures Answered(Run(s, run)) && OnWire(Run(s, run))
    decreases |run|
  {
    if |run| > 0 {
      RunKeepsAnswered(Step(s, run[0]), run[1..]);
    }
  }

  /** The client has been told of all its commands, and knows where the controller stands. */
  predicate AllTold(s: System) {
    s.client.phase.Ready? && s.client.acked == |s.client.sent| && s.client.view == s.controller.seqNum
  }

  /** When everything sent has been carried out, the acknowledgement that then arrives ends the wait. */
  lemma GenuineAckEndsWait(from: uint32, hardware: Hardware, s: System)
    requires Wired(hardware) && Wired(s.controller.hardware) && Inv(from, hardware, s) && Answered(s)
    requires s.client.phase.Waiting? && |s.accepted| == |s.client.sent|
    ensures var run := [AckArrives(s.controller.seqNum), Update];
      Valid(s, run) && AllTold(Run(s, run)) && Run(s, run).accepted == s.accepted == Run(s, run).client.sent
  {
    RunOfTwo(s, AckArrives(s.controller.seqNum), Update);
  }

  /** Under the hypotheses of the protocol a client that waits can always still be answered: by the
      acknowledgement, if its command has been carried out, and by the command and the
      acknowledgement, if it has not. Then everything it sent has been carried out. */
  lemma WaitCanEnd(c: State, shown: uint32, oldCommands: set<Command>, oldAcks: set<uint32>, run: seq<Event>)
      returns (more: seq<Event>)
    requires Wired(c.hardware) && OldCommands(c.seqNum, oldCommands) && OldAcks(c.seqNum, shown, oldAcks)
    requires Valid(Start(c, c.seqNum, shown, oldCommands, oldAcks), run) && |run| < HALF
    requires Run(Start(c, c.seqNum, shown, oldCommands, oldAcks), run).client.phase.Waiting?
    ensures var s := Run(Start(c, c.seqNum, shown, oldCommands, oldAcks), run);
      && Valid(s, more) && AllTold(Run(s, more))
      && Run(s, more).accepted == s.client.sent == Run(s, more).client.sent
      && |more| == if |s.accepted| == |s.client.sent| then 2 else 3
  {
    var start := Start(c, c.seqNum, shown, oldCommands, oldAcks);
    var s := Run(start, run);
    StartInv(c, shown, oldCommands, oldAcks);
    RunKeepsInv(c.seqNum, c.hardware, start, run);
    RunKeepsAnswered(start, run);
    SentAtMost(start, run);
    if |s.accepted| == |s.client.sent| {
      GenuineAckEndsWait(c.seqNum, c.hardware, s);
      more := [AckArrives(s.controller.seqNum), Update];
    } else {
      more := LateCommandIsAnswered(c.seqNum, c.hardware, s);
    }
  }

  /** The command that is waited for arrives after all. */
  lemma LateCommandIsAnswered(from: uint32, hardware: Hardware, s: System) returns (more: seq<Event>)
    requires Wired(hardware) && Wired(s.controller.hardware) && Inv(from, hardware, s) && OnWire(s)
    requires s.client.phase.Waiting? && |s.accepted| < |s.client.sent| < HALF
    ensures Valid(s, more) && |more| == 3 && AllTold(Run(s, more))
    ensures Run(s, more).accepted == s.client.sent == Run(s, more).client.sent
  {
    var x := s.client.sent[|s.accepted|];
    var t := Step(s, CommandArrives(x));
    PlusNext(from, |s.accepted|);
    assert t.accepted == s.accepted + [x] == s.client.sent;
    ArrivalKeepsInv(from, hardware, s, x);
    GenuineAckEndsWait(from, hardware, t);
    StepFirst(s, CommandArrives(x), [AckArrives(t.controller.seqNum), Update]);
    more := [CommandArrives(x)] + [AckArrives(t.controller.seqNum), Update];
  }

  /** What a program wants done. */
  datatype Order = Order(control: uint16, state: uint16)

  /** The commands it makes of that, numbered after `from`. */
  function Commands(from: uint32, orders: seq<Order>): seq<Command>
    decreases |orders|
  {
    if |orders| == 0 then []
    else [Command(Next(from), orders[0].control, orders[0].state)] + Commands(Next(from), orders[1..])
  }

  /** One command with nothing lost: four steps. */
  lemma Exchange(s: System, o: Order) returns (run: seq<Event>)
    requires Wired(s.controller.hardware) && AllTold(s)
    ensures var x := Command(Next(s.controller.seqNum), o.control, o.state);
      && Valid(s, run) && |run| == 4 && AllTold(Run(s, run)) && Run(s, run).client.sent == s.client.sent + [x]
      && Run(s, run).accepted == s.accepted + [x] && Run(s, run).controller == Received(s.controller, x)
      && Run(s, run).controller.seqNum == x.seqNum
  {
    var x := Command(Next(s.controller.seqNum), o.control, o.state);
    var t := Step(s, Send(o.control, o.state));
    RunOfThree(t, CommandArrives(x), AckArrives(x.seqNum), Update);
    StepFirst(s, Send(o.control, o.state), [CommandArrives(x), AckArrives(x.seqNum), Update]);
    run := [Send(o.control, o.state)] + [CommandArrives(x), AckArrives(x.seqNum), Update];
  }

  lemma {:induction false} RunConcat(s: System, a: seq<Event>, b: seq<Event>)
    requires Wired(s.controller.hardware) && Valid(s, a) && Valid(Run(s, a), b)
    ensures Valid(s, a + b) && Run(s, a + b) == Run(Run(s, a), b)
    decreases |a|
  {
    if |a| == 0 {
      assert a + b == b;
    } else {
      RunConcat(Step(s, a[0]), a[1..], b);
      assert (a + b)[1..] == a[1..] + b;
    }
  }

  lemma JoinCommands(a: seq<Command>, x: Command, b: seq<Command>)
    ensures (a + [x]) + b == a + ([x] + b)
  {
  }

  /** Whatever a client wants done, and whatever is left over from before: with a fresh view and
      nothing lost, all of it is carried out, in order, and the client is told so. */
  lemma {:induction false} NothingLost(s: System, orders: seq<Order>) returns (run: seq<Event>)
    requires Wired(s.controller.hardware) && AllTold(s)
    ensures Valid(s, run) && |run| == 4 * |orders| && AllTold(Run(s, run))
    ensures var cs := Commands(s.controller.seqNum, orders);
      Run(s, run).client.sent == s.client.sent + cs && Run(s, run).accepted == s.accepted + cs
    decreases |orders|
  {
    if |orders| == 0 {
      run := [];
      assert s.client.sent + [] == s.client.sent && s.accepted + [] == s.accepted;
    } else {
      var first := Exchange(s, orders[0]);
      var t := Run(s, first);
      var rest := NothingLost(t, orders[1..]);
      RunConcat(s, first, rest);
      run := first + rest;
      var x := Command(Next(s.controller.seqNum), orders[0].control, orders[0].state);
      var cs := Commands(t.controller.seqNum, orders[1..]);
      JoinCommands(s.client.sent, x, cs);
      JoinCommands(s.accepted, x, cs);
    }
  }

  // ---------------------------------------------------------------- a stale view

  /** The controller is where it was or has carried out one leftover, and no acknowledgement is
      there but old ones and the controller's word of where it stands. */
  ghost predicate Deaf(c: State, view: uint32, shown: uint32, oldAcks: set<uint32>, s: System) {
    && s.controller.seqNum in {c.seqNum, Next(c.seqNum)} && s.client.acked == 0
    && s.acks <= oldAcks + {c.seqNum, Next(c.seqNum)} && s.shown in oldAcks + {shown, c.seqNum, Next(c.seqNum)}
    && (forall x :: x in s.wire ==> x.seqNum == Next(view) || Old(c.seqNum, x.seqNum) || x.seqNum == Next(c.seqNum))
    && (s.client.phase.Ready? ==> s.client.view == view && s.client.sent == [])
    && (!s.client.phase.Ready? ==> |s.client.sent| == 1 && s.client.sent[0].seqNum == Next(view))
  }

  /** A view that is neither the controller's number nor one next to it, with the client's next
      number not acknowledged before. */
  predicate FarOff(c: State, view: uint32, shown: uint32, oldAcks: set<uint32>) {
    && view != c.seqNum && view != Next(c.seqNum) && Next(view) != c.seqNum
    && Next(view) != shown && Next(view) !in oldAcks
  }

  /** Such a client gets nowhere: its command is neither accepted nor acknowledged. */
  lemma StaysDeaf(c: State, view: uint32, shown: uint32, oldAcks: set<uint32>, s: System, e: Event)
    requires Wired(s.controller.hardware) && Deaf(c, view, shown, oldAcks, s) && Enabled(s, e)
    requires FarOff(c, view, shown, oldAcks)
    ensures Deaf(c, view, shown, oldAcks, Step(s, e))
  {
    NextInjective(view, c.seqNum);
    NextInjective(view, Next(c.seqNum));
    NextInjective(c.seqNum, c.seqNum);
    if e.CommandArrives? && Old(c.seqNum, e.c.seqNum) {
      OldIsNotNext(c.seqNum, e.c.seqNum, 1);
      OldIsNotNext(c.seqNum, e.c.seqNum, 2);
    }
  }

  lemma {:induction false} RunStaysDeaf(c: State, view: uint32, shown: uint32, oldAcks: set<uint32>, s: System,
                                        run: seq<Event>)
    requires Wired(s.controller.hardware) && Deaf(c, view, shown, oldAcks, s) && Valid(s, run)
    requires FarOff(c, view, shown, oldAcks)
    ensures Deaf(c, view, shown, oldAcks, Run(s, run))
    decreases |run|
  {
    if |run| > 0 {
      StaysDeaf(c, view, shown, oldAcks, s, run[0]);
      RunStaysDeaf(c, view, shown, oldAcks, Step(s, run[0]), run[1..]);
    }
  }

  // ---------------------------------------------------------------- a view one ahead

  /** A client whose view is one ahead, as long as nothing has been carried out. */
  ghost predicate Ahead(c: State, s: System) {
    && s.controller == c && s.accepted == [] && s.client.acked == 0
    && OldAcks(c.seqNum, s.shown, s.acks)
    && (forall x :: x in s.wire ==> x in s.client.sent || Old(c.seqNum, x.seqNum) || x.seqNum == Next(c.seqNum))
    && (s.client.phase.Ready? ==> s.client.view == Next(c.seqNum) && s.client.sent == [])
    && (!s.client.phase.Ready? ==> |s.client.sent| == 1 && s.client.sent[0].seqNum == Plus(c.seqNum, 2))
  }

  /** The same system, as if the client had sent `x` before and seen it acknowledged. */
  function Lifted(s: System, x: Command): System {
    s.(client := s.client.(sent := [x] + s.client.sent, acked := s.client.acked + 1))
  }

  predicate WaitsForSome(s: System) {
    s.client.phase.Waiting? ==> |s.client.sent| > 0
  }

  lemma LiftedStep(s: System, x: Command, e: Event)
    requires Wired(s.controller.hardware) && Enabled(s, e) && WaitsForSome(s)
    ensures Step(Lifted(s, x), e) == Lifted(Step(s, e), x) && WaitsForSome(Step(s, e))
  {
    if e.Send? {
      var c := Command(Next(s.client.view), e.control, e.state);
      assert [x] + s.client.sent + [c] == [x] + (s.client.sent + [c]);
    }
  }

  lemma {:induction false} LiftedRun(s: System, x: Command, run: seq<Event>)
    requires Wired(s.controller.hardware) && Valid(s, run) && WaitsForSome(s)
    ensures Valid(Lifted(s, x), run) && Run(Lifted(s, x), run) == Lifted(Run(s, run), x)
    decreases |run|
  {
    if |run| > 0 {
      LiftedStep(s, x, run[0]);
      LiftedRun(Step(s, run[0]), x, run[1..]);
    }
  }

  lemma LeftoverIsInStep(c: State, s: System, x: Command)
    requires Wired(c.hardware) && Ahead(c, s) && x in s.wire && Accepts(s.controller, x)
    ensures InStep(c.seqNum, c.hardware, Lifted(Step(s, CommandArrives(x)), x))
  {
    var t := Lifted(Step(s, CommandArrives(x)), x);
    FirstNumbers(c.seqNum);
    assert t.accepted == [x] && t.client.sent[0] == x;
    OneExecuted(c.hardware, x);
    if |s.client.sent| == 1 {
      assert t.client.sent == [x, s.client.sent[0]];
      TwoNumbered(c.seqNum, x, s.client.sent[0]);
    } else {
      assert t.client.sent == [x];
      assert Numbered(c.seqNum, [x]);
    }
  }

  lemma TwoNumbered(from: uint32, x: Command, y: Command)
    requires x.seqNum == Plus(from, 1) && y.seqNum == Plus(from, 2)
    ensures Numbered(from, [x, y])
  {
  }

  lemma FirstNumbers(from: uint32)
    ensures Next(from) == Plus(from, 1)
  {
  }

  lemma OneExecuted(h: Hardware, x: Command)
    requires Wired(h)
    ensures ExecutedAll(h, [x]) == Executed(h, x)
  {
    assert [x][..0] == [];
  }

  lemma LeftoverIsReached(c: State, s: System, x: Command)
    requires Wired(c.hardware) && Ahead(c, s) && x in s.wire && Accepts(s.controller, x)
    ensures var t := Lifted(Step(s, CommandArrives(x)), x);
      WireOk(c.seqNum, t) && AcksOk(c.seqNum, t)
  {
    forall a | Old(c.seqNum, a) || a == Next(c.seqNum)
      ensures Reached(c.seqNum, 1, a)
    {
      assert a == Next(c.seqNum) ==> a == Plus(c.seqNum, 1);
    }
  }

  /** With the leftover carried out, the controller is where such a client thinks it is. */
  lemma LeftoverCatchesUp(c: State, s: System, x: Command)
    requires Wired(c.hardware) && Ahead(c, s) && x in s.wire && Accepts(s.controller, x)
    ensures Inv(c.seqNum, c.hardware, Lifted(Step(s, CommandArrives(x)), x))
  {
    LeftoverIsInStep(c, s, x);
    LeftoverIsReached(c, s, x);
  }

  /** Until then it is neither obeyed nor answered. */
  lemma StaysAhead(c: State, s: System, e: Event)
    requires Wired(c.hardware) && Ahead(c, s) && Enabled(s, e)
    requires e.CommandArrives? ==> !Accepts(s.controller, e.c)
    ensures Ahead(c, Step(s, e))
  {
    NextInjective(c.seqNum, c.seqNum);
    assert Old(c.seqNum, Plus(c.seqNum, 0));
    if e.Update? && s.shown == Plus(c.seqNum, 2) {
      OldIsNotNext(c.seqNum, s.shown, 2);
    }
  }

  lemma {:induction false} AheadNotFooled(c: State, s: System, run: seq<Event>)
    requires Wired(c.hardware) && Ahead(c, s) && Valid(s, run) && |s.client.sent| + |run| < HALF
    ensures !FalseAck(Run(s, run))
    decreases |run|
  {
    if |run| > 0 {
      var e, rest := run[0], run[1..];
      if e.CommandArrives? && Accepts(s.controller, e.c) {
        var t := Step(s, e);
        LeftoverCatchesUp(c, s, e.c);
        LiftedRun(t, e.c, rest);
        RunKeepsInv(c.seqNum, c.hardware, Lifted(t, e.c), rest);
        LiftedNotFooled(c.seqNum, c.hardware, Run(t, rest), e.c);
      } else {
        StaysAhead(c, s, e);
        AheadNotFooled(c, Step(s, e), rest);
      }
    }
  }

  lemma LiftedNotFooled(from: uint32, hardware: Hardware, s: System, x: Command)
    requires Wired(hardware) && Inv(from, hardware, Lifted(s, x))
    ensures !FalseAck(s)
  {
    var t := Lifted(s, x);
    forall k | 0 <= k < s.client.acked && k < |s.client.sent|
      ensures s.client.sent[k] in s.accepted
    {
      assert t.accepted[k + 1] == t.client.sent[k + 1] == s.client.sent[k];
    }
  }

  // ---------------------------------------------------------------- exactly when

  ghost predicate CanBeFooled(c: State, view: uint32, shown: uint32, oldCommands: set<Command>, oldAcks: set<uint32>)
    requires Wired(c.hardware)
  {
    exists run :: |run| < HALF && Valid(Start(c, view, shown, oldCommands, oldAcks), run)
                  && FalseAck(Run(Start(c, view, shown, oldCommands, oldAcks), run))
  }

  /** The client's next number is acknowledged already, or will be for another command. */
  predicate NextNumberTaken(c: State, view: uint32, shown: uint32, oldCommands: set<Command>, oldAcks: set<uint32>) {
    || Next(view) == c.seqNum || Next(view) == shown || Next(view) in oldAcks
    || (view == c.seqNum && HasLeftover(c.seqNum, oldCommands))
  }

  /** A client can be told of a command that was never carried out exactly when its view is one
      number behind the controller - as after one command sent by somebody else, where the source
      expects the acknowledgement to fail -, its next number is shown by now or still on its way
      in an old acknowledgement, or its view is fresh and a command with its next number is left
      over from a client that gave up. */
  lemma FooledExactlyWhen(c: State, view: uint32, shown: uint32, oldCommands: set<Command>, oldAcks: set<uint32>)
    requires Wired(c.hardware) && Leftovers(c.seqNum, oldCommands) && OldAcks(c.seqNum, shown, oldAcks)
    ensures CanBeFooled(c, view, shown, oldCommands, oldAcks) <==> NextNumberTaken(c, view, shown, oldCommands, oldAcks)
  {
    if NextNumberTaken(c, view, shown, oldCommands, oldAcks) {
      TakenIsFooled(c, view, shown, oldCommands, oldAcks);
    } else {
      forall run | |run| < HALF && Valid(Start(c, view, shown, oldCommands, oldAcks), run)
        ensures !FalseAck(Run(Start(c, view, shown, oldCommands, oldAcks), run))
      {
        NotFooled(c, view, shown, oldCommands, oldAcks, run);
      }
    }
  }

  lemma TakenIsFooled(c: State, view: uint32, shown: uint32, oldCommands: set<Command>, oldAcks: set<uint32>)
    requires Wired(c.hardware) && NextNumberTaken(c, view, shown, oldCommands, oldAcks)
    ensures CanBeFooled(c, view, shown, oldCommands, oldAcks)
  {
    if Next(view) == c.seqNum {
      var run := OneBehindIsFooled(c, view, shown, oldCommands, oldAcks, 100, 1);
    } else if Next(view) == shown {
      var run := ShownNumberFools(c, view, shown, oldCommands, oldAcks, 100, 1);
    } else if Next(view) in oldAcks {
      var run := LateAckFools(c, view, shown, oldCommands, oldAcks, 100, 1);
    } else {
      var x :| x in oldCommands && x.seqNum == Next(c.seqNum);
      var run := LeftoverFools(c, shown, oldCommands, oldAcks, x, 100, if x.state == 1 then 0 else 1);
    }
  }

  lemma NotFooled(c: State, view: uint32, shown: uint32, oldCommands: set<Command>, oldAcks: set<uint32>,
                  run: seq<Event>)
    requires Wired(c.hardware) && Leftovers(c.seqNum, oldCommands) && OldAcks(c.seqNum, shown, oldAcks)
    requires !NextNumberTaken(c, view, shown, oldCommands, oldAcks)
    requires |run| < HALF && Valid(Start(c, view, shown, oldCommands, oldAcks), run)
    ensures !FalseAck(Run(Start(c, view, shown, oldCommands, oldAcks), run))
  {
    var start := Start(c, view, shown, oldCommands, oldAcks);
    if view == c.seqNum {
      AcceptedIsPrefixOfSent(c, shown, oldCommands, oldAcks, run);
      var s := Run(start, run);
      forall k | 0 <= k < s.client.acked && k < |s.client.sent|
        ensures s.client.sent[k] in s.accepted
      {
        assert s.accepted[k] == s.client.sent[k];
      }
    } else if view == Next(c.seqNum) {
      AheadNotFooled(c, start, run);
    } else {
      RunStaysDeaf(c, view, shown, oldAcks, start, run);
    }
  }
}
