/** The telemetry shared memory as a step system.

    Any number of processes run `TelemetryViewer::update` cycles, `TelemetryWriter` sessions
    (lock, write, flush, unlock) and direct `TelemetryShm::write` and `clear` calls. One step
    is one semaphore operation, one counter update or test, one byte copied into a packet,
    one packet copied out, or one futex call. */
module Protocol {
  import opened Bytes
  import opened Layout
  import opened History
  import opened Caches

  datatype Mode = Standard | Blocking | NonBlocking

  datatype Return = ToIdle | ToFlush(k: nat)

  /** A call of `write` (or of `clear`, which wakes nobody). */
  datatype Job = Job(packet: nat, data: seq<byte>, wakes: bool, ret: Return)

  /** Where a call of `write` or `clear` stands. */
  datatype WStage =
    | EnterMutex | CountIn | TestFirst | TakeTry | LeaveMutex | TakeResource
    | Copy(done: nat) | Bump | Stamp | Wake | GiveResource
    | ReenterMutex | CountOut | TestLast | GiveTry | ExitMutex

  /** Where one pass of the `read_lock` loop stands. */
  datatype RStage = RTakeTry | RTakeMutex | RCountIn | RTestFirst | RTakeResource | RLeaveMutex | RGiveTry | RCheck

  /** Where a call of `read_unlock` stands, and what follows it. */
  datatype UStage = UTakeMutex | UCountOut | UTestLast | UGiveResource | ULeaveMutex
  datatype Afterwards = Finish | Sleep | GiveUp

  datatype Pc =
    | Idle | Adding(k: nat)
    | W(w: WStage, job: Job)
    | R(r: RStage) | Copying(next: nat) | U(u: UStage, after: Afterwards)
    | FutexCall | Asleep | Recheck
    | LockTake(k: nat) | LockLoad(k: nat) | Hold | Flush(k: nat) | FlushDone(k: nat) | Unlock(k: nat)

  datatype Outcome = NoOutcome | Success | Blocked | TimedOut | Interrupted | Failed

  /** One process: its `TelemetryShm`, a viewer and a writer over it. `seen`, `synced`,
      `usedList`, `pending`, `written` and `ticket` are history: the log length when each nonce
      was last refreshed and when the last update succeeded, whether the listed `read_lock` was
      ever used, the edits of this session not yet committed, the last bytes written to each
      measurement and the number of the session. */
  datatype Proc = Proc(
    pc: Pc, mode: Mode, outcome: Outcome,
    view: View, checkAll: bool, ids: seq<nat>, buffers: seq<seq<byte>>,
    drafts: Drafts,
    seen: seq<nat>, synced: nat, usedList: bool,
    pending: seq<seq<Edit>>, written: map<nat, seq<byte>>, ticket: nat)

  /** The shared blocks. `log` and `tickets` are history. */
  datatype Memory = Memory(
    wmutex: nat, rmutex: nat, readTry: nat, resource: nat, writers: int, readers: int,
    nonce: nat, nonces: seq<nat>, packets: seq<seq<byte>>, locks: seq<nat>,
    log: seq<Commit>, tickets: nat)

  datatype State = State(mem: Memory, procs: seq<Proc>)

  datatype Choice =
    | Tick
    | Add(id: nat) | AddAll | Update(mode: Mode)
    | Direct(packet: nat, data: seq<byte>) | Clear(packet: nat, value: byte)
    | Session | WriteMeas(m: nat, data: seq<byte>) | FlushAll | EndSession
    | Expire

  datatype Event = Event(pid: nat, choice: Choice)

  // ---------------------------------------------------------------- shapes

  predicate SameSizes(v: Vehicle, bs: seq<seq<byte>>) {
    |bs| == |v.packets| && forall i :: 0 <= i < |bs| ==> |bs[i]| == v.packets[i].size
  }

  predicate ShapedJob(v: Vehicle, j: Job) {
    && j.packet < |v.packets| && |j.data| == v.packets[j.packet].size
    && (j.ret.ToFlush? ==> j.ret.k == j.packet)
  }

  predicate ShapedPc(v: Vehicle, p: Proc) {
    match p.pc
    case W(w, j) => ShapedJob(v, j) && (w.Copy? ==> w.done <= |j.data|)
    case Copying(k) => k <= |p.ids|
    case Adding(k) => k <= |v.packets|
    case LockTake(k) => k <= |v.packets|
    case LockLoad(k) => Lockable(v, k)
    case Flush(k) => k <= |v.packets|
    case FlushDone(k) => k < |v.packets|
    case Unlock(k) => k <= |v.packets|
    case _ => true
  }

  predicate Shaped1(v: Vehicle, p: Proc) {
    && ShapedPc(v, p)
    && Sized(p.view, |v.packets|)
    && |p.seen| == |p.pending| == |p.drafts.dirty| == |v.packets|
    && SameSizes(v, p.drafts.buffers)
    && |p.buffers| == |v.packets|
    && (forall k :: 0 <= k < |p.ids| ==> p.ids[k] < |v.packets|)
  }

  predicate ShapedMem(v: Vehicle, m: Memory) {
    |m.nonces| == |m.locks| == |v.packets| && SameSizes(v, m.packets)
  }

  ghost predicate Shaped(v: Vehicle, s: State) {
    && ShapedMem(v, s.mem)
    && (forall q :: 0 <= q < |s.procs| ==> Shaped1(v, s.procs[q]))
  }

  // ---------------------------------------------------------------- enabled steps

  /** Whether the next action of a process that is inside a call can be taken: a wait on a
      semaphore needs a positive value, everything else can always go on. */
  predicate Ready(v: Vehicle, m: Memory, p: Proc) {
    match p.pc
    case Idle => false
    case Hold => false
    case Asleep => false
    case W(w, _) => WriteReady(m, w)
    case R(r) => ReadReady(m, r)
    case U(u, _) => u.UTakeMutex? ==> m.rmutex > 0
    case LockTake(k) => Lockable(v, k) && k < |m.locks| ==> m.locks[k] > 0
    case _ => true
  }

  predicate ReadReady(m: Memory, r: RStage) {
    && (r.RTakeTry? ==> m.readTry > 0)
    && (r.RTakeMutex? ==> m.rmutex > 0)
    && (r.RTakeResource? ==> m.resource > 0)
  }

  predicate WriteReady(m: Memory, w: WStage) {
    && (w.EnterMutex? || w.ReenterMutex? ==> m.wmutex > 0)
    && (w.TakeTry? ==> m.readTry > 0)
    && (w.TakeResource? ==> m.resource > 0)
  }

  predicate Allowed(v: Vehicle, m: Memory, p: Proc, c: Choice) {
    match c
    case Tick => Ready(v, m, p)
    case Expire => p.pc.Asleep?
    case WriteMeas(i, data) => p.pc.Hold? && i < |v.measurements| && |data| == v.measurements[i].size
    case FlushAll => p.pc.Hold?
    case EndSession => p.pc.Hold?
    case Direct(i, data) => p.pc.Idle? && i < |v.packets| && !v.packets[i].isVirtual && |data| == v.packets[i].size
    case Clear(i, _) => p.pc.Idle? && i < |v.packets| && !v.packets[i].isVirtual
    case Add(i) => p.pc.Idle? && i < |v.packets|
    case _ => p.pc.Idle?
  }

  predicate Enabled(v: Vehicle, s: State, e: Event) {
    e.pid < |s.procs| && Allowed(v, s.mem, s.procs[e.pid], e.choice)
  }

  // ---------------------------------------------------------------- steps of one process

  /** Copying bytes into a packet or changing nonces, up to giving `resource` back. */
  predicate InWrite(pc: Pc) {
    pc.W? && (pc.w.Copy? || pc.w.Bump? || pc.w.Stamp? || pc.w.Wake? || pc.w.GiveResource?)
  }

  /** Between having the read lock and counting itself out again. */
  predicate InRead(pc: Pc) {
    || (pc.R? && (pc.r.RLeaveMutex? || pc.r.RGiveTry? || pc.r.RCheck?))
    || pc.Copying?
    || (pc.U? && (pc.u.UTakeMutex? || pc.u.UCountOut?))
  }

  /** The packets, their nonces and the history are the same. */
  predicate SameData(m: Memory, m': Memory) {
    m'.nonce == m.nonce && m'.nonces == m.nonces && m'.packets == m.packets && m'.log == m.log
  }

  predicate SameSemaphores(m: Memory, m': Memory) {
    && m'.wmutex == m.wmutex && m'.rmutex == m.rmutex && m'.readTry == m.readTry && m'.resource == m.resource
    && m'.writers == m.writers && m'.readers == m.readers
  }

  predicate SameLocks(m: Memory, m': Memory) {
    m'.locks == m.locks && m'.tickets == m.tickets
  }

  datatype Local = Local(mem: Memory, proc: Proc)

  predicate ShapedLocal(v: Vehicle, l: Local) {
    ShapedMem(v, l.mem) && Shaped1(v, l.proc)
  }

  predicate Entering(w: WStage) {
    w.EnterMutex? || w.CountIn? || w.TestFirst? || w.TakeTry? || w.LeaveMutex? || w.TakeResource?
  }

  predicate Leaving(w: WStage) {
    w.ReenterMutex? || w.CountOut? || w.TestLast? || w.GiveTry? || w.ExitMutex?
  }

  /** A writer on its way in. */
  function EnterWrite(v: Vehicle, m: Memory, p: Proc): (l: Local)
    requires ShapedMem(v, m) && Shaped1(v, p) && Ready(v, m, p) && p.pc.W? && Entering(p.pc.w)
    ensures ShapedLocal(v, l)
    ensures InWrite(l.proc.pc) ==> l.proc.pc.w == Copy(0)
    ensures SameData(m, l.mem) && SameLocks(m, l.mem) && l.mem.readers == m.readers
    ensures l.proc == p.(pc := l.proc.pc) && l.proc.pc.W? && WriteMoves(p.pc, l.proc.pc)
  {
    var j := p.pc.job;
    match p.pc.w
    case EnterMutex => Local(m.(wmutex := m.wmutex - 1), p.(pc := W(CountIn, j)))
    case CountIn => Local(m.(writers := m.writers + 1), p.(pc := W(TestFirst, j)))
    case TestFirst => Local(m, p.(pc := W(if m.writers == 1 then TakeTry else LeaveMutex, j)))
    case TakeTry => Local(m.(readTry := m.readTry - 1), p.(pc := W(LeaveMutex, j)))
    case LeaveMutex => Local(m.(wmutex := m.wmutex + 1), p.(pc := W(TakeResource, j)))
    case TakeResource => Local(m.(resource := m.resource - 1), p.(pc := W(Copy(0), j)))
  }

  /** What a write commits, and the edits of its session it carries. */
  function CommitOf(p: Proc, j: Job): Commit
    requires j.packet < |p.pending|
  {
    if j.ret.ToFlush? then Commit(j.packet, j.data, j.wakes, p.pending[j.packet], p.ticket)
    else Commit(j.packet, j.data, j.wakes, [], 0)
  }

  /** A writer that holds `resource`. */
  function HoldWrite(v: Vehicle, m: Memory, p: Proc): (l: Local)
    requires ShapedMem(v, m) && Shaped1(v, p) && Ready(v, m, p)
    requires InWrite(p.pc)
    ensures ShapedLocal(v, l)
    ensures l.proc == p.(pc := l.proc.pc, pending := l.proc.pending) && WriteMoves(p.pc, l.proc.pc)
    ensures l.mem.log == if p.pc.w.Bump? then m.log + [CommitOf(p, p.pc.job)] else m.log
    ensures SameLocks(m, l.mem) && l.mem.readers == m.readers
  {
    var j := p.pc.job;
    match p.pc.w
    case Copy(done) =>
      if done < |j.data| then
        Local(m.(packets := m.packets[j.packet := m.packets[j.packet][done := j.data[done]]]),
              p.(pc := W(Copy(done + 1), j)))
      else Local(m, p.(pc := W(Bump, j)))
    case Bump =>
      Local(m.(nonce := m.nonce + 1, log := m.log + [CommitOf(p, j)]),
            p.(pc := W(Stamp, j), pending := if j.ret.ToFlush? then p.pending[j.packet := []] else p.pending))
    case Stamp => Local(m.(nonces := m.nonces[j.packet := m.nonce]), p.(pc := W(Wake, j)))
    case Wake => Local(m, p.(pc := W(GiveResource, j)))
    case GiveResource => Local(m.(resource := m.resource + 1), p.(pc := W(ReenterMutex, j)))
  }

  /** Where a write that starts at `pc` can be one step later. */
  predicate WriteMoves(pc: Pc, pc': Pc) {
    pc.W? && (
      || (pc'.W? && pc'.job == pc.job)
      || (pc'.Idle? && pc.job.ret.ToIdle? && pc.w.ExitMutex?)
      || (pc.job.ret.ToFlush? && pc' == FlushDone(pc.job.ret.k) && pc.w.ExitMutex?))
  }

  /** A writer on its way out. */
  function LeaveWrite(v: Vehicle, m: Memory, p: Proc): (l: Local)
    requires ShapedMem(v, m) && Shaped1(v, p) && Ready(v, m, p) && p.pc.W? && Leaving(p.pc.w)
    ensures ShapedLocal(v, l)
    ensures WriteMoves(p.pc, l.proc.pc)
    ensures !InWrite(l.proc.pc)
    ensures SameData(m, l.mem) && SameLocks(m, l.mem) && l.mem.readers == m.readers
    ensures l.proc == p.(pc := l.proc.pc)
  {
    var j := p.pc.job;
    match p.pc.w
    case ReenterMutex => Local(m.(wmutex := m.wmutex - 1), p.(pc := W(CountOut, j)))
    case CountOut => Local(m.(writers := m.writers - 1), p.(pc := W(TestLast, j)))
    case TestLast => Local(m, p.(pc := W(if m.writers == 0 then GiveTry else ExitMutex, j)))
    case GiveTry => Local(m.(readTry := m.readTry + 1), p.(pc := W(ExitMutex, j)))
    case ExitMutex =>
      Local(m.(wmutex := m.wmutex + 1), p.(pc := match j.ret case ToIdle => Idle case ToFlush(k) => FlushDone(k)))
  }

  /** `TelemetryShm::write` and `clear`. */
  function WriteStep(v: Vehicle, m: Memory, p: Proc): (l: Local)
    requires ShapedMem(v, m) && Shaped1(v, p) && Ready(v, m, p) && p.pc.W?
    ensures ShapedLocal(v, l)
    ensures SameLocks(m, l.mem)
    ensures l.proc == p.(pc := l.proc.pc, pending := l.proc.pending)
    ensures WriteMoves(p.pc, l.proc.pc)
    ensures l.mem.log == if p.pc.w.Bump? then m.log + [CommitOf(p, p.pc.job)] else m.log
  {
    if Entering(p.pc.w) then EnterWrite(v, m, p)
    else if Leaving(p.pc.w) then LeaveWrite(v, m, p)
    else HoldWrite(v, m, p)
  }

  /** What one pass of `read_lock` decides once it is inside. */
  function CheckStep(v: Vehicle, m: Memory, p: Proc): (p': Proc)
    requires ShapedMem(v, m) && Shaped1(v, p)
    ensures Shaped1(v, p')
    ensures p'.pc == Copying(0) || p'.pc == U(UTakeMutex, Sleep) || p'.pc == U(UTakeMutex, GiveUp)
  {
    var wait := p.(pc := U(UTakeMutex, if p.mode.Blocking? then Sleep else GiveUp));
    if p.checkAll then
      if !p.mode.Standard? && p.view.lastNonce == m.nonce then wait
      else p.(pc := Copying(0), view := RefreshAll(p.view, m.nonce, m.nonces),
              seen := seq(|p.seen|, _ => |m.log|), synced := |m.log|)
    else
      var view := RefreshListed(p.view, p.ids, m.nonce, m.nonces);
      if !p.mode.Standard? && !AnyChanged(p.view, p.ids, m.nonces) then wait.(view := view, usedList := true)
      else p.(pc := Copying(0), view := view, usedList := true,
              seen := seq(|p.seen|, i requires 0 <= i < |p.seen| => if i in p.ids then |m.log| else p.seen[i]),
              synced := |m.log|)
  }

  /** One pass of the `read_lock` loop. */
  function EnterRead(v: Vehicle, m: Memory, p: Proc): (l: Local)
    requires ShapedMem(v, m) && Shaped1(v, p) && Ready(v, m, p) && p.pc.R?
    ensures ShapedLocal(v, l)
    ensures l.proc.ticket == p.ticket
    ensures l.proc.pc.R? || l.proc.pc.Copying? || l.proc.pc.U?
    ensures !InWrite(l.proc.pc)
    ensures SameData(m, l.mem) && SameLocks(m, l.mem) && (l.mem.readers != m.readers ==> p.pc.r.RCountIn?)
    ensures l.proc == if p.pc.r.RCheck? then CheckStep(v, m, p) else p.(pc := l.proc.pc)
  {
    match p.pc.r
    case RTakeTry => Local(m.(readTry := m.readTry - 1), p.(pc := R(RTakeMutex)))
    case RTakeMutex => Local(m.(rmutex := m.rmutex - 1), p.(pc := R(RCountIn)))
    case RCountIn => Local(m.(readers := m.readers + 1), p.(pc := R(RTestFirst)))
    case RTestFirst => Local(m, p.(pc := R(if m.readers == 1 then RTakeResource else RLeaveMutex)))
    case RTakeResource => Local(m.(resource := m.resource - 1), p.(pc := R(RLeaveMutex)))
    case RLeaveMutex => Local(m.(rmutex := m.rmutex + 1), p.(pc := R(RGiveTry)))
    case RGiveTry => Local(m.(readTry := m.readTry + 1), p.(pc := R(RCheck)))
    case RCheck => Local(m, CheckStep(v, m, p))
  }

  /** `read_unlock`. */
  function LeaveRead(v: Vehicle, m: Memory, p: Proc): (l: Local)
    requires ShapedMem(v, m) && Shaped1(v, p) && Ready(v, m, p) && p.pc.U?
    ensures ShapedLocal(v, l)
    ensures l.proc.pc.U? || l.proc.pc.Idle? || l.proc.pc.FutexCall?
    ensures !InWrite(l.proc.pc)
    ensures SameData(m, l.mem) && SameLocks(m, l.mem) && l.mem.readers <= m.readers
    ensures l.proc == p.(pc := l.proc.pc, outcome := l.proc.outcome)
  {
    var a := p.pc.after;
    match p.pc.u
    case UTakeMutex => Local(m.(rmutex := m.rmutex - 1), p.(pc := U(UCountOut, a)))
    case UCountOut => Local(m.(readers := m.readers - 1), p.(pc := U(UTestLast, a)))
    case UTestLast => Local(m, p.(pc := U(if m.readers == 0 then UGiveResource else ULeaveMutex, a)))
    case UGiveResource => Local(m.(resource := m.resource + 1), p.(pc := U(ULeaveMutex, a)))
    case ULeaveMutex => Local(m.(rmutex := m.rmutex + 1), Unlocked(p, a))
  }

  /** What the process does after `read_unlock`. */
  function Unlocked(p: Proc, a: Afterwards): Proc {
    match a
    case Finish => p.(pc := Idle, outcome := Success)
    case GiveUp => p.(pc := Idle, outcome := Blocked)
    case Sleep => p.(pc := FutexCall)
  }

  /** `TelemetryViewer::add(packet_id)`. */
  function Track(v: Vehicle, p: Proc, id: nat): (p': Proc)
    requires Shaped1(v, p) && !p.pc.Copying? && id < |v.packets|
    ensures Shaped1(v, p') && p'.pc == p.pc
  {
    if id in p.ids then p
    else p.(ids := p.ids + [id], buffers := p.buffers[id := Zeros(v.packets[id].size)])
  }

  /** The loops of `TelemetryViewer::add_all` and `update`, and the futex wait of `read_lock`.
      A futex wait on no bits at all is refused by the kernel. */
  function ViewStep(v: Vehicle, m: Memory, p: Proc): (l: Local)
    requires ShapedMem(v, m) && Shaped1(v, p) && (p.pc.Adding? || p.pc.Copying? || p.pc.FutexCall? || p.pc.Recheck?)
    ensures ShapedLocal(v, l) && l.mem == m
    ensures l.proc.ticket == p.ticket
    ensures l.proc.pc.Asleep? ==> p.pc.FutexCall? && m.nonce == l.proc.view.lastNonce
    ensures !InWrite(l.proc.pc)
  {
    match p.pc
    case Adding(k) =>
      Local(m, if k == |v.packets| then p.(pc := Idle) else Track(v, p, k).(pc := Adding(k + 1)))
    case Copying(k) =>
      if k == |p.ids| then Local(m, p.(pc := U(UTakeMutex, Finish)))
      else if p.view.updated[p.ids[k]] then
        Local(m, p.(pc := Copying(k + 1), buffers := p.buffers[p.ids[k] := m.packets[p.ids[k]]]))
      else Local(m, p.(pc := Copying(k + 1)))
    case FutexCall =>
      if !p.checkAll && |p.ids| == 0 then Local(m, p.(pc := Idle, outcome := Failed))
      else Local(m, p.(pc := if m.nonce == p.view.lastNonce then Asleep else Recheck))
    case Recheck => Local(m, if m.nonce == 0 then p.(pc := Idle, outcome := Interrupted) else p.(pc := R(RTakeTry)))
  }

  predicate InSession(pc: Pc) {
    pc.LockTake? || pc.LockLoad? || pc.Flush? || pc.FlushDone? || pc.Unlock?
  }

  /** `TelemetryWriter::lock`, `flush` and `unlock`. */
  function SessionStep(v: Vehicle, m: Memory, p: Proc): (l: Local)
    requires ShapedMem(v, m) && Shaped1(v, p) && Ready(v, m, p)
    requires InSession(p.pc)
    ensures ShapedLocal(v, l)
    ensures l.mem.tickets >= m.tickets
    ensures l.proc == p.(pc := l.proc.pc, drafts := l.proc.drafts, pending := l.proc.pending, ticket := l.proc.ticket)
    ensures !InWrite(l.proc.pc)
    ensures SameData(m, l.mem) && SameSemaphores(m, l.mem)
    ensures InSession(l.proc.pc) || l.proc.pc.Idle? || l.proc.pc.Hold? || (l.proc.pc.W? && l.proc.pc.w.EnterMutex?)
  {
    match p.pc
    case LockTake(k) =>
      if k == |v.packets| then Local(m.(tickets := m.tickets + 1), p.(pc := Hold, ticket := m.tickets))
      else if Lockable(v, k) then Local(m.(locks := m.locks[k := m.locks[k] - 1]), p.(pc := LockLoad(k)))
      else Local(m, p.(pc := LockTake(k + 1)))
    case LockLoad(k) =>
      Local(m, p.(pc := LockTake(k + 1), pending := p.pending[k := []],
                  drafts := p.drafts.(buffers := p.drafts.buffers[k := m.packets[k]])))
    case Flush(k) =>
      if k == |v.packets| then Local(m, p.(pc := Hold))
      else if p.drafts.dirty[k] then Local(m, p.(pc := W(EnterMutex, Job(k, p.drafts.buffers[k], true, ToFlush(k)))))
      else Local(m, p.(pc := Flush(k + 1)))
    case FlushDone(k) =>
      Local(m, p.(pc := Flush(k + 1), drafts := p.drafts.(dirty := p.drafts.dirty[k := false])))
    case Unlock(k) =>
      if k == |v.packets| then Local(m, p.(pc := Idle))
      else if Lockable(v, k) then Local(m.(locks := m.locks[k := m.locks[k] + 1]), p.(pc := Unlock(k + 1)))
      else Local(m, p.(pc := Unlock(k + 1)))
  }

  /** What a process does when it is free to choose. */
  function ChoiceStep(v: Vehicle, m: Memory, p: Proc, c: Choice): (l: Local)
    requires WellLaid(v) && ShapedMem(v, m) && Shaped1(v, p) && Allowed(v, m, p, c) && !c.Tick?
    ensures ShapedLocal(v, l) && l.mem == m
    ensures l.proc.ticket == p.ticket
    ensures !InWrite(l.proc.pc)
    ensures var pc := l.proc.pc;
      pc.Idle? || pc.Adding? || pc == R(RTakeTry) || (pc.W? && pc.w.EnterMutex?) || InSession(pc) || pc.Hold?
  {
    match c
    case Add(i) => Local(m, Track(v, p.(outcome := NoOutcome), i))
    case AddAll => Local(m, p.(pc := Adding(0), outcome := NoOutcome, checkAll := true))
    case Update(mode) => Local(m, p.(pc := R(RTakeTry), mode := mode, outcome := NoOutcome, view := ClearFlags(p.view)))
    case Expire => Local(m, p.(pc := Idle, outcome := TimedOut))
    case Direct(i, data) => Local(m, p.(pc := W(EnterMutex, Job(i, data, true, ToIdle)), outcome := NoOutcome))
    case Clear(i, x) =>
      var data := seq(v.packets[i].size, _ => x);
      Local(m, p.(pc := W(EnterMutex, Job(i, data, false, ToIdle)), outcome := NoOutcome))
    case Session => Local(m, p.(pc := LockTake(0), outcome := NoOutcome, written := map[]))
    case FlushAll => Local(m, p.(pc := Flush(0)))
    case EndSession => Local(m, p.(pc := Unlock(0)))
    case WriteMeas(i, data) =>
      var meas := v.measurements[i];
      var bytes := Ordered(meas, data);
      LocationsFit(v, i, p.drafts);
      Local(m, p.(drafts := WriteAt(v, meas.locations, bytes, p.drafts),
                  pending := RecordAt(v, meas.locations, bytes, p.pending),
                  written := p.written[i := bytes]))
  }

  lemma LocationsFit(v: Vehicle, i: nat, d: Drafts)
    requires WellLaid(v) && i < |v.measurements|
    requires SameSizes(v, d.buffers) && |d.dirty| == |v.packets|
    ensures Fits(v, v.measurements[i].locations, v.measurements[i].size, d)
  {
    var locs := v.measurements[i].locations;
    forall k | 0 <= k < |locs|
      ensures locs[k].packet < |v.packets| && locs[k].offset + v.measurements[i].size <= |d.buffers[locs[k].packet]|
    {
      assert Stored(v, i, k);
    }
  }

  function LocalStep(v: Vehicle, m: Memory, p: Proc, c: Choice): (l: Local)
    requires WellLaid(v) && ShapedMem(v, m) && Shaped1(v, p) && Allowed(v, m, p, c)
    ensures ShapedLocal(v, l)
    ensures l.mem.log == if c.Tick? && p.pc.W? && p.pc.w.Bump? then m.log + [CommitOf(p, p.pc.job)] else m.log
    ensures l.mem.tickets >= m.tickets
    ensures !(c.Tick? && InSession(p.pc)) ==> SameLocks(m, l.mem) && l.proc.ticket == p.ticket
    ensures l.proc.pc.Asleep? ==> !InWrite(p.pc) && m.nonce == l.proc.view.lastNonce
    ensures !c.Tick? || !InWrite(p.pc) ==> SameData(m, l.mem) && (InWrite(l.proc.pc) ==> l.proc.pc.w == Copy(0))
    ensures l.mem.readers > m.readers ==> p.pc == R(RCountIn)
  {
    if !c.Tick? then ChoiceStep(v, m, p, c)
    else if p.pc.W? then WriteStep(v, m, p)
    else if InSession(p.pc) then SessionStep(v, m, p)
    else if p.pc.R? then EnterRead(v, m, p)
    else if p.pc.U? then LeaveRead(v, m, p)
    else ViewStep(v, m, p)
  }

  // ---------------------------------------------------------------- steps of the system

  /** Whether a sleeper waits on the futex bit that a write of `packet` wakes. The
      all-packets form waits on every bit; the listed form sets one bit per list index. */
  predicate Covers(p: Proc, packet: nat) {
    p.checkAll || packet % 32 < |p.ids|
  }

  /** The futex wake of a write of `packet`. */
  function WakeUp(procs: seq<Proc>, packet: nat): (r: seq<Proc>)
    ensures |r| == |procs|
    ensures forall q :: 0 <= q < |r| ==> !(r[q].pc.Asleep? && Covers(r[q], packet))
  {
    seq(|procs|, q requires 0 <= q < |procs| =>
      if procs[q].pc.Asleep? && Covers(procs[q], packet) then procs[q].(pc := Recheck) else procs[q])
  }

  predicate Waking(p: Proc, c: Choice) {
    c.Tick? && p.pc.W? && p.pc.w.Wake? && p.pc.job.wakes
  }

  /** The other processes as the step of `p` leaves them. */
  function Others(procs: seq<Proc>, p: Proc, c: Choice): (r: seq<Proc>)
    ensures |r| == |procs|
  {
    if Waking(p, c) then WakeUp(procs, p.pc.job.packet) else procs
  }

  /** A process that does not move keeps everything, but that a sleeper may be woken. */
  predicate Bystander(p: Proc, p': Proc) {
    p' == p || (p.pc.Asleep? && p' == p.(pc := Recheck))
  }

  function Next(v: Vehicle, s: State, e: Event): (s': State)
    requires WellLaid(v) && Shaped(v, s) && Enabled(v, s, e)
    ensures Shaped(v, s') && |s'.procs| == |s.procs|
    ensures Local(s'.mem, s'.procs[e.pid]) == LocalStep(v, s.mem, s.procs[e.pid], e.choice)
    ensures forall q :: 0 <= q < |s.procs| && q != e.pid ==> Bystander(s.procs[q], s'.procs[q])
    ensures Waking(s.procs[e.pid], e.choice) ==>
      forall q :: 0 <= q < |s.procs| && q != e.pid ==>
        !(s'.procs[q].pc.Asleep? && Covers(s'.procs[q], s.procs[e.pid].pc.job.packet))
  {
    var p := s.procs[e.pid];
    var l := LocalStep(v, s.mem, p, e.choice);
    State(l.mem, Others(s.procs, p, e.choice)[e.pid := l.proc])
  }

  // ---------------------------------------------------------------- runs

  function InitProc(v: Vehicle): (p: Proc)
    ensures Shaped1(v, p)
  {
    var n := |v.packets|;
    var sizes := seq(n, i requires 0 <= i < n => Zeros(v.packets[i].size));
    Proc(Idle, Standard, NoOutcome,
         View(1, seq(n, _ => 1), seq(n, _ => false)), false, [], seq(n, _ => []),
         Drafts(sizes, seq(n, _ => false)),
         seq(n, _ => 0), 0, false, seq(n, _ => []), map[], 0)
  }

  /** The memory as `TelemetryShm::create` leaves it and `count` processes attached to it. */
  function Init(v: Vehicle, count: nat): (s: State)
    ensures Shaped(v, s) && |s.procs| == count
  {
    var n := |v.packets|;
    var m := Memory(1, 1, 1, 1, 0, 0, 1, seq(n, _ => 1),
                    seq(n, i requires 0 <= i < n => Zeros(v.packets[i].size)), seq(n, _ => 1), [], 1);
    State(m, seq(count, _ => InitProc(v)))
  }

  ghost predicate Valid(v: Vehicle, s: State, run: seq<Event>)
    requires WellLaid(v) && Shaped(v, s)
    decreases |run|
  {
    run == [] || (Enabled(v, s, run[0]) && Valid(v, Next(v, s, run[0]), run[1..]))
  }

  function Run(v: Vehicle, s: State, run: seq<Event>): (s': State)
    requires WellLaid(v) && Shaped(v, s) && Valid(v, s, run)
    ensures Shaped(v, s') && |s'.procs| == |s.procs|
    decreases |run|
  {
    if run == [] then s else Run(v, Next(v, s, run[0]), run[1..])
  }
}
