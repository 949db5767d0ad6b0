/** What a viewer's private copies hold: the flags of an update are exact, and after every
    update each tracked buffer is a whole packet, all taken at one instant. */
module Viewing {
  import opened Bytes
  import opened Layout
  import opened History
  import opened Caches
  import opened Protocol
  import opened Snapshots

  /** The bytes packet `j` held when the log was `n` long. */
  function ContentAt(v: Vehicle, log: seq<Commit>, n: nat, j: nat): seq<byte>
    requires n <= |log| && j < |v.packets|
  {
    Content(log[..n], j, v.packets[j].size)
  }

  predicate JustUpdated(p: Proc) {
    p.pc.Idle? && p.outcome.Success?
  }

  predicate Waiting(pc: Pc) {
    pc.R? || (pc.U? && !pc.after.Finish?) || pc.FutexCall? || pc.Asleep? || pc.Recheck?
  }

  /** An update that found something: from the check to the successful return. */
  predicate Updated(p: Proc) {
    p.pc.Copying? || (p.pc.U? && p.pc.after.Finish?) || JustUpdated(p)
  }

  /** The buffer of the packet is still to be copied in this update. */
  ghost predicate StillToCopy(p: Proc, j: nat)
    requires j < |p.view.updated|
  {
    p.pc.Copying? && p.view.updated[j] && exists t :: p.pc.next <= t < |p.ids| && p.ids[t] == j
  }

  predicate Checked(pc: Pc) {
    (pc.U? && !pc.after.Finish?) || pc.FutexCall? || pc.Asleep?
  }

  /** A process that found nothing new: no listed packet was written between the time its
      nonce was last refreshed and the time of the check, which `lastNonce` records. */
  ghost predicate CheckedOk(v: Vehicle, log: seq<Commit>, p: Proc)
    requires Shaped1(v, p)
  {
    Checked(p.pc) ==>
      && 1 <= p.view.lastNonce <= |log| + 1
      && (!p.checkAll ==> forall k :: 0 <= k < |p.ids| ==>
            p.view.lastNonces[p.ids[k]] == PacketNonce(log[..p.view.lastNonce - 1], p.ids[k]))
  }

  ghost predicate NoncesOk(v: Vehicle, log: seq<Commit>, p: Proc)
    requires Shaped1(v, p)
  {
    && p.synced <= |log|
    && (forall j :: 0 <= j < |v.packets| ==>
          p.seen[j] <= |log| && p.view.lastNonces[j] == PacketNonce(log[..p.seen[j]], j))
    && (!p.usedList ==> p.view.lastNonce == p.synced + 1 && forall j :: 0 <= j < |v.packets| ==> p.seen[j] == p.synced)
    && (Waiting(p.pc) ==> forall j :: 0 <= j < |v.packets| ==> !p.view.updated[j])
    && CheckedOk(v, log, p)
  }

  /** Which packets are tracked, and that the others were never refreshed. */
  ghost predicate TrackedOk(v: Vehicle, p: Proc)
    requires Shaped1(v, p)
  {
    && (forall j, k :: 0 <= j < k < |p.ids| ==> p.ids[j] != p.ids[k])
    && (p.checkAll ==> forall j :: 0 <= j < (if p.pc.Adding? then p.pc.k else |v.packets|) ==> j in p.ids)
    && (p.pc.Adding? ==> p.checkAll && !p.outcome.Success?)
    && (forall j :: 0 <= j < |v.packets| && j !in p.ids ==> p.seen[j] == 0)
  }

  /** Every tracked buffer that is not still to be copied is the packet as it was last seen. */
  ghost predicate BuffersOk(v: Vehicle, log: seq<Commit>, p: Proc)
    requires Shaped1(v, p) && NoncesOk(v, log, p)
  {
    forall j :: 0 <= j < |v.packets| && j in p.ids ==>
      StillToCopy(p, j) || p.buffers[j] == ContentAt(v, log, p.seen[j], j)
  }

  /** After a successful check everything tracked was seen at the same instant. */
  ghost predicate SyncedOk(v: Vehicle, log: seq<Commit>, p: Proc)
    requires Shaped1(v, p)
  {
    && (Updated(p) ==> p.view.lastNonce == p.synced + 1)
    && (Updated(p) ==> forall j :: 0 <= j < |v.packets| && j in p.ids ==> p.seen[j] == p.synced)
    && (p.pc.Copying? ==> p.synced == |log|)
    && (p.outcome.Success? ==> p.pc.Idle?)
  }

  ghost predicate ViewOk(v: Vehicle, log: seq<Commit>, p: Proc)
    requires Shaped1(v, p)
  {
    NoncesOk(v, log, p) && TrackedOk(v, p) && BuffersOk(v, log, p) && SyncedOk(v, log, p)
  }

  // ---------------------------------------------------------------- steps that do not touch the view

  predicate SameView(p: Proc, p': Proc) {
    && p'.view == p.view && p'.ids == p.ids && p'.checkAll == p.checkAll && p'.buffers == p.buffers
    && p'.seen == p.seen && p'.synced == p.synced && p'.usedList == p.usedList
  }

  lemma SameViewKeepsViewOk(v: Vehicle, log: seq<Commit>, p: Proc, p': Proc)
    requires Shaped1(v, p) && Shaped1(v, p') && ViewOk(v, log, p) && SameView(p, p')
    requires (Waiting(p'.pc) ==> Waiting(p.pc)) && (Checked(p'.pc) ==> Checked(p.pc))
    requires (Updated(p') ==> Updated(p)) && (p'.outcome.Success? ==> p'.pc.Idle?)
    requires !p.pc.Copying? && !p'.pc.Copying? && !p.pc.Adding? && !p'.pc.Adding?
    ensures ViewOk(v, log, p')
  {
  }

  lemma LogGrowsKeepsViewOk(v: Vehicle, log: seq<Commit>, c: Commit, p: Proc)
    requires Shaped1(v, p) && ViewOk(v, log, p) && !p.pc.Copying?
    ensures ViewOk(v, log + [c], p)
  {
    assert forall j :: 0 <= j < |v.packets| ==> !StillToCopy(p, j);
    forall j | 0 <= j < |v.packets|
      ensures (log + [c])[..p.seen[j]] == log[..p.seen[j]]
    {
      PrefixOfLonger(log, c, p.seen[j]);
    }
    if Checked(p.pc) {
      PrefixOfLonger(log, c, p.view.lastNonce - 1);
    }
  }

  // ---------------------------------------------------------------- adding packets

  /** A tracked packet more, and for `add_all` the loop one further. */
  function Tracked(v: Vehicle, p: Proc, id: nat): (p': Proc)
    requires Shaped1(v, p) && (p.pc.Idle? || p.pc.Adding?) && id < |v.packets|
    ensures Shaped1(v, p')
  {
    if p.pc.Adding? then Track(v, p, id).(pc := Adding(id + 1)) else Track(v, p, id)
  }

  lemma TrackKeepsTrackedOk(v: Vehicle, p: Proc, id: nat)
    requires Shaped1(v, p) && (p.pc.Idle? || p.pc.Adding?) && id < |v.packets|
    requires (p.pc.Adding? ==> p.pc.k == id) && TrackedOk(v, p)
    ensures TrackedOk(v, Tracked(v, p, id))
  {
  }

  lemma TrackKeepsBuffersOk(v: Vehicle, log: seq<Commit>, p: Proc, id: nat, p': Proc)
    requires Shaped1(v, p) && Shaped1(v, p') && (p.pc.Idle? || p.pc.Adding?) && id < |v.packets|
    requires p' == Tracked(v, p, id) && NoncesOk(v, log, p) && NoncesOk(v, log, p')
    requires TrackedOk(v, p) && BuffersOk(v, log, p)
    ensures BuffersOk(v, log, p')
  {
  }

  lemma TrackKeepsViewOk(v: Vehicle, log: seq<Commit>, p: Proc, id: nat)
    requires Shaped1(v, p) && (p.pc.Idle? || p.pc.Adding?) && id < |v.packets| && !p.outcome.Success?
    requires (p.pc.Adding? ==> p.pc.k == id) && ViewOk(v, log, p)
    ensures ViewOk(v, log, Tracked(v, p, id))
  {
    var p' := Tracked(v, p, id);
    assert p' == p.(pc := p'.pc, ids := p'.ids, buffers := p'.buffers);
    TrackKeepsTrackedOk(v, p, id);
    TrackKeepsBuffersOk(v, log, p, id, p');
  }

  // ---------------------------------------------------------------- reading

  /** A nonce differs from the one kept exactly when the packet was written since it was seen. */
  lemma FlagMeansWritten(v: Vehicle, m: Memory, p: Proc, j: nat)
    requires ShapedMem(v, m) && Shaped1(v, p) && NoncesOk(v, m.log, p) && Settled(v, m) && j < |v.packets|
    ensures p.view.lastNonces[j] != m.nonces[j] <==> WrittenSince(m.log, p.seen[j], j)
    ensures p.view.lastNonces[j] == m.nonces[j] ==> ContentAt(v, m.log, p.seen[j], j) == m.packets[j]
  {
    NonceTellsWrites(m.log, p.seen[j], j);
    if p.view.lastNonces[j] == m.nonces[j] {
      UnwrittenKeepsContent(m.log, p.seen[j], j, v.packets[j].size);
    }
  }

  /** For a process that only took the all-packets lock, the master nonce says whether anything
      was written since its last success, and if so one of the packets is flagged. */
  lemma ChangeIsFlagged(v: Vehicle, m: Memory, p: Proc)
    requires ShapedMem(v, m) && Shaped1(v, p) && NoncesOk(v, m.log, p) && Settled(v, m) && !p.usedList
    requires forall k :: 0 <= k < |m.log| ==> m.log[k].packet < |v.packets|
    ensures p.view.lastNonce != m.nonce <==> |m.log| > p.synced
    ensures |m.log| > p.synced ==>
      exists j :: 0 <= j < |v.packets| && RefreshAll(p.view, m.nonce, m.nonces).updated[j]
  {
    if |m.log| > p.synced {
      var j := m.log[p.synced].packet;
      FlagMeansWritten(v, m, p, j);
      assert WrittenSince(m.log, p.seen[j], j);
      assert RefreshAll(p.view, m.nonce, m.nonces).updated[j];
    }
  }

  lemma CheckKeepsNoncesOk(v: Vehicle, m: Memory, p: Proc)
    requires ShapedMem(v, m) && Shaped1(v, p) && p.pc == R(RCheck)
    requires NoncesOk(v, m.log, p) && Settled(v, m)
    ensures NoncesOk(v, m.log, CheckStep(v, m, p))
  {
    assert m.log[..|m.log|] == m.log;
    var p' := CheckStep(v, m, p);
    forall j | 0 <= j < |v.packets|
      ensures p'.seen[j] <= |m.log| && p'.view.lastNonces[j] == PacketNonce(m.log[..p'.seen[j]], j)
    {
      assert p.view.lastNonces[j] == PacketNonce(m.log[..p.seen[j]], j);
    }
  }

  lemma CheckKeepsBuffersOk(v: Vehicle, m: Memory, p: Proc, p': Proc)
    requires ShapedMem(v, m) && Shaped1(v, p) && Shaped1(v, p') && p.pc == R(RCheck) && p' == CheckStep(v, m, p)
    requires NoncesOk(v, m.log, p) && BuffersOk(v, m.log, p) && Settled(v, m)
    requires NoncesOk(v, m.log, p')
    ensures BuffersOk(v, m.log, p')
  {
    assert m.log[..|m.log|] == m.log;
    forall j | 0 <= j < |v.packets| && j in p'.ids
      ensures StillToCopy(p', j) || p'.buffers[j] == ContentAt(v, m.log, p'.seen[j], j)
    {
      FlagMeansWritten(v, m, p, j);
      if p'.pc.Copying? && p'.view.updated[j] {
        var t :| 0 <= t < |p.ids| && p.ids[t] == j;
        assert p'.ids[t] == j;
      }
    }
  }

  lemma CheckKeepsViewOk(v: Vehicle, m: Memory, p: Proc)
    requires ShapedMem(v, m) && Shaped1(v, p) && p.pc == R(RCheck)
    requires ViewOk(v, m.log, p) && Settled(v, m)
    ensures ViewOk(v, m.log, CheckStep(v, m, p))
  {
    CheckKeepsNoncesOk(v, m, p);
    CheckKeepsBuffersOk(v, m, p, CheckStep(v, m, p));
  }

  /** One packet copied out, or passed over because it is not flagged. */
  lemma CopyKeepsBuffersOk(v: Vehicle, m: Memory, p: Proc, p': Proc)
    requires ShapedMem(v, m) && Shaped1(v, p) && Shaped1(v, p')
    requires p.pc.Copying? && p.pc.next < |p.ids| && p' == ViewStep(v, m, p).proc
    requires NoncesOk(v, m.log, p) && BuffersOk(v, m.log, p) && SyncedOk(v, m.log, p) && NoncesOk(v, m.log, p')
    requires var id := p.ids[p.pc.next]; m.packets[id] == Content(m.log, id, v.packets[id].size)
    ensures BuffersOk(v, m.log, p')
  {
    assert m.log[..|m.log|] == m.log;
    forall j | 0 <= j < |v.packets| && j in p'.ids
      ensures StillToCopy(p', j) || p'.buffers[j] == ContentAt(v, m.log, p'.seen[j], j)
    {
      if j != p.ids[p.pc.next] && StillToCopy(p, j) {
        StaysToCopy(p, p', j);
      }
    }
  }

  lemma StaysToCopy(p: Proc, p': Proc, j: nat)
    requires p.pc.Copying? && p'.pc == Copying(p.pc.next + 1) && p'.ids == p.ids && p'.view == p.view
    requires p.pc.next < |p.ids| && j < |p.view.updated| && StillToCopy(p, j) && j != p.ids[p.pc.next]
    ensures StillToCopy(p', j)
  {
  }

  lemma CopyOneKeepsViewOk(v: Vehicle, m: Memory, p: Proc, p': Proc)
    requires ShapedMem(v, m) && Shaped1(v, p) && Shaped1(v, p')
    requires p.pc.Copying? && p.pc.next < |p.ids| && p' == ViewStep(v, m, p).proc
    requires ViewOk(v, m.log, p) && Settled(v, m)
    ensures ViewOk(v, m.log, p')
  {
    assert p' == p.(pc := Copying(p.pc.next + 1), buffers := p'.buffers);
    CopyKeepsBuffersOk(v, m, p, p');
  }

  lemma CopyDoneKeepsViewOk(v: Vehicle, m: Memory, p: Proc)
    requires Shaped1(v, p) && p.pc == Copying(|p.ids|) && ViewOk(v, m.log, p)
    ensures Shaped1(v, p.(pc := U(UTakeMutex, Finish))) && ViewOk(v, m.log, p.(pc := U(UTakeMutex, Finish)))
  {
  }

  lemma AddedAllKeepsViewOk(v: Vehicle, log: seq<Commit>, p: Proc)
    requires Shaped1(v, p) && p.pc == Adding(|v.packets|) && ViewOk(v, log, p)
    ensures ViewOk(v, log, p.(pc := Idle))
  {
  }

  // ---------------------------------------------------------------- every step of one process

  /** A step of a writer: it does not touch the view, and may add a commit to the log. */
  lemma WritingKeepsViewOk(v: Vehicle, m: Memory, p: Proc, m': Memory, p': Proc)
    requires Shaped1(v, p) && Shaped1(v, p') && p.pc.W? && ViewOk(v, m.log, p)
    requires p' == p.(pc := p'.pc, pending := p'.pending) && WriteMoves(p.pc, p'.pc)
    requires m'.log == if p.pc.w.Bump? then m.log + [CommitOf(p, p.pc.job)] else m.log
    ensures ViewOk(v, m'.log, p')
  {
    SameViewKeepsViewOk(v, m.log, p, p');
    if p.pc.w.Bump? {
      LogGrowsKeepsViewOk(v, m.log, CommitOf(p, p.pc.job), p');
    }
  }

  lemma ReadKeepsViewOk(v: Vehicle, m: Memory, p: Proc)
    requires ShapedMem(v, m) && Shaped1(v, p) && Ready(v, m, p) && (p.pc.R? || p.pc.U?) && ViewOk(v, m.log, p)
    requires InRead(p.pc) ==> Settled(v, m)
    ensures var l := if p.pc.R? then EnterRead(v, m, p) else LeaveRead(v, m, p); ViewOk(v, l.mem.log, l.proc)
  {
    if p.pc == R(RCheck) {
      CheckKeepsViewOk(v, m, p);
    } else if p.pc.R? {
      SameViewKeepsViewOk(v, m.log, p, EnterRead(v, m, p).proc);
    } else {
      SameViewKeepsViewOk(v, m.log, p, LeaveRead(v, m, p).proc);
    }
  }

  lemma AddingKeepsViewOk(v: Vehicle, m: Memory, p: Proc)
    requires ShapedMem(v, m) && Shaped1(v, p) && ViewOk(v, m.log, p) && p.pc.Adding?
    ensures ViewOk(v, m.log, ViewStep(v, m, p).proc)
  {
    if p.pc.k < |v.packets| {
      TrackKeepsViewOk(v, m.log, p, p.pc.k);
    } else {
      AddedAllKeepsViewOk(v, m.log, p);
    }
  }

  lemma CopyingKeepsViewOk(v: Vehicle, m: Memory, p: Proc)
    requires ShapedMem(v, m) && Shaped1(v, p) && ViewOk(v, m.log, p) && p.pc.Copying? && Settled(v, m)
    ensures ViewOk(v, m.log, ViewStep(v, m, p).proc)
  {
    if p.pc.next < |p.ids| {
      CopyOneKeepsViewOk(v, m, p, ViewStep(v, m, p).proc);
    } else {
      CopyDoneKeepsViewOk(v, m, p);
    }
  }

  lemma ViewingKeepsViewOk(v: Vehicle, m: Memory, p: Proc)
    requires ShapedMem(v, m) && Shaped1(v, p) && ViewOk(v, m.log, p)
    requires p.pc.Adding? || p.pc.Copying? || p.pc.FutexCall? || p.pc.Recheck?
    requires InRead(p.pc) ==> Settled(v, m)
    ensures ViewOk(v, m.log, ViewStep(v, m, p).proc)
  {
    if p.pc.Adding? {
      AddingKeepsViewOk(v, m, p);
    } else if p.pc.Copying? {
      CopyingKeepsViewOk(v, m, p);
    } else {
      var p' := ViewStep(v, m, p).proc;
      assert p' == p.(pc := p'.pc, outcome := p'.outcome);
      SameViewKeepsViewOk(v, m.log, p, p');
    }
  }

  /** `add_all` and `update` begin. */
  lemma BeginKeepsViewOk(v: Vehicle, log: seq<Commit>, p: Proc, p': Proc)
    requires Shaped1(v, p) && Shaped1(v, p') && p.pc.Idle? && ViewOk(v, log, p)
    requires || p' == p.(pc := Adding(0), outcome := NoOutcome, checkAll := true)
             || p' == p.(pc := R(RTakeTry), mode := p'.mode, outcome := NoOutcome, view := ClearFlags(p.view))
    ensures ViewOk(v, log, p')
  {
    assert forall j :: 0 <= j < |v.packets| ==> !StillToCopy(p, j);
  }

  lemma ChoiceKeepsViewOk(v: Vehicle, m: Memory, p: Proc, c: Choice)
    requires WellLaid(v) && ShapedMem(v, m) && Shaped1(v, p) && Allowed(v, m, p, c) && !c.Tick?
    requires ViewOk(v, m.log, p)
    ensures ViewOk(v, m.log, ChoiceStep(v, m, p, c).proc)
  {
    var p' := ChoiceStep(v, m, p, c).proc;
    if c.Add? {
      SameViewKeepsViewOk(v, m.log, p, p.(outcome := NoOutcome));
      TrackKeepsViewOk(v, m.log, p.(outcome := NoOutcome), c.id);
    } else if c.AddAll? || c.Update? {
      BeginKeepsViewOk(v, m.log, p, p');
    } else {
      SameViewKeepsViewOk(v, m.log, p, p');
    }
  }

  lemma SessionKeepsViewOk(v: Vehicle, m: Memory, p: Proc)
    requires ShapedMem(v, m) && Shaped1(v, p) && Ready(v, m, p) && InSession(p.pc) && ViewOk(v, m.log, p)
    ensures ViewOk(v, m.log, SessionStep(v, m, p).proc)
  {
    SameViewKeepsViewOk(v, m.log, p, SessionStep(v, m, p).proc);
  }

  lemma TickKeepsViewOk(v: Vehicle, m: Memory, p: Proc)
    requires WellLaid(v) && ShapedMem(v, m) && Shaped1(v, p) && Ready(v, m, p) && !p.pc.W?
    requires ViewOk(v, m.log, p) && (InRead(p.pc) ==> Settled(v, m))
    ensures ViewOk(v, m.log, LocalStep(v, m, p, Tick).proc)
  {
    if p.pc.R? || p.pc.U? {
      ReadKeepsViewOk(v, m, p);
    } else if InSession(p.pc) {
      SessionKeepsViewOk(v, m, p);
    } else {
      ViewingKeepsViewOk(v, m, p);
    }
  }

  lemma StepKeepsViewOk(v: Vehicle, m: Memory, p: Proc, c: Choice)
    requires WellLaid(v) && ShapedMem(v, m) && Shaped1(v, p) && Allowed(v, m, p, c)
    requires ViewOk(v, m.log, p) && (InRead(p.pc) ==> Settled(v, m))
    ensures var l := LocalStep(v, m, p, c); ViewOk(v, l.mem.log, l.proc)
  {
    var l := LocalStep(v, m, p, c);
    if !c.Tick? {
      ChoiceKeepsViewOk(v, m, p, c);
    } else if p.pc.W? {
      WritingKeepsViewOk(v, m, p, l.mem, l.proc);
    } else {
      TickKeepsViewOk(v, m, p);
    }
  }
}
