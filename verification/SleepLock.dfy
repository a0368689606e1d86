/**
 One sleep lock (sleeplock.c) on top of sleep and wakeup (proc.c), with a program counter
 for each process and one step for each access to shared state.
*/
module SleepLock {
  import opened Common

  type Pid = nat
  datatype Pc =
    | Out
    // sleep_lock
    | WantSpin           // spin_lock(&lk->lk)
    | Check              // while (lk->locked)
    | GotIt              // locked is set, spin_unlock(&lk->lk)
    | Holding            // between sleep_lock and sleep_unlock
    // sleep, called by sleep_lock
    | SleepTakeP         // spin_lock(&proc->lock)
    | SleepHasP          // spin_unlock(lk)
    | SleepMark          // chan and SLEEPING are set
    | AsleepLocked       // in sched(): the scheduler will release proc->lock
    | Asleep             // off the CPU
    | Woken              // back on a CPU, holding proc->lock again
    // sleep_trylock
    | TrySpin            // spin_trylock
    | TryCheck
    // sleep_unlock with its wakeup
    | UnlockSpin         // spin_lock(&lk->lk)
    | UnlockHasLk        // lk->locked = false
    | WakeStart          // read lock of the process list
    | Scan(i: nat)       // at position i, without that process's lock
    | ScanHas(i: nat)    // at position i, with it
    | WakeEnd            // spin_unlock(&lk->lk)

  /**
   lk: who has the spin lock.  plock: who has the lock of a process.  owner: lk->locked and,
   as in the debug build, the process that set it.  asleep: SLEEPING on this lock's channel.
  */
  datatype State = State(pcs: map<Pid, Pc>, plist: seq<Pid>, lk: Option<Pid>, plock: map<Pid, Pid>,
                         owner: Option<Pid>, asleep: set<Pid>)

  predicate HasLk(pc: Pc) {
    pc.Check? || pc.GotIt? || pc.SleepTakeP? || pc.SleepHasP? || pc.TryCheck? || pc.UnlockHasLk? ||
    pc.WakeStart? || pc.Scan? || pc.ScanHas? || pc.WakeEnd?
  }

  predicate HasOwnLock(pc: Pc) {
    pc.SleepHasP? || pc.SleepMark? || pc.AsleepLocked? || pc.Woken?
  }

  predicate IsOwner(pc: Pc) {
    pc.GotIt? || pc.Holding? || pc.UnlockSpin? || pc.UnlockHasLk?
  }

  predicate Scanning(pc: Pc) {
    pc.Scan? || pc.ScanHas?
  }

  /** Decided to sleep and not woken since. */
  predicate Committed(pc: Pc, asleep: bool) {
    pc.SleepTakeP? || pc.SleepHasP? || pc.SleepMark? || ((pc.AsleepLocked? || pc.Asleep?) && asleep)
  }

  /** The wakeup at that pc has yet to look at p. */
  predicate Coming(pc: Pc, plist: seq<Pid>, p: Pid) {
    pc.WakeStart? || (Scanning(pc) && pc.i <= |plist| && p in plist[pc.i..])
  }

  // ----- the invariant -----

  ghost predicate SpinLock(pcs: map<Pid, Pc>, lk: Option<Pid>) {
    && (forall p :: p in pcs && HasLk(pcs[p]) ==> lk == Some(p))
    && (lk.Some? ==> lk.value in pcs && HasLk(pcs[lk.value]))
  }

  ghost predicate ProcLocks(pcs: map<Pid, Pc>, plock: map<Pid, Pid>, plist: seq<Pid>) {
    && (forall p :: p in pcs && HasOwnLock(pcs[p]) ==> p in plock && plock[p] == p)
    && (forall p :: p in pcs && pcs[p].ScanHas? ==>
          pcs[p].i < |plist| && plist[pcs[p].i] in plock && plock[plist[pcs[p].i]] == p && plist[pcs[p].i] != p)
    && (forall p :: p in pcs && pcs[p].Scan? ==> pcs[p].i <= |plist|)
    && (forall q :: q in plock ==> plock[q] in pcs)
    && (forall q :: q in plock && plock[q] == q ==> HasOwnLock(pcs[q]))
    && (forall q :: q in plock && plock[q] != q ==>
          pcs[plock[q]].ScanHas? && pcs[plock[q]].i < |plist| && plist[pcs[plock[q]].i] == q)
  }

  ghost predicate Ownership(pcs: map<Pid, Pc>, owner: Option<Pid>) {
    && (forall p :: p in pcs && IsOwner(pcs[p]) ==> owner == Some(p))
    && (owner.Some? ==> owner.value in pcs && IsOwner(pcs[owner.value]))
  }

  ghost predicate Sleepers(pcs: map<Pid, Pc>, asleep: set<Pid>) {
    forall p :: p in asleep ==> p in pcs && (pcs[p].AsleepLocked? || pcs[p].Asleep?)
  }

  /** Whoever uses the lock is in the process list. */
  ghost predicate Listed(pcs: map<Pid, Pc>, plist: seq<Pid>) {
    forall p :: p in pcs && !pcs[p].Out? ==> p in plist
  }

  /** No wakeup is lost: whoever sleeps, or is about to, has the lock's release or its wakeup still ahead. */
  ghost predicate NoLostWakeup(s: State) {
    forall p :: p in s.pcs && Committed(s.pcs[p], p in s.asleep) ==>
      s.owner.Some? || (s.lk.Some? && s.lk.value in s.pcs && Coming(s.pcs[s.lk.value], s.plist, p))
  }

  ghost predicate Inv(s: State) {
    && SpinLock(s.pcs, s.lk)
    && ProcLocks(s.pcs, s.plock, s.plist)
    && Ownership(s.pcs, s.owner)
    && Sleepers(s.pcs, s.asleep)
    && Listed(s.pcs, s.plist)
    && NoLostWakeup(s)
  }

  // ----- the steps -----

  datatype Step =
    | Call(p: Pid)                // sleep_lock
    | TryCall(p: Pid)             // sleep_trylock
    | Release(p: Pid)             // sleep_unlock
    | Advance(p: Pid)             // the next access of p
    | SwitchOut(p: Pid)           // the scheduler releases the lock of a process that sleeps
    | Resume(p: Pid)              // the scheduler takes it and runs the process
    | Kick(p: Pid)                // a signal makes a sleeping process runnable
    | Relist(plist: seq<Pid>)     // a writer of the process list: scheduling, fork, wait

  ghost predicate Enabled(s: State, e: Step) {
    match e
    case Call(p) => p in s.pcs && s.pcs[p].Out? && p in s.plist
    case TryCall(p) => p in s.pcs && s.pcs[p].Out? && p in s.plist
    case Release(p) => p in s.pcs && s.pcs[p].Holding?
    case Advance(p) => p in s.pcs && CanAdvance(s, p)
    case SwitchOut(p) => p in s.pcs && s.pcs[p].AsleepLocked?
    case Resume(p) => p in s.pcs && s.pcs[p].Asleep? && p !in s.asleep && p !in s.plock
    case Kick(p) => p !in s.plock
    // a write lock excludes the scan's read lock; only processes that do not use the lock come and go
    case Relist(l) =>
      && (forall q :: q in s.pcs ==> !Scanning(s.pcs[q]))
      && (forall q :: q in s.pcs && !s.pcs[q].Out? ==> q in l)
  }

  /** Spinning is being unable to advance. */
  predicate CanAdvance(s: State, p: Pid)
    requires p in s.pcs
  {
    match s.pcs[p]
    case WantSpin => s.lk.None?
    case UnlockSpin => s.lk.None?
    case SleepTakeP => p !in s.plock
    case Scan(i) => i < |s.plist| && s.plist[i] != p ==> s.plist[i] !in s.plock
    case ScanHas(i) => i < |s.plist|
    case Out => false
    case Holding => false
    case AsleepLocked => false
    case Asleep => false
    case _ => true
  }

  function Advanced(s: State, p: Pid): State
    requires p in s.pcs && CanAdvance(s, p)
  {
    match s.pcs[p]
    case WantSpin => s.(pcs := s.pcs[p := Check], lk := Some(p))
    case Check =>
      if s.owner.Some? then s.(pcs := s.pcs[p := SleepTakeP]) else s.(pcs := s.pcs[p := GotIt], owner := Some(p))
    case GotIt => s.(pcs := s.pcs[p := Holding], lk := None)
    case SleepTakeP => s.(pcs := s.pcs[p := SleepHasP], plock := s.plock[p := p])
    case SleepHasP => s.(pcs := s.pcs[p := SleepMark], lk := None)
    case SleepMark => s.(pcs := s.pcs[p := AsleepLocked], asleep := s.asleep + {p})
    case Woken => s.(pcs := s.pcs[p := WantSpin], plock := s.plock - {p})
    case TrySpin => if s.lk.Some? then s.(pcs := s.pcs[p := Out]) else s.(pcs := s.pcs[p := TryCheck], lk := Some(p))
    case TryCheck =>
      if s.owner.Some? then s.(pcs := s.pcs[p := Out], lk := None) else s.(pcs := s.pcs[p := GotIt], owner := Some(p))
    case UnlockSpin => s.(pcs := s.pcs[p := UnlockHasLk], lk := Some(p))
    case UnlockHasLk => s.(pcs := s.pcs[p := WakeStart], owner := None)
    case WakeStart => s.(pcs := s.pcs[p := Scan(0)])
    case Scan(i) =>
      if i >= |s.plist| then s.(pcs := s.pcs[p := WakeEnd])
      else if s.plist[i] == p then s.(pcs := s.pcs[p := Scan(i + 1)])
      else s.(pcs := s.pcs[p := ScanHas(i)], plock := s.plock[s.plist[i] := p])
    case ScanHas(i) =>
      s.(pcs := s.pcs[p := Scan(i + 1)], plock := s.plock - {s.plist[i]}, asleep := s.asleep - {s.plist[i]})
    case WakeEnd => s.(pcs := s.pcs[p := Out], lk := None)
  }

  ghost function Apply(s: State, e: Step): State
    requires Enabled(s, e)
  {
    match e
    case Call(p) => s.(pcs := s.pcs[p := WantSpin])
    case TryCall(p) => s.(pcs := s.pcs[p := TrySpin])
    case Release(p) => s.(pcs := s.pcs[p := UnlockSpin])
    case Advance(p) => Advanced(s, p)
    case SwitchOut(p) => s.(pcs := s.pcs[p := Asleep], plock := s.plock - {p})
    case Resume(p) => s.(pcs := s.pcs[p := Woken], plock := s.plock[p := p])
    case Kick(p) => s.(asleep := s.asleep - {p})
    case Relist(l) => s.(plist := l)
  }

  // ----- what one process's move does to each part of the invariant -----

  lemma SpinMove(pcs: map<Pid, Pc>, lk: Option<Pid>, p: Pid, pc: Pc)
    requires SpinLock(pcs, lk) && p in pcs
    ensures HasLk(pc) == HasLk(pcs[p]) ==> SpinLock(pcs[p := pc], lk)
    ensures lk.None? && HasLk(pc) ==> SpinLock(pcs[p := pc], Some(p))
    ensures HasLk(pcs[p]) && !HasLk(pc) ==> SpinLock(pcs[p := pc], None)
  {
  }

  lemma OwnerMove(pcs: map<Pid, Pc>, owner: Option<Pid>, p: Pid, pc: Pc)
    requires Ownership(pcs, owner) && p in pcs
    ensures IsOwner(pc) == IsOwner(pcs[p]) ==> Ownership(pcs[p := pc], owner)
    ensures owner.None? && IsOwner(pc) ==> Ownership(pcs[p := pc], Some(p))
    ensures IsOwner(pcs[p]) && !IsOwner(pc) ==> Ownership(pcs[p := pc], None)
  {
  }

  lemma ListedMove(pcs: map<Pid, Pc>, plist: seq<Pid>, p: Pid, pc: Pc)
    requires Listed(pcs, plist) && p in pcs && (pcs[p].Out? ==> p in plist)
    ensures Listed(pcs[p := pc], plist)
  {
  }

  lemma SleepersMove(pcs: map<Pid, Pc>, asleep: set<Pid>, p: Pid, pc: Pc)
    requires Sleepers(pcs, asleep) && p in pcs
    ensures p !in asleep || pc.Asleep? ==> Sleepers(pcs[p := pc], asleep)
    ensures pc.AsleepLocked? ==> Sleepers(pcs[p := pc], asleep + {p})
    ensures forall q :: Sleepers(pcs, asleep - {q})
  {
  }

  /** Moves that take or give no process lock. */
  lemma ProcSame(pcs: map<Pid, Pc>, plock: map<Pid, Pid>, plist: seq<Pid>, p: Pid, pc: Pc)
    requires ProcLocks(pcs, plock, plist) && p in pcs
    requires !pcs[p].ScanHas? && !pc.ScanHas? && HasOwnLock(pcs[p]) == HasOwnLock(pc) && (pc.Scan? ==> pc.i <= |plist|)
    ensures ProcLocks(pcs[p := pc], plock, plist)
  {
  }

  lemma ProcTakeOwn(pcs: map<Pid, Pc>, plock: map<Pid, Pid>, plist: seq<Pid>, p: Pid, pc: Pc)
    requires ProcLocks(pcs, plock, plist) && p in pcs && p !in plock && !pcs[p].ScanHas? && HasOwnLock(pc)
    ensures ProcLocks(pcs[p := pc], plock[p := p], plist)
  {
  }

  lemma ProcDropOwn(pcs: map<Pid, Pc>, plock: map<Pid, Pid>, plist: seq<Pid>, p: Pid, pc: Pc)
    requires ProcLocks(pcs, plock, plist) && p in pcs && HasOwnLock(pcs[p]) && !HasOwnLock(pc) && !Scanning(pc)
    ensures ProcLocks(pcs[p := pc], plock - {p}, plist)
  {
  }

  lemma ProcTakeScan(pcs: map<Pid, Pc>, plock: map<Pid, Pid>, plist: seq<Pid>, p: Pid, i: nat)
    requires ProcLocks(pcs, plock, plist) && p in pcs && pcs[p] == Scan(i) && i < |plist| && plist[i] !in plock
    requires plist[i] != p
    ensures ProcLocks(pcs[p := ScanHas(i)], plock[plist[i] := p], plist)
  {
  }

  lemma ProcDropScan(pcs: map<Pid, Pc>, plock: map<Pid, Pid>, plist: seq<Pid>, p: Pid, i: nat)
    requires ProcLocks(pcs, plock, plist) && p in pcs && pcs[p] == ScanHas(i) && i < |plist|
    ensures ProcLocks(pcs[p := Scan(i + 1)], plock - {plist[i]}, plist)
  {
  }

  predicate Waking(pc: Pc) {
    pc.WakeStart? || Scanning(pc)
  }

  /** Moves outside a wakeup leave every sleeper its wakeup. */
  lemma NoLostElsewhere(s: State, s': State, p: Pid)
    requires SpinLock(s.pcs, s.lk) && NoLostWakeup(s) && p in s.pcs && p in s'.pcs && s'.pcs == s.pcs[p := s'.pcs[p]]
    requires !Waking(s.pcs[p]) && s'.plist == s.plist
    requires s.owner.Some? ==> s'.owner.Some?
    requires s.lk.Some? && s.lk != Some(p) ==> s'.lk == s.lk
    requires forall q :: q in s'.asleep ==> q in s.asleep || q == p
    requires Committed(s'.pcs[p], p in s'.asleep) ==> Committed(s.pcs[p], p in s.asleep) || s'.owner.Some?
    ensures NoLostWakeup(s')
  {
  }

  /** The release: every process is still ahead of its wakeup. */
  lemma NoLostRelease(s: State, s': State, p: Pid)
    requires SpinLock(s.pcs, s.lk) && p in s.pcs && s.pcs[p].UnlockHasLk?
    requires s' == s.(pcs := s.pcs[p := WakeStart], owner := None)
    ensures NoLostWakeup(s')
  {
  }

  /** The scan moves past a process it has woken, or itself. */
  lemma NoLostScan(s: State, s': State, p: Pid)
    requires SpinLock(s.pcs, s.lk) && NoLostWakeup(s) && Listed(s.pcs, s.plist) && p in s.pcs && p in s'.pcs
    requires Waking(s.pcs[p]) && s'.pcs == s.pcs[p := s'.pcs[p]] && s'.plist == s.plist && s'.lk == s.lk
    requires s'.owner == s.owner
    requires s'.asleep <= s.asleep && Waking(s'.pcs[p]) && !s'.pcs[p].WakeStart? && s'.pcs[p].i <= |s.plist|
    requires s.pcs[p].WakeStart? ==> s'.pcs[p].i == 0
    requires Scanning(s.pcs[p]) && s'.pcs[p].i != s.pcs[p].i ==>
      && s'.pcs[p].i == s.pcs[p].i + 1
      && (s.plist[s.pcs[p].i] in s.pcs ==>
            !Committed(s'.pcs[s.plist[s.pcs[p].i]], s.plist[s.pcs[p].i] in s'.asleep))
    ensures NoLostWakeup(s')
  {
    if Scanning(s.pcs[p]) && s'.pcs[p].i != s.pcs[p].i {
      var i := s.pcs[p].i;
      assert s.plist[i..] == [s.plist[i]] + s.plist[i + 1..];
    }
    assert s.plist[0..] == s.plist;
  }

  /** The scan has passed everybody. */
  lemma NoLostEnd(s: State, s': State, p: Pid)
    requires SpinLock(s.pcs, s.lk) && NoLostWakeup(s) && p in s.pcs && s.pcs[p].Scan? && s.pcs[p].i == |s.plist|
    requires s' == s.(pcs := s.pcs[p := WakeEnd])
    ensures NoLostWakeup(s')
  {
    assert s.plist[|s.plist|..] == [];
  }

  // ----- every step keeps the invariant -----

  lemma AdvanceSpin(s: State, p: Pid)
    requires Inv(s) && p in s.pcs && CanAdvance(s, p)
    ensures var s' := Advanced(s, p); SpinLock(s'.pcs, s'.lk) && Listed(s'.pcs, s'.plist)
  {
    var s' := Advanced(s, p);
    HolderOf(s, p);
    hide SpinLock, Ownership, ProcLocks, Sleepers, Listed, NoLostWakeup;
    SpinMove(s.pcs, s.lk, p, s'.pcs[p]);
    ListedMove(s.pcs, s.plist, p, s'.pcs[p]);
  }

  lemma AdvanceOwner(s: State, p: Pid)
    requires Inv(s) && p in s.pcs && CanAdvance(s, p)
    ensures var s' := Advanced(s, p); Ownership(s'.pcs, s'.owner)
  {
    var s' := Advanced(s, p);
    HolderOf(s, p);
    hide SpinLock, Ownership, ProcLocks, Sleepers, Listed, NoLostWakeup;
    OwnerMove(s.pcs, s.owner, p, s'.pcs[p]);
  }

  lemma HolderOf(s: State, p: Pid)
    requires Inv(s) && p in s.pcs
    ensures (HasLk(s.pcs[p]) ==> s.lk == Some(p)) && (IsOwner(s.pcs[p]) ==> s.owner == Some(p))
    ensures p in s.asleep ==> s.pcs[p].AsleepLocked? || s.pcs[p].Asleep?
    ensures s.pcs[p].Scan? ==> s.pcs[p].i <= |s.plist|
    ensures s.pcs[p].ScanHas? ==>
      && s.pcs[p].i < |s.plist| && s.plist[s.pcs[p].i] != p && s.plist[s.pcs[p].i] in s.plock
      && s.plock[s.plist[s.pcs[p].i]] == p
  {
  }

  /** What a move does to the process locks. */
  lemma AdvanceShape(s: State, p: Pid)
    requires p in s.pcs && CanAdvance(s, p) && (s.pcs[p].Scan? ==> s.pcs[p].i <= |s.plist|)
    ensures var s' := Advanced(s, p); var pc, pc' := s.pcs[p], s'.pcs[p];
      && p in s'.pcs && s'.pcs == s.pcs[p := pc'] && s'.plist == s.plist
      && (pc.SleepTakeP? ==> pc'.SleepHasP? && s'.plock == s.plock[p := p])
      && (pc.Woken? ==> pc'.WantSpin? && s'.plock == s.plock - {p})
      && (pc.ScanHas? ==> pc' == Scan(pc.i + 1) && s'.plock == s.plock - {s.plist[pc.i]})
      && (pc'.ScanHas? ==> pc == Scan(pc'.i) && pc'.i < |s.plist| && s.plist[pc'.i] !in s.plock && s.plist[pc'.i] != p)
      && (pc'.ScanHas? ==> s'.plock == s.plock[s.plist[pc'.i] := p])
      && (!pc.SleepTakeP? && !pc.Woken? && !pc.ScanHas? && !pc'.ScanHas? ==>
            s'.plock == s.plock && HasOwnLock(pc) == HasOwnLock(pc') && (pc'.Scan? ==> pc'.i <= |s.plist|))
  {
  }

  lemma AdvanceProcLocks(s: State, p: Pid)
    requires Inv(s) && p in s.pcs && CanAdvance(s, p)
    ensures var s' := Advanced(s, p); ProcLocks(s'.pcs, s'.plock, s'.plist)
  {
    hide Advanced, CanAdvance, SpinLock, Ownership, ProcLocks, Sleepers, Listed, NoLostWakeup;
    var s' := Advanced(s, p);
    HolderOf(s, p);
    SleepTakesFreeLock(s, p);
    AdvanceShape(s, p);
    if s.pcs[p].SleepTakeP? {
      ProcTakeOwn(s.pcs, s.plock, s.plist, p, s'.pcs[p]);
    } else if s.pcs[p].Woken? {
      ProcDropOwn(s.pcs, s.plock, s.plist, p, s'.pcs[p]);
    } else if s.pcs[p].ScanHas? {
      ProcDropScan(s.pcs, s.plock, s.plist, p, s.pcs[p].i);
    } else if s'.pcs[p].ScanHas? {
      ProcTakeScan(s.pcs, s.plock, s.plist, p, s.pcs[p].i);
    } else {
      ProcSame(s.pcs, s.plock, s.plist, p, s'.pcs[p]);
    }
  }

  lemma SleepTakesFreeLock(s: State, p: Pid)
    requires p in s.pcs && CanAdvance(s, p)
    ensures s.pcs[p].SleepTakeP? ==> p !in s.plock
  {
  }

  lemma AdvanceSleepers(s: State, p: Pid)
    requires Inv(s) && p in s.pcs && CanAdvance(s, p)
    ensures var s' := Advanced(s, p); Sleepers(s'.pcs, s'.asleep)
  {
    var s' := Advanced(s, p);
    HolderOf(s, p);
    hide SpinLock, Ownership, ProcLocks, Sleepers, Listed, NoLostWakeup;
    SleepersMove(s.pcs, s.asleep, p, s'.pcs[p]);
    if s.pcs[p].ScanHas? {
      SleepersMove(s'.pcs, s.asleep, p, s'.pcs[p]);
    }
  }

  lemma AdvanceNoLost(s: State, p: Pid)
    requires Inv(s) && p in s.pcs && CanAdvance(s, p)
    ensures NoLostWakeup(Advanced(s, p))
  {
    var s' := Advanced(s, p);
    HolderOf(s, p);
    hide SpinLock, Ownership, ProcLocks, Sleepers, Listed, NoLostWakeup;
    if s.pcs[p].UnlockHasLk? {
      NoLostRelease(s, s', p);
    } else if s'.pcs[p].WakeEnd? {
      NoLostEnd(s, s', p);
    } else if s.pcs[p].ScanHas? {
      ScannedProcess(s, p);
      NoLostScan(s, s', p);
    } else if Waking(s.pcs[p]) {
      NoLostScan(s, s', p);
    } else {
      AdvanceElsewhere(s, p);
    }
  }

  lemma AdvanceElsewhere(s: State, p: Pid)
    requires Inv(s) && p in s.pcs && CanAdvance(s, p) && !Waking(s.pcs[p]) && !s.pcs[p].UnlockHasLk?
    ensures NoLostWakeup(Advanced(s, p))
  {
    HolderOf(s, p);
    hide SpinLock, Ownership, ProcLocks, Sleepers, Listed, NoLostWakeup;
    NoLostElsewhere(s, Advanced(s, p), p);
  }

  /** A process whose lock the scan holds is not on its way to sleep: it sleeps or not. */
  lemma ScannedProcess(s: State, p: Pid)
    requires Inv(s) && p in s.pcs && s.pcs[p].ScanHas?
    ensures s.pcs[p].i < |s.plist|
    ensures var q := s.plist[s.pcs[p].i]; q in s.pcs ==> !Committed(s.pcs[q], false)
  {
  }

  lemma AdvanceInv(s: State, p: Pid)
    requires Inv(s) && p in s.pcs && CanAdvance(s, p)
    ensures Inv(Advanced(s, p))
  {
    hide SpinLock, Ownership, ProcLocks, Sleepers, Listed, NoLostWakeup, Advanced;
    AdvanceSpin(s, p);
    AdvanceOwner(s, p);
    AdvanceProcLocks(s, p);
    AdvanceSleepers(s, p);
    AdvanceNoLost(s, p);
  }

  /** The steps in which one process moves, other than Advance. */
  lemma MoveInv(s: State, e: Step)
    requires Inv(s) && Enabled(s, e) && !e.Advance? && !e.Kick? && !e.Relist?
    ensures Inv(Apply(s, e))
  {
    hide Advanced, CanAdvance, SpinLock, Ownership, ProcLocks, Sleepers, Listed, NoLostWakeup;
    var s', p := Apply(s, e), e.p;
    var pc := s'.pcs[p];
    HolderOf(s, p);
    SpinMove(s.pcs, s.lk, p, pc);
    OwnerMove(s.pcs, s.owner, p, pc);
    ListedMove(s.pcs, s.plist, p, pc);
    SleepersMove(s.pcs, s.asleep, p, pc);
    MoveProcLocks(s, e);
    NoLostElsewhere(s, s', p);
  }

  lemma MoveProcLocks(s: State, e: Step)
    requires Inv(s) && Enabled(s, e) && !e.Advance? && !e.Kick? && !e.Relist?
    ensures ProcLocks(Apply(s, e).pcs, Apply(s, e).plock, s.plist)
  {
    hide Advanced, CanAdvance, SpinLock, Ownership, ProcLocks, Sleepers, Listed, NoLostWakeup;
    var pc := Apply(s, e).pcs[e.p];
    if e.SwitchOut? {
      ProcDropOwn(s.pcs, s.plock, s.plist, e.p, pc);
    } else if e.Resume? {
      ProcTakeOwn(s.pcs, s.plock, s.plist, e.p, pc);
    } else {
      ProcSame(s.pcs, s.plock, s.plist, e.p, pc);
    }
  }

  lemma StepInv(s: State, e: Step)
    requires Inv(s) && Enabled(s, e)
    ensures Inv(Apply(s, e))
  {
    if e.Advance? {
      AdvanceInv(s, e.p);
    } else if !e.Kick? && !e.Relist? {
      MoveInv(s, e);
    }
  }

  // ----- every run -----

  ghost predicate Initial(s: State) {
    (forall p :: p in s.pcs ==> s.pcs[p].Out?) && s.lk.None? && s.plock == map[] && s.owner.None? && s.asleep == {}
  }

  ghost predicate Run(states: seq<State>, steps: seq<Step>) {
    && |states| == |steps| + 1 && Initial(states[0])
    && forall i :: 0 <= i < |steps| ==> Enabled(states[i], steps[i]) && states[i + 1] == Apply(states[i], steps[i])
  }

  lemma {:induction false} RunInv(states: seq<State>, steps: seq<Step>, n: nat)
    requires Run(states, steps) && n <= |steps|
    ensures Inv(states[n])
  {
    if n > 0 {
      RunInv(states, steps, n - 1);
      StepInv(states[n - 1], steps[n - 1]);
    }
  }

  /** At most one process owns the lock: from setting `locked` in sleep_lock to clearing it in sleep_unlock. */
  lemma MutualExclusion(states: seq<State>, steps: seq<Step>, n: nat, p: Pid, q: Pid)
    requires Run(states, steps) && n <= |steps| && p in states[n].pcs && q in states[n].pcs
    requires IsOwner(states[n].pcs[p]) && IsOwner(states[n].pcs[q])
    ensures p == q && states[n].owner == Some(p)
  {
    RunInv(states, steps, n);
  }

  /** A process asleep on the lock: it is taken, or its releaser is in its wakeup and has not passed the process. */
  lemma WakeupAhead(states: seq<State>, steps: seq<Step>, n: nat, p: Pid)
    requires Run(states, steps) && n <= |steps| && p in states[n].asleep
    ensures var s := states[n];
      || (s.owner.Some? && s.owner.value in s.pcs && IsOwner(s.pcs[s.owner.value]))
      || (exists q :: q in s.pcs && q != p && Coming(s.pcs[q], s.plist, p))
  {
    RunInv(states, steps, n);
    var s := states[n];
    if s.owner.None? {
      var q := s.lk.value;
      assert q in s.pcs && q != p && Coming(s.pcs[q], s.plist, p);
    }
  }

  /** So nobody is left asleep on a lock that is free and that nobody is releasing. */
  lemma NobodyLeftAsleep(states: seq<State>, steps: seq<Step>, n: nat)
    requires Run(states, steps) && n <= |steps| && states[n].owner.None? && states[n].lk.None?
    ensures states[n].asleep == {}
  {
    forall p | p in states[n].asleep ensures false {
      WakeupAhead(states, steps, n, p);
      RunInv(states, steps, n);
    }
  }
}
