/**
 The scheduler (scheduler.c) and the kernel side of a context switch (sched, yield, sleep,
 wakeup, exit and wait in proc.c) on any number of CPUs.  A process's lock is taken on one
 side of a context switch and released on the other.
*/
module Scheduler {
  import opened Common

  type Pid = nat
  type Cpu = nat

  /** What a CPU does inside a process. */
  datatype Act =
    | Resumed              // just switched in: holds the process's own lock
    | Running
    | Waking(q: Pid)       // in wakeup, holding q's lock
    | Locked               // in yield, sleep or exit: holds its own lock
    | LockedWaking(q: Pid) // in exit: holds its own lock and q's
    | Leaving              // state changed, about to switch to the scheduler

  datatype Pc =
    | Sched                     // top of the scheduler loop
    | SchedWaking(q: Pid)       // timer wakeup from the scheduler
    | Scan(i: nat)              // get_next_runnable_process, with the list's write lock
    | ScanHas(i: nat, p: Pid)   // its trylock succeeded
    | Picked(p: Pid)            // returned a locked process
    | Loaded(p: Pid)            // state = RUNNING, about to switch
    | In(p: Pid, act: Act)      // executing the process
    | Back(p: Pid)              // switched back, still holding the lock

  /** on: which CPU runs a process.  saved: processes whose context is in memory, complete. */
  datatype State = State(cpus: map<Cpu, Pc>, plock: map<Pid, Cpu>, st: map<Pid, Status>, plist: seq<Pid>,
                         scanner: Option<Cpu>, on: map<Pid, Cpu>, saved: set<Pid>)

  function Held(pc: Pc): set<Pid> {
    match pc
    case Sched => {}
    case SchedWaking(q) => {q}
    case Scan(_) => {}
    case ScanHas(_, p) => {p}
    case Picked(p) => {p}
    case Loaded(p) => {p}
    case In(p, act) =>
      (match act
       case Running => {}
       case Waking(q) => {q}
       case LockedWaking(q) => {p, q}
       case _ => {p})
    case Back(p) => {p}
  }

  function Exec(pc: Pc): Option<Pid> {
    if pc.Loaded? || pc.In? then Some(pc.p) else None
  }

  predicate Scans(pc: Pc) {
    pc.Scan? || pc.ScanHas?
  }

  // ----- the invariant -----

  ghost predicate LocksOk(cpus: map<Cpu, Pc>, plock: map<Pid, Cpu>) {
    && (forall c, p {:trigger p in Held(cpus[c])} :: c in cpus && p in Held(cpus[c]) ==> p in plock && plock[p] == c)
    && (forall p :: p in plock ==> plock[p] in cpus && p in Held(cpus[plock[p]]))
  }

  /** What a process's state says about the CPU at it. */
  predicate Agrees(pc: Pc, st: map<Pid, Status>) {
    match pc
    case Picked(p) => p in st && st[p] == RUNNABLE
    case Loaded(p) => p in st && st[p] == RUNNING
    case In(p, act) => p in st && (st[p] == RUNNING <==> act != Leaving) && act != LockedWaking(p)
    case Back(p) => p in st && st[p] != RUNNING
    case _ => true
  }

  ghost predicate StatesOk(cpus: map<Cpu, Pc>, st: map<Pid, Status>) {
    forall c :: c in cpus ==> Agrees(cpus[c], st)
  }

  ghost predicate OnOk(cpus: map<Cpu, Pc>, on: map<Pid, Cpu>) {
    && (forall c :: c in cpus && Exec(cpus[c]).Some? ==> Exec(cpus[c]).value in on && on[Exec(cpus[c]).value] == c)
    && (forall p :: p in on ==> on[p] in cpus && Exec(cpus[on[p]]) == Some(p))
  }

  ghost predicate RunningIsOn(st: map<Pid, Status>, on: map<Pid, Cpu>) {
    && (forall p :: p in st && st[p] == RUNNING ==> p in on)
    && (forall p :: p in on ==> p in st)
  }

  /** A context is in memory exactly when no CPU executes it. */
  ghost predicate SavedOk(cpus: map<Cpu, Pc>, st: map<Pid, Status>, on: map<Pid, Cpu>, saved: set<Pid>) {
    forall p :: p in st ==> (p in saved <==> !(p in on && on[p] in cpus && cpus[on[p]].In?))
  }

  ghost predicate ListOk(cpus: map<Cpu, Pc>, st: map<Pid, Status>, plist: seq<Pid>, scanner: Option<Cpu>) {
    && NoDup(plist) && (forall p :: p in plist ==> p in st)
    && (forall c :: c in cpus && Scans(cpus[c]) ==> scanner == Some(c) && cpus[c].i <= |plist|)
    && (forall c :: c in cpus && cpus[c].ScanHas? ==> cpus[c].i < |plist| && plist[cpus[c].i] == cpus[c].p)
    && (scanner.Some? ==> scanner.value in cpus && Scans(cpus[scanner.value]))
  }

  /** The list's read and write lock: nobody wakes processes while a scheduler scans the list. */
  ghost predicate ReadersOk(cpus: map<Cpu, Pc>, scanner: Option<Cpu>) {
    scanner.Some? ==> NoReader(cpus)
  }

  ghost predicate Inv(s: State) {
    && LocksOk(s.cpus, s.plock) && StatesOk(s.cpus, s.st) && OnOk(s.cpus, s.on) && RunningIsOn(s.st, s.on)
    && SavedOk(s.cpus, s.st, s.on, s.saved) && ListOk(s.cpus, s.st, s.plist, s.scanner)
    && ReadersOk(s.cpus, s.scanner)
  }

  // ----- the steps -----

  datatype Step =
    | StartScan(c: Cpu)
    | ScanStep(c: Cpu)                // trylock of the next process, or the end of the list
    | ScanTest(c: Cpu)                // RUNNABLE: move to the tail and return; else unlock
    | Load(c: Cpu)
    | SwitchTo(c: Cpu)
    | Unlock(c: Cpu)                  // the process releases the lock the scheduler took
    | LockSelf(c: Cpu)
    | Change(c: Cpu, to: Status)      // yield, sleep or exit
    | SwitchBack(c: Cpu)
    | Finish(c: Cpu)                  // the scheduler releases the lock the process took
    | WakeTake(c: Cpu, q: Pid)
    | WakeDone(c: Cpu, matches: bool) // does the process sleep on that channel?
    | Fork(c: Cpu, child: Pid)
    | Reap(c: Cpu, z: Pid)

  predicate MayWake(pc: Pc, q: Pid) {
    pc.Sched? || (pc.In? && (pc.act.Running? || pc.act.Locked?) && pc.p != q)
  }

  predicate Wakes(pc: Pc) {
    pc.SchedWaking? || (pc.In? && (pc.act.Waking? || pc.act.LockedWaking?))
  }

  /** No CPU has the list's read lock for a wakeup. */
  predicate NoReader(cpus: map<Cpu, Pc>) {
    forall c :: c in cpus ==> !Wakes(cpus[c])
  }

  /** StartScan, Fork and Reap take the list's write lock, WakeTake its read lock. */
  predicate Enabled(s: State, e: Step) {
    && e.c in s.cpus
    && var pc := s.cpus[e.c];
       match e
       case StartScan(_) => pc.Sched? && s.scanner.None? && NoReader(s.cpus)
       case ScanStep(_) => pc.Scan?
       case ScanTest(_) => pc.ScanHas? && pc.i < |s.plist| && pc.p in s.st
       case Load(_) => pc.Picked?
       case SwitchTo(_) => pc.Loaded?
       case Unlock(_) => pc.In? && pc.act.Resumed?
       case LockSelf(_) => pc.In? && pc.act.Running? && pc.p !in s.plock
       case Change(_, to) => pc.In? && pc.act.Locked? && to != RUNNING
       case SwitchBack(_) => pc.In? && pc.act.Leaving?
       case Finish(_) => pc.Back?
       case WakeTake(_, q) => MayWake(pc, q) && s.scanner.None? && q in s.plist && q !in s.plock
       case WakeDone(_, _) => Wakes(pc)
       case Fork(_, child) =>
         && pc.In? && pc.act.Running? && s.scanner.None? && NoReader(s.cpus)
         && child !in s.st && child !in s.plist && child !in s.plock
       case Reap(_, z) =>
         && pc.In? && pc.act.Running? && s.scanner.None? && NoReader(s.cpus)
         && z in s.plist && z in s.st && s.st[z] == ZOMBIE && z !in s.plock
  }

  function MoveToTail(l: seq<Pid>, i: nat): seq<Pid>
    requires i < |l|
  {
    l[..i] + l[i + 1..] + [l[i]]
  }

  function WakeTaken(pc: Pc, q: Pid): Pc
    requires MayWake(pc, q)
  {
    if pc.Sched? then SchedWaking(q) else In(pc.p, if pc.act.Running? then Waking(q) else LockedWaking(q))
  }

  function WakeGiven(pc: Pc): Pc
    requires Wakes(pc)
  {
    if pc.SchedWaking? then Sched else In(pc.p, if pc.act.Waking? then Running else Locked)
  }

  function Target(pc: Pc): Pid
    requires Wakes(pc)
  {
    if pc.SchedWaking? then pc.q else pc.act.q
  }

  function Woken(st: map<Pid, Status>, q: Pid, matches: bool): map<Pid, Status> {
    if matches && q in st && st[q] == SLEEPING then st[q := RUNNABLE] else st
  }

  function Apply(s: State, e: Step): State
    requires Enabled(s, e)
  {
    var c, pc := e.c, s.cpus[e.c];
    match e
    case StartScan(_) => s.(cpus := s.cpus[c := Scan(0)], scanner := Some(c))
    case ScanStep(_) =>
      if pc.i >= |s.plist| then s.(cpus := s.cpus[c := Sched], scanner := None)
      else if s.plist[pc.i] in s.plock then s.(cpus := s.cpus[c := Scan(pc.i + 1)])
      else s.(cpus := s.cpus[c := ScanHas(pc.i, s.plist[pc.i])], plock := s.plock[s.plist[pc.i] := c])
    case ScanTest(_) =>
      if s.st[pc.p] == RUNNABLE
      then s.(cpus := s.cpus[c := Picked(pc.p)], plist := MoveToTail(s.plist, pc.i), scanner := None)
      else s.(cpus := s.cpus[c := Scan(pc.i + 1)], plock := s.plock - {pc.p})
    case Load(_) => s.(cpus := s.cpus[c := Loaded(pc.p)], st := s.st[pc.p := RUNNING], on := s.on[pc.p := c])
    case SwitchTo(_) => s.(cpus := s.cpus[c := In(pc.p, Resumed)], saved := s.saved - {pc.p})
    case Unlock(_) => s.(cpus := s.cpus[c := In(pc.p, Running)], plock := s.plock - {pc.p})
    case LockSelf(_) => s.(cpus := s.cpus[c := In(pc.p, Locked)], plock := s.plock[pc.p := c])
    case Change(_, to) => s.(cpus := s.cpus[c := In(pc.p, Leaving)], st := s.st[pc.p := to])
    case SwitchBack(_) => s.(cpus := s.cpus[c := Back(pc.p)], saved := s.saved + {pc.p}, on := s.on - {pc.p})
    case Finish(_) => s.(cpus := s.cpus[c := Sched], plock := s.plock - {pc.p})
    case WakeTake(_, q) => s.(cpus := s.cpus[c := WakeTaken(pc, q)], plock := s.plock[q := c])
    case WakeDone(_, matches) =>
      s.(cpus := s.cpus[c := WakeGiven(pc)], plock := s.plock - {Target(pc)}, st := Woken(s.st, Target(pc), matches))
    case Fork(_, child) => s.(st := s.st[child := RUNNABLE], plist := s.plist + [child], saved := s.saved + {child})
    case Reap(_, z) => s.(st := s.st - {z}, plist := Without(s.plist, z), saved := s.saved - {z})
  }

  // ----- what a CPU's move does to each part of the invariant -----

  lemma LocksMove(cpus: map<Cpu, Pc>, plock: map<Pid, Cpu>, c: Cpu, pc: Pc)
    requires LocksOk(cpus, plock) && c in cpus
    ensures Held(pc) == Held(cpus[c]) ==> LocksOk(cpus[c := pc], plock)
    ensures forall p :: p !in plock && Held(pc) == Held(cpus[c]) + {p} ==> LocksOk(cpus[c := pc], plock[p := c])
    ensures forall p :: p in Held(cpus[c]) && Held(pc) == Held(cpus[c]) - {p} ==> LocksOk(cpus[c := pc], plock - {p})
  {
  }

  lemma OnMove(cpus: map<Cpu, Pc>, on: map<Pid, Cpu>, c: Cpu, pc: Pc)
    requires OnOk(cpus, on) && c in cpus
    ensures Exec(pc) == Exec(cpus[c]) ==> OnOk(cpus[c := pc], on)
    ensures Exec(cpus[c]).None? && Exec(pc).Some? && Exec(pc).value !in on ==>
      OnOk(cpus[c := pc], on[Exec(pc).value := c])
    ensures Exec(cpus[c]).Some? && Exec(pc).None? ==> OnOk(cpus[c := pc], on - {Exec(cpus[c]).value})
  {
  }

  lemma SavedMove(cpus: map<Cpu, Pc>, st: map<Pid, Status>, on: map<Pid, Cpu>, saved: set<Pid>, c: Cpu, pc: Pc)
    requires SavedOk(cpus, st, on, saved) && OnOk(cpus, on) && c in cpus
    ensures Exec(pc) == Exec(cpus[c]) && pc.In? == cpus[c].In? ==> SavedOk(cpus[c := pc], st, on, saved)
    ensures Exec(cpus[c]).None? && pc.Loaded? && pc.p !in on ==> SavedOk(cpus[c := pc], st, on[pc.p := c], saved)
    ensures cpus[c].Loaded? && pc.In? && pc.p == cpus[c].p ==> SavedOk(cpus[c := pc], st, on, saved - {pc.p})
    ensures cpus[c].In? && Exec(pc).None? ==> SavedOk(cpus[c := pc], st, on - {cpus[c].p}, saved + {cpus[c].p})
  {
  }

  lemma ListMove(cpus: map<Cpu, Pc>, st: map<Pid, Status>, plist: seq<Pid>, scanner: Option<Cpu>, c: Cpu, pc: Pc)
    requires ListOk(cpus, st, plist, scanner) && c in cpus
    ensures !Scans(cpus[c]) && !Scans(pc) ==> ListOk(cpus[c := pc], st, plist, scanner)
    ensures scanner.None? && pc == Scan(0) ==> ListOk(cpus[c := pc], st, plist, Some(c))
    ensures Scans(cpus[c]) && !Scans(pc) ==> ListOk(cpus[c := pc], st, plist, None)
    ensures Scans(cpus[c]) && pc.Scan? && pc.i <= |plist| ==> ListOk(cpus[c := pc], st, plist, scanner)
    ensures Scans(cpus[c]) && pc.ScanHas? && pc.i < |plist| && plist[pc.i] == pc.p ==>
      ListOk(cpus[c := pc], st, plist, scanner)
  {
  }

  lemma ReadersMove(cpus: map<Cpu, Pc>, scanner: Option<Cpu>, c: Cpu, pc: Pc)
    requires ReadersOk(cpus, scanner) && c in cpus
    ensures !Wakes(pc) ==> ReadersOk(cpus[c := pc], scanner)
    ensures !Wakes(pc) && NoReader(cpus) ==> ReadersOk(cpus[c := pc], Some(c))
    ensures ReadersOk(cpus[c := pc], None)
  {
  }

  /** Whoever holds a process's lock may change its state, if the process runs nowhere else. */
  lemma StateChange(cpus: map<Cpu, Pc>, plock: map<Pid, Cpu>, st: map<Pid, Status>, on: map<Pid, Cpu>, c: Cpu, pc: Pc,
                    p: Pid, to: Status)
    requires LocksOk(cpus, plock) && StatesOk(cpus, st) && OnOk(cpus, on) && c in cpus && p in st && p in Held(cpus[c])
    requires st[p] != RUNNING || Exec(cpus[c]) == Some(p)
    requires Agrees(pc, st[p := to])
    ensures StatesOk(cpus[c := pc], st[p := to])
  {
    forall d | d in cpus && d != c ensures Agrees(cpus[d], st[p := to]) {
      assert Agrees(cpus[d], st);
      assert p !in Held(cpus[d]);
      assert Exec(cpus[c]) == Some(p) ==> Exec(cpus[d]) != Some(p);
    }
  }

  lemma StatesMove(cpus: map<Cpu, Pc>, st: map<Pid, Status>, c: Cpu, pc: Pc)
    requires StatesOk(cpus, st) && c in cpus && Agrees(pc, st)
    ensures StatesOk(cpus[c := pc], st)
  {
  }

  /** A process with a free lock that is not RUNNING is on no CPU. */
  lemma FreeIsOff(s: State, p: Pid)
    requires Inv(s) && p in s.st && s.st[p] != RUNNING && p !in s.plock
    ensures p !in s.on && p in s.saved && forall c :: c in s.cpus ==> Exec(s.cpus[c]) != Some(p)
  {
    forall c | c in s.cpus ensures Exec(s.cpus[c]) != Some(p) {
      assert Agrees(s.cpus[c], s.st);
      assert p !in Held(s.cpus[c]);
    }
  }

  lemma MovedNoDup(l: seq<Pid>, i: nat)
    requires NoDup(l) && i < |l|
    ensures NoDup(MoveToTail(l, i)) && forall x :: x in MoveToTail(l, i) <==> x in l
  {
    var m := MoveToTail(l, i);
    forall j, k | 0 <= j < k < |m| ensures m[j] != m[k] {
      var j' := if j < i then j else j + 1;
      var k' := if k < i then k else if k < |l| - 1 then k + 1 else i;
      assert m[j] == l[j'] && m[k] == l[k'];
    }
    forall x | x in l ensures x in m {
      var j :| 0 <= j < |l| && l[j] == x;
      assert x == m[if j < i then j else if j == i then |l| - 1 else j - 1];
    }
    forall x | x in m ensures x in l {
      var j :| 0 <= j < |m| && m[j] == x;
      assert x == l[if j < i then j else if j < |l| - 1 then j + 1 else i];
    }
  }

  // ----- every step keeps the invariant -----

  lemma ScanInv(s: State, e: Step)
    requires Inv(s) && Enabled(s, e) && (e.StartScan? || e.ScanStep? || e.ScanTest?)
    ensures Inv(Apply(s, e))
  {
    hide LocksOk, StatesOk, OnOk, RunningIsOn, SavedOk, ReadersOk, NoReader;
    var s' := Apply(s, e);
    var c, pc := e.c, s'.cpus[e.c];
    assert s'.cpus == s.cpus[c := pc];
    AgreesAt(s, c);
    LocksMove(s.cpus, s.plock, c, pc);
    OnMove(s.cpus, s.on, c, pc);
    StatesMove(s.cpus, s.st, c, pc);
    SavedMove(s.cpus, s.st, s.on, s.saved, c, pc);
    ListMove(s.cpus, s.st, s.plist, s.scanner, c, pc);
    ReadersMove(s.cpus, s.scanner, c, pc);
    if e.ScanTest? && pc.Picked? {
      MovedNoDup(s.plist, s.cpus[c].i);
    }
  }

  lemma AgreesAt(s: State, c: Cpu)
    requires Inv(s) && c in s.cpus
    ensures Agrees(s.cpus[c], s.st)
    ensures forall p :: p in Held(s.cpus[c]) ==> p in s.plock && s.plock[p] == c
    ensures Exec(s.cpus[c]).Some? ==> Exec(s.cpus[c]).value in s.on && s.on[Exec(s.cpus[c]).value] == c
  {
  }

  /** The steps of one process and its CPU that change neither the list nor who runs. */
  lemma PlainInv(s: State, e: Step)
    requires Inv(s) && Enabled(s, e) && (e.Unlock? || e.LockSelf? || e.Finish? || e.WakeTake?)
    ensures Inv(Apply(s, e))
  {
    hide LocksOk, StatesOk, OnOk, RunningIsOn, SavedOk, ListOk, ReadersOk, NoReader;
    var s' := Apply(s, e);
    var c, pc := e.c, s'.cpus[e.c];
    AgreesAt(s, c);
    LocksMove(s.cpus, s.plock, c, pc);
    OnMove(s.cpus, s.on, c, pc);
    StatesMove(s.cpus, s.st, c, pc);
    SavedMove(s.cpus, s.st, s.on, s.saved, c, pc);
    ListMove(s.cpus, s.st, s.plist, s.scanner, c, pc);
    ReadersMove(s.cpus, s.scanner, c, pc);
  }

  lemma SwitchInv(s: State, e: Step)
    requires Inv(s) && Enabled(s, e) && (e.SwitchTo? || e.SwitchBack?)
    ensures Inv(Apply(s, e))
  {
    hide LocksOk, StatesOk, OnOk, SavedOk, ListOk, ReadersOk, NoReader;
    var s' := Apply(s, e);
    var c, pc := e.c, s'.cpus[e.c];
    AgreesAt(s, c);
    LocksMove(s.cpus, s.plock, c, pc);
    OnMove(s.cpus, s.on, c, pc);
    StatesMove(s.cpus, s.st, c, pc);
    SavedMove(s.cpus, s.st, s.on, s.saved, c, pc);
    ListMove(s.cpus, s.st, s.plist, s.scanner, c, pc);
    ReadersMove(s.cpus, s.scanner, c, pc);
  }

  lemma LoadInv(s: State, e: Step)
    requires Inv(s) && Enabled(s, e) && e.Load?
    ensures Inv(Apply(s, e))
  {
    var c, p := e.c, s.cpus[e.c].p;
    AgreesAt(s, c);
    PickedIsOff(s, c);
    hide LocksOk, StatesOk, OnOk, SavedOk, ListOk, ReadersOk, NoReader;
    LocksMove(s.cpus, s.plock, c, Loaded(p));
    OnMove(s.cpus, s.on, c, Loaded(p));
    StateChange(s.cpus, s.plock, s.st, s.on, c, Loaded(p), p, RUNNING);
    SavedMove(s.cpus, s.st, s.on, s.saved, c, Loaded(p));
    ListMove(s.cpus, s.st, s.plist, s.scanner, c, Loaded(p));
    ReadersMove(s.cpus, s.scanner, c, Loaded(p));
    SameKeys(s, Apply(s, e).cpus, s.st[p := RUNNING], s.on[p := c]);
  }

  lemma PickedIsOff(s: State, c: Cpu)
    requires Inv(s) && c in s.cpus && s.cpus[c].Picked?
    ensures s.cpus[c].p !in s.on
  {
    var p := s.cpus[c].p;
    assert Agrees(s.cpus[c], s.st) && p in Held(s.cpus[c]);
    forall d | d in s.cpus ensures Exec(s.cpus[d]) != Some(p) {
      assert Agrees(s.cpus[d], s.st);
      assert p in Held(s.cpus[d]) ==> d == c;
    }
  }

  /** Only which processes exist matters to the saved contexts and the list. */
  lemma SameKeys(s: State, cpus: map<Cpu, Pc>, st': map<Pid, Status>, on: map<Pid, Cpu>)
    requires st'.Keys == s.st.Keys
    ensures SavedOk(cpus, s.st, on, s.saved) ==> SavedOk(cpus, st', on, s.saved)
    ensures forall l, k :: ListOk(cpus, s.st, l, k) ==> ListOk(cpus, st', l, k)
  {
  }

  lemma ChangeInv(s: State, e: Step)
    requires Inv(s) && Enabled(s, e) && e.Change?
    ensures Inv(Apply(s, e))
  {
    var c, p := e.c, s.cpus[e.c].p;
    AgreesAt(s, c);
    hide LocksOk, StatesOk, OnOk, SavedOk, ListOk, ReadersOk, NoReader;
    var pc := In(p, Leaving);
    LocksMove(s.cpus, s.plock, c, pc);
    OnMove(s.cpus, s.on, c, pc);
    StateChange(s.cpus, s.plock, s.st, s.on, c, pc, p, e.to);
    SavedMove(s.cpus, s.st, s.on, s.saved, c, pc);
    ListMove(s.cpus, s.st, s.plist, s.scanner, c, pc);
    ReadersMove(s.cpus, s.scanner, c, pc);
    SameKeys(s, s.cpus[c := pc], s.st[p := e.to], s.on);
  }

  lemma WakeInv(s: State, e: Step)
    requires Inv(s) && Enabled(s, e) && e.WakeDone?
    ensures Inv(Apply(s, e))
  {
    hide LocksOk, StatesOk, OnOk, SavedOk, ListOk, RunningIsOn, ReadersOk, NoReader;
    var c := e.c;
    AgreesAt(s, c);
    var pc, q := WakeGiven(s.cpus[c]), Target(s.cpus[c]);
    var st' := Woken(s.st, q, e.matches);
    WakeOther(s, c);
    WokenRuns(s.st, s.on, q, e.matches);
    LocksMove(s.cpus, s.plock, c, pc);
    OnMove(s.cpus, s.on, c, pc);
    if st' == s.st {
      StatesMove(s.cpus, s.st, c, pc);
    } else {
      StateChange(s.cpus, s.plock, s.st, s.on, c, pc, q, RUNNABLE);
    }
    SavedMove(s.cpus, s.st, s.on, s.saved, c, pc);
    ListMove(s.cpus, s.st, s.plist, s.scanner, c, pc);
    ReadersMove(s.cpus, s.scanner, c, pc);
    SameKeys(s, s.cpus[c := pc], st', s.on);
  }

  lemma WokenRuns(st: map<Pid, Status>, on: map<Pid, Cpu>, q: Pid, matches: bool)
    requires RunningIsOn(st, on)
    ensures RunningIsOn(Woken(st, q, matches), on) && Woken(st, q, matches).Keys == st.Keys
  {
    assert q in st ==> st[q := RUNNABLE].Keys == st.Keys;
  }

  /** A waker never wakes itself. */
  lemma WakeOther(s: State, c: Cpu)
    requires Inv(s) && c in s.cpus && Wakes(s.cpus[c])
    ensures Held(WakeGiven(s.cpus[c])) == Held(s.cpus[c]) - {Target(s.cpus[c])}
  {
  }

  lemma ForkInv(s: State, e: Step)
    requires Inv(s) && Enabled(s, e) && e.Fork?
    ensures Inv(Apply(s, e))
  {
    var s' := Apply(s, e);
    assert s'.plist[..|s.plist|] == s.plist;
    assert NoDup(s'.plist);
    forall c | c in s.cpus ensures Agrees(s.cpus[c], s'.st) {
      assert Agrees(s.cpus[c], s.st);
    }
  }

  lemma ReapInv(s: State, e: Step)
    requires Inv(s) && Enabled(s, e) && e.Reap?
    ensures Inv(Apply(s, e))
  {
    var s' := Apply(s, e);
    FreeIsOff(s, e.z);
    forall c | c in s.cpus ensures Agrees(s.cpus[c], s'.st) {
      assert Agrees(s.cpus[c], s.st);
      assert e.z !in Held(s.cpus[c]);
    }
  }

  lemma StepInv(s: State, e: Step)
    requires Inv(s) && Enabled(s, e)
    ensures Inv(Apply(s, e))
  {
    match e
    case StartScan(_) => ScanInv(s, e);
    case ScanStep(_) => ScanInv(s, e);
    case ScanTest(_) => ScanInv(s, e);
    case Load(_) => LoadInv(s, e);
    case SwitchTo(_) => SwitchInv(s, e);
    case Unlock(_) => PlainInv(s, e);
    case LockSelf(_) => PlainInv(s, e);
    case Change(_, _) => ChangeInv(s, e);
    case SwitchBack(_) => SwitchInv(s, e);
    case Finish(_) => PlainInv(s, e);
    case WakeTake(_, _) => PlainInv(s, e);
    case WakeDone(_, _) => WakeInv(s, e);
    case Fork(_, _) => ForkInv(s, e);
    case Reap(_, _) => ReapInv(s, e);
  }

  // ----- every run -----

  /** Every CPU in its scheduler, every process waiting to be run. */
  ghost predicate Initial(s: State) {
    && (forall c :: c in s.cpus ==> s.cpus[c].Sched?) && s.plock == map[] && s.on == map[] && s.scanner.None?
    && NoDup(s.plist) && (forall p :: p in s.plist ==> p in s.st)
    && (forall p :: p in s.st ==> p in s.saved && s.st[p] == RUNNABLE)
  }

  ghost predicate Run(states: seq<State>, steps: seq<Step>) {
    && |states| == |steps| + 1 && Initial(states[0])
    && forall i :: 0 <= i < |steps| ==> Enabled(states[i], steps[i]) && states[i + 1] == Apply(states[i], steps[i])
  }

  lemma {:induction false} RunInv(states: seq<State>, steps: seq<Step>, n: nat)
    requires Run(states, steps) && n <= |steps|
    ensures Inv(states[n])
  {
    if n > 0 {
      RunInv(states, steps, n - 1);
      hide Inv, Apply, Enabled;
      StepInv(states[n - 1], steps[n - 1]);
    }
  }

  /** No two CPUs ever execute one process. */
  lemma OneCpu(states: seq<State>, steps: seq<Step>, n: nat, c: Cpu, d: Cpu)
    requires Run(states, steps) && n <= |steps| && c in states[n].cpus && d in states[n].cpus
    requires states[n].cpus[c].In? && states[n].cpus[d].In? && states[n].cpus[c].p == states[n].cpus[d].p
    ensures c == d
  {
    RunInv(states, steps, n);
    assert Exec(states[n].cpus[c]) == Exec(states[n].cpus[d]) == Some(states[n].cpus[c].p);
  }

  /** A process that is not RUNNING and whose lock is free is on no CPU and its context is complete. */
  lemma FreeMeansOff(states: seq<State>, steps: seq<Step>, n: nat, p: Pid)
    requires Run(states, steps) && n <= |steps| && p in states[n].st && states[n].st[p] != RUNNING
    requires p !in states[n].plock
    ensures p in states[n].saved && forall c :: c in states[n].cpus ==> Exec(states[n].cpus[c]) != Some(p)
  {
    RunInv(states, steps, n);
    FreeIsOff(states[n], p);
  }

  /** The context a scheduler switches to was stored completely and is nobody else's. */
  lemma LoadsSavedContext(states: seq<State>, steps: seq<Step>, n: nat)
    requires Run(states, steps) && n < |steps| && steps[n].SwitchTo?
    ensures var s := states[n]; var p := s.cpus[steps[n].c].p;
      p in s.saved && forall d :: d in s.cpus && d != steps[n].c ==> Exec(s.cpus[d]) != Some(p)
  {
    RunInv(states, steps, n);
    var s := states[n];
    var c := steps[n].c;
    AgreesAt(s, c);
    assert Exec(s.cpus[c]) == Some(s.cpus[c].p);
    forall d | d in s.cpus && d != c ensures Exec(s.cpus[d]) != Some(s.cpus[c].p) {
      assert s.on[s.cpus[c].p] == c;
    }
  }

  /** A process is freed by wait only when no CPU executes it or is inside its context switch. */
  lemma ReapsOffCpu(states: seq<State>, steps: seq<Step>, n: nat)
    requires Run(states, steps) && n < |steps| && steps[n].Reap?
    ensures forall c ::
      c in states[n].cpus ==> Exec(states[n].cpus[c]) != Some(steps[n].z) && states[n].cpus[c] != Back(steps[n].z)
  {
    RunInv(states, steps, n);
    FreeIsOff(states[n], steps[n].z);
    forall c | c in states[n].cpus ensures states[n].cpus[c] != Back(steps[n].z) {
      assert steps[n].z !in Held(states[n].cpus[c]);
    }
  }

  // ----- fairness -----

  /** How many processes are ahead of q in the list. */
  function Ahead(l: seq<Pid>, q: Pid): (n: nat)
    requires q in l
    ensures n < |l| && l[n] == q && q !in l[..n]
  {
    if l[0] == q then 0 else 1 + Ahead(l[1..], q)
  }

  lemma AheadIs(l: seq<Pid>, q: Pid, n: nat)
    requires q in l && n < |l| && l[n] == q && NoDup(l)
    ensures Ahead(l, q) == n
  {
  }

  /** Waiting to be picked: RUNNABLE, and locked by nobody but perhaps a waker that looks at it. */
  predicate Ready(s: State, q: Pid) {
    && q in s.plist && q in s.st && s.st[q] == RUNNABLE
    && (q in s.plock ==> s.plock[q] in s.cpus && Wakes(s.cpus[s.plock[q]]))
  }

  /** No scan in progress has gone past q. */
  predicate NotPassed(s: State, q: Pid) {
    && q in s.plist
    && (s.scanner.Some? ==>
      && s.scanner.value in s.cpus && Scans(s.cpus[s.scanner.value])
      && s.cpus[s.scanner.value].i <= Ahead(s.plist, q))
  }

  /** A scan that has gone past q, while q was locked, may still pick one process behind it: LateOrigin. */
  function Late(s: State, q: Pid): nat {
    if NotPassed(s, q) then 0 else 1
  }

  /** get_next_runnable_process returns a process. */
  predicate IsPick(s: State, e: Step)
    requires Enabled(s, e)
  {
    e.ScanTest? && s.st[s.cpus[e.c].p] == RUNNABLE
  }

  lemma AheadAfterPick(l: seq<Pid>, i: nat, q: Pid)
    requires NoDup(l) && q in l && i < Ahead(l, q)
    ensures q in MoveToTail(l, i) && Ahead(MoveToTail(l, i), q) == Ahead(l, q) - 1
  {
    var n := Ahead(l, q);
    MovedNoDup(l, i);
    assert MoveToTail(l, i)[n - 1] == l[n];
    AheadIs(MoveToTail(l, i), q, n - 1);
  }

  lemma AheadAfterLatePick(l: seq<Pid>, i: nat, q: Pid)
    requires NoDup(l) && q in l && Ahead(l, q) < i < |l|
    ensures q in MoveToTail(l, i) && Ahead(MoveToTail(l, i), q) == Ahead(l, q)
  {
    var n := Ahead(l, q);
    MovedNoDup(l, i);
    assert MoveToTail(l, i)[n] == l[n];
    AheadIs(MoveToTail(l, i), q, n);
  }

  lemma AheadAfterFork(l: seq<Pid>, child: Pid, q: Pid)
    requires NoDup(l) && q in l && child !in l
    ensures q in l + [child] && Ahead(l + [child], q) == Ahead(l, q)
  {
    assert (l + [child])[Ahead(l, q)] == q;
    AheadIs(l + [child], q, Ahead(l, q));
  }

  lemma {:induction false} AheadAfterReap(l: seq<Pid>, z: Pid, q: Pid)
    requires q in l && q != z
    ensures q in Without(l, z) && Ahead(Without(l, z), q) <= Ahead(l, q)
  {
    if l[0] == z {
      AheadAfterReap(l[1..], z, q);
    } else if l[0] != q {
      AheadAfterReap(l[1..], z, q);
      assert ([l[0]] + Without(l[1..], z))[1..] == Without(l[1..], z);
    }
  }

  /**
   A process that stays ready never falls back, and moves up with every pick of another,
   but for the one pick of a scan that went past it before.
  */
  lemma Patience(s: State, e: Step, q: Pid)
    requires Inv(s) && Enabled(s, e) && Ready(s, q) && Ready(Apply(s, e), q)
    ensures var s' := Apply(s, e);
      (if IsPick(s, e) then 1 else 0) + Ahead(s'.plist, q) + Late(s', q) <= Ahead(s.plist, q) + Late(s, q)
    ensures Ahead(Apply(s, e).plist, q) <= Ahead(s.plist, q) && (NotPassed(s, q) ==> NotPassed(Apply(s, e), q))
  {
    if e.ScanStep? || e.ScanTest? || e.StartScan? {
      ScanPatience(s, e, q);
    } else if e.Fork? {
      AheadAfterFork(s.plist, e.child, q);
    } else if e.Reap? {
      AheadAfterReap(s.plist, e.z, q);
    }
  }

  lemma ScanPatience(s: State, e: Step, q: Pid)
    requires Inv(s) && Enabled(s, e) && Ready(s, q) && Ready(Apply(s, e), q)
    requires e.ScanStep? || e.ScanTest? || e.StartScan?
    ensures var s' := Apply(s, e);
      (if IsPick(s, e) then 1 else 0) + Ahead(s'.plist, q) + Late(s', q) <= Ahead(s.plist, q) + Late(s, q)
    ensures Ahead(Apply(s, e).plist, q) <= Ahead(s.plist, q) && (NotPassed(s, q) ==> NotPassed(Apply(s, e), q))
  {
    hide OnOk, StatesOk, RunningIsOn, SavedOk, LocksOk, Ahead, NoDup;
    ScannerFacts(s, e.c);
    if e.ScanTest? {
      var pc := s.cpus[e.c];
      if s.st[pc.p] == RUNNABLE {
        if pc.i < Ahead(s.plist, q) {
          AheadAfterPick(s.plist, pc.i, q);
        } else {
          AheadAfterLatePick(s.plist, pc.i, q);
        }
      }
    }
  }

  /** Every pick of another process moves q up by one, exactly unless the scan had gone past q. */
  lemma PickMovesUp(s: State, e: Step, q: Pid)
    requires Inv(s) && Enabled(s, e) && Ready(s, q) && Ready(Apply(s, e), q) && IsPick(s, e)
    ensures Ahead(Apply(s, e).plist, q) == Ahead(s.plist, q) - 1 <==> NotPassed(s, q)
    ensures Ahead(Apply(s, e).plist, q) == Ahead(s.plist, q) <==> Late(s, q) == 1
  {
    hide OnOk, StatesOk, RunningIsOn, SavedOk, LocksOk, Ahead, NoDup, ReadersOk;
    ScannerFacts(s, e.c);
    var pc := s.cpus[e.c];
    if pc.i < Ahead(s.plist, q) {
      AheadAfterPick(s.plist, pc.i, q);
    } else {
      AheadAfterLatePick(s.plist, pc.i, q);
    }
  }

  lemma ScannerFacts(s: State, c: Cpu)
    requires Inv(s) && c in s.cpus
    ensures Scans(s.cpus[c]) ==> s.scanner == Some(c) && NoDup(s.plist)
    ensures s.cpus[c].ScanHas? ==> s.cpus[c].p in s.plock && s.plock[s.cpus[c].p] == c
    ensures s.cpus[c].ScanHas? ==> s.cpus[c].i < |s.plist| && s.plist[s.cpus[c].i] == s.cpus[c].p
  {
    assert s.cpus[c].ScanHas? ==> s.cpus[c].p in Held(s.cpus[c]);
  }

  /** The picks among steps a to b. */
  ghost function Picks(states: seq<State>, steps: seq<Step>, a: nat, b: nat): nat
    requires Run(states, steps) && a <= b <= |steps|
  {
    if a == b then 0 else Picks(states, steps, a, b - 1) + if IsPick(states[b - 1], steps[b - 1]) then 1 else 0
  }

  /**
   While a process is ready there are at most as many picks as processes were ahead of it,
   and one more if a scan had already gone past it: with one pick beyond that it has been
   chosen, whatever else happens.
  */
  lemma {:induction false} Fairness(states: seq<State>, steps: seq<Step>, a: nat, b: nat, q: Pid)
    requires Run(states, steps) && a <= b <= |steps|
    requires forall i :: a <= i <= b ==> Ready(states[i], q)
    ensures q in states[a].plist && q in states[b].plist
    ensures Picks(states, steps, a, b) + Ahead(states[b].plist, q) + Late(states[b], q)
         <= Ahead(states[a].plist, q) + Late(states[a], q)
  {
    hide Apply, Enabled, Inv, IsPick, Initial, Ahead, Late;
    assert Ready(states[a], q) && Ready(states[b], q);
    if a < b {
      Fairness(states, steps, a, b - 1, q);
      RunInv(states, steps, b - 1);
      assert states[b - 1 + 1] == Apply(states[b - 1], steps[b - 1]);
      Patience(states[b - 1], steps[b - 1], q);
    }
  }

  /** A scan has locked q, which it will find RUNNABLE. */
  predicate Taken(s: State, q: Pid) {
    && s.scanner.Some? && s.scanner.value in s.cpus && s.cpus[s.scanner.value].ScanHas?
    && s.cpus[s.scanner.value].p == q && q in s.st && s.st[q] == RUNNABLE
  }

  predicate IsPickOf(s: State, e: Step, q: Pid)
    requires Enabled(s, e)
  {
    IsPick(s, e) && s.cpus[e.c].p == q
  }

  /** A process stops waiting only by being picked: nothing else is done to it. */
  lemma OnlyTaken(s: State, e: Step, q: Pid)
    requires Inv(s) && Enabled(s, e) && Ready(s, q) && !Ready(Apply(s, e), q)
    ensures Taken(Apply(s, e), q) && !IsPick(s, e)
  {
    hide StatesOk, OnOk, RunningIsOn, SavedOk;
    AgreesAt(s, e.c);
  }

  /** What a scan has locked it picks, and nobody else picks anything before. */
  lemma TakenIsPicked(s: State, e: Step, q: Pid)
    requires Inv(s) && Enabled(s, e) && Taken(s, q)
    ensures IsPickOf(s, e, q) || (Taken(Apply(s, e), q) && !IsPick(s, e))
  {
    hide OnOk, RunningIsOn, SavedOk;
    AgreesAt(s, e.c);
    ScannerFacts(s, s.scanner.value);
  }

  lemma TakenIsLocked(s: State, q: Pid)
    requires Inv(s) && Taken(s, q)
    ensures !Ready(s, q)
  {
    hide Inv;
    ScannerFacts(s, s.scanner.value);
  }

  /** Until it is picked a process waits, and the picks of others use up its places in the list. */
  lemma {:induction false} Waits(states: seq<State>, steps: seq<Step>, a: nat, b: nat, q: Pid)
    requires Run(states, steps) && a <= b <= |steps| && Ready(states[a], q)
    requires forall m :: a <= m < b ==> !IsPickOf(states[m], steps[m], q)
    ensures q in states[a].plist && (Ready(states[b], q) || Taken(states[b], q))
    ensures Ready(states[b], q) ==>
      && q in states[b].plist
      && Picks(states, steps, a, b) + Ahead(states[b].plist, q) + Late(states[b], q)
         <= Ahead(states[a].plist, q) + Late(states[a], q)
    ensures Picks(states, steps, a, b) <= Ahead(states[a].plist, q) + Late(states[a], q)
  {
    hide Apply, Enabled, Inv, IsPick, IsPickOf, Initial, Ahead, Late, Taken;
    if a < b {
      Waits(states, steps, a, b - 1, q);
      RunInv(states, steps, b - 1);
      var s, e := states[b - 1], steps[b - 1];
      assert states[b - 1 + 1] == Apply(s, e) && !IsPickOf(s, e, q);
      if !Ready(s, q) {
        TakenIsPicked(s, e, q);
        RunInv(states, steps, b);
        TakenIsLocked(states[b], q);
      } else if Ready(Apply(s, e), q) {
        Patience(s, e, q);
      } else {
        OnlyTaken(s, e, q);
      }
    }
  }

  /**
   From the moment a process is ready, wakers looking at it or not: as soon as there have
   been more picks than processes were ahead of it, and one more if a scan had gone past it,
   it has been picked.
  */
  lemma PickedInTime(states: seq<State>, steps: seq<Step>, a: nat, b: nat, q: Pid) returns (m: nat)
    requires Run(states, steps) && a <= b <= |steps| && Ready(states[a], q)
    requires Picks(states, steps, a, b) > Ahead(states[a].plist, q) + Late(states[a], q)
    ensures a <= m < b && IsPickOf(states[m], steps[m], q)
  {
    hide Apply, Enabled, Inv, IsPick, IsPickOf, Initial, Ahead, Late, Taken, Ready;
    if forall m :: a <= m < b ==> !IsPickOf(states[m], steps[m], q) {
      Waits(states, steps, a, b, q);
    }
    m :| a <= m < b && IsPickOf(states[m], steps[m], q);
  }

  // ----- who can be late -----

  /**
   A process becomes ready when it is woken, when it is forked, or when the CPU it yielded
   on gives up its lock.  Only the last can happen during a scan.
  */
  lemma BecomesReady(s: State, e: Step, q: Pid)
    requires Inv(s) && Enabled(s, e) && !Ready(s, q) && Ready(Apply(s, e), q)
    ensures match e
      case WakeDone(c, _) => Target(s.cpus[c]) == q && q in s.st && s.st[q] == SLEEPING
      case Fork(_, child) => child == q
      case Finish(c) => s.cpus[c] == Back(q)
      case _ => false
    ensures Late(Apply(s, e), q) == if e.Finish? then Late(s, q) else 0
  {
    hide StatesOk, OnOk, RunningIsOn, SavedOk, ListOk;
    AgreesAt(s, e.c);
  }

  /** A late process became ready by a yield, during a scan that had already gone past it, and was late ever since. */
  lemma {:induction false} LateOrigin(states: seq<State>, steps: seq<Step>, n: nat, q: Pid) returns (m: nat)
    requires Run(states, steps) && n <= |steps| && Ready(states[n], q) && Late(states[n], q) == 1
    ensures m < n && steps[m].c in states[m].cpus && steps[m].Finish? && states[m].cpus[steps[m].c] == Back(q)
    ensures states[m].scanner.Some? && Late(states[m], q) == 1
    ensures forall i :: m < i <= n ==> Ready(states[i], q) && Late(states[i], q) == 1
  {
    hide Inv, Apply, Enabled, Ready, Late;
    StartNotLate(states[0], q);
    RunInv(states, steps, n - 1);
    var s, e := states[n - 1], steps[n - 1];
    assert states[n - 1 + 1] == Apply(s, e);
    if Ready(s, q) {
      Patience(s, e, q);
      LateOrNot(s, q);
      LateOrNot(states[n], q);
      m := LateOrigin(states, steps, n - 1, q);
    } else {
      BecomesReady(s, e, q);
      YieldFacts(s, e, q);
      m := n - 1;
    }
  }

  lemma StartNotLate(s: State, q: Pid)
    requires Initial(s)
    ensures Ready(s, q) ==> Late(s, q) == 0
  {
  }

  lemma LateOrNot(s: State, q: Pid)
    ensures Late(s, q) == 1 <==> !NotPassed(s, q)
    ensures Late(s, q) == 0 || Late(s, q) == 1
  {
  }

  lemma YieldFacts(s: State, e: Step, q: Pid)
    requires Inv(s) && Enabled(s, e) && e.Finish? && s.cpus[e.c] == Back(q) && Late(s, q) == 1 && Ready(Apply(s, e), q)
    ensures e.c in s.cpus && s.scanner.Some?
  {
  }

  /** A process that was woken, forked or ready from the start waits for at most the processes ahead of it. */
  lemma WokenFairness(states: seq<State>, steps: seq<Step>, a: nat, b: nat, q: Pid)
    requires Run(states, steps) && a <= b <= |steps|
    requires forall i :: a <= i <= b ==> Ready(states[i], q)
    requires a > 0 ==> !Ready(states[a - 1], q) && !steps[a - 1].Finish?
    ensures q in states[a].plist && q in states[b].plist
    ensures Picks(states, steps, a, b) + Ahead(states[b].plist, q) <= Ahead(states[a].plist, q)
  {
    hide Apply, Enabled, Inv, IsPick, Ready, Late, Ahead;
    Fairness(states, steps, a, b, q);
    if a == 0 {
      StartNotLate(states[0], q);
    } else {
      RunInv(states, steps, a - 1);
      assert states[a - 1 + 1] == Apply(states[a - 1], steps[a - 1]);
      BecomesReady(states[a - 1], steps[a - 1], q);
    }
  }

  /**
   A run in which that is too little for a process that yields: process 5 forks process 6
   and yields on CPU 1; a scan on CPU 0 finds 5 still locked and goes on; CPU 1 unlocks 5,
   and the scan picks 6.
  */
  function LateState(k: nat): State {
    if k < 7 then LateStart(k) else LateEnd(k)
  }

  function LateStart(k: nat): State {
    var idle := State(map[0 := Sched, 1 := Sched], map[], map[5 := RUNNABLE], [5], None, map[], {5});
    var locked := idle.(plock := map[5 := 1]);
    var running := idle.(st := map[5 := RUNNING], on := map[5 := 1]);
    match k
    case 0 => idle
    case 1 => idle.(cpus := map[0 := Sched, 1 := Scan(0)], scanner := Some(1))
    case 2 => locked.(cpus := map[0 := Sched, 1 := ScanHas(0, 5)], scanner := Some(1))
    case 3 => locked.(cpus := map[0 := Sched, 1 := Picked(5)])
    case 4 => running.(cpus := map[0 := Sched, 1 := Loaded(5)], plock := map[5 := 1])
    case 5 => running.(cpus := map[0 := Sched, 1 := In(5, Resumed)], plock := map[5 := 1], saved := {})
    case _ => running.(cpus := map[0 := Sched, 1 := In(5, Running)], saved := {})
  }

  function LateEnd(k: nat): State {
    var both := map[5 := RUNNABLE, 6 := RUNNABLE];
    var forked := State(map[0 := Sched, 1 := In(5, Running)], map[], map[5 := RUNNING, 6 := RUNNABLE], [5, 6], None,
                        map[5 := 1], {6});
    var leaving := forked.(st := both, plock := map[5 := 1]);
    var yielded := forked.(st := both, on := map[], saved := {5, 6}, scanner := Some(0));
    match k
    case 7 => forked
    case 8 => forked.(cpus := map[0 := Sched, 1 := In(5, Locked)], plock := map[5 := 1])
    case 9 => leaving.(cpus := map[0 := Sched, 1 := In(5, Leaving)])
    case 10 => leaving.(cpus := map[0 := Scan(0), 1 := In(5, Leaving)], scanner := Some(0))
    case 11 => leaving.(cpus := map[0 := Scan(1), 1 := In(5, Leaving)], scanner := Some(0))
    case 12 => yielded.(cpus := map[0 := Scan(1), 1 := Back(5)], plock := map[5 := 1])
    case 13 => yielded.(cpus := map[0 := Scan(1), 1 := Sched])
    case 14 => yielded.(cpus := map[0 := ScanHas(1, 6), 1 := Sched], plock := map[6 := 0])
    case _ => yielded.(cpus := map[0 := Picked(6), 1 := Sched], plock := map[6 := 0], scanner := None)
  }

  function LateSteps(): seq<Step> {
    [StartScan(1), ScanStep(1), ScanTest(1), Load(1), SwitchTo(1), Unlock(1), Fork(1, 6), LockSelf(1),
     Change(1, RUNNABLE), StartScan(0), ScanStep(0), SwitchBack(1), Finish(1), ScanStep(0), ScanTest(0)]
  }

  lemma LateApplied(k: nat)
    requires k < 15
    ensures Enabled(LateState(k), LateSteps()[k]) && Apply(LateState(k), LateSteps()[k]) == LateState(k + 1)
  {
    if k < 4 {
      LatePicked(k);
    } else if k < 8 {
      LateRunning(k);
    } else if k < 12 {
      LateYields(k);
    } else {
      LateScan(k);
    }
  }

  lemma LatePicked(k: nat)
    requires k < 4
    ensures Enabled(LateStart(k), LateSteps()[k]) && Apply(LateStart(k), LateSteps()[k]) == LateStart(k + 1)
  {
    assert MoveToTail([5], 0) == [5];
  }

  lemma LateRunning(k: nat)
    requires 4 <= k < 8
    ensures Enabled(LateState(k), LateSteps()[k]) && Apply(LateState(k), LateSteps()[k]) == LateState(k + 1)
  {
  }

  lemma LateYields(k: nat)
    requires 8 <= k < 12
    ensures Enabled(LateEnd(k), LateSteps()[k]) && Apply(LateEnd(k), LateSteps()[k]) == LateEnd(k + 1)
  {
  }

  lemma LateScan(k: nat)
    requires 12 <= k < 15
    ensures Enabled(LateEnd(k), LateSteps()[k]) && Apply(LateEnd(k), LateSteps()[k]) == LateEnd(k + 1)
    ensures IsPick(LateEnd(k), LateSteps()[k]) <==> k == 14
  {
    assert MoveToTail([5, 6], 1) == [5, 6];
  }

  lemma LateReady(k: nat)
    requires 13 <= k <= 15
    ensures Ready(LateState(k), 5) && 5 in LateState(k).plist && Ahead(LateState(k).plist, 5) == 0
    ensures k == 13 ==> Late(LateState(k), 5) == 1
  {
  }

  lemma LateInitial()
    ensures Initial(LateState(0))
  {
  }

  /** The bound is reached: process 5 is ready at the head of the list, and another one is picked first. */
  lemma LatePick() returns (states: seq<State>, steps: seq<Step>)
    ensures Run(states, steps) && |steps| == 15 && steps[12] == Finish(1)
    ensures forall i :: 13 <= i <= 15 ==> Ready(states[i], 5) && Ahead(states[i].plist, 5) == 0
    ensures Late(states[13], 5) == 1 && Picks(states, steps, 13, 15) == 1
  {
    hide Apply, Late, Ready, Enabled, LateState, LateEnd, Ahead;
    states, steps := seq(16, (k: nat) => LateState(k)), LateSteps();
    LateInitial();
    forall k: nat | k < 15 ensures Enabled(states[k], steps[k]) && states[k + 1] == Apply(states[k], steps[k]) {
      LateApplied(k);
    }
    forall k: nat | 13 <= k <= 15
      ensures Ready(states[k], 5) && 5 in states[k].plist && Ahead(states[k].plist, 5) == 0
    {
      LateReady(k);
    }
    LateReady(13);
    LatePicks(states, steps);
  }

  lemma LatePicks(states: seq<State>, steps: seq<Step>)
    requires Run(states, steps) && steps == LateSteps() && states[13] == LateState(13) && states[14] == LateState(14)
    ensures Picks(states, steps, 13, 15) == 1
  {
    hide Apply, Run, LateEnd;
    LateScan(13);
    LateScan(14);
    assert Picks(states, steps, 13, 13) == 0 && Picks(states, steps, 13, 14) == 0;
  }
}
