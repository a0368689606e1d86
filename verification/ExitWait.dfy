/**
 fork, exit and wait (proc.c) of any number of processes, under g_wait_lock and the locks
 of the processes: the process tree, its zombies, and the wakeup of a waiting parent.
*/
module ExitWait {
  import opened Common

  type Pid = nat
  datatype Pc =
    | Running
    // do_fork, after the child has been set up
    | ForkWant(child: Pid)
    | ForkHas(child: Pid)
    // do_exit
    | ExitWant
    | ExitReparent        // in reparent, holding the wait lock
    | ExitWakeInit        // gave one child to init, about to wake init
    | ExitLockSelf
    | ExitWakeParent      // holds its own lock too
    | ExitMark
    | ExitDone            // ZOMBIE, releases the wait lock
    | ExitSwitch          // in sched: the scheduler will release its lock
    | Dead
    // do_wait
    | WaitWant
    | WaitScan            // holds the wait lock
    | WaitLockSelf        // sleep: children but no zombie
    | WaitUnlock          // holds its own lock too
    | WaitMark            // gave up the wait lock
    | AsleepLocked        // in sched
    | Asleep
    | Woken

  /** asleep: SLEEPING on its own channel, as wait does.  used: every pid ever given out. */
  datatype State = State(init: Pid, pcs: map<Pid, Pc>, listed: set<Pid>, parent: map<Pid, Pid>,
                         zombies: set<Pid>, asleep: set<Pid>,
                         waitLock: Option<Pid>, plock: map<Pid, Pid>, reaped: seq<Pid>, used: set<Pid>)

  predicate HasWaitLock(pc: Pc) {
    pc.ForkHas? || pc.ExitReparent? || pc.ExitWakeInit? || pc.ExitLockSelf? || pc.ExitWakeParent? ||
    pc.ExitMark? || pc.ExitDone? ||
    pc.WaitScan? || pc.WaitLockSelf? || pc.WaitUnlock?
  }

  predicate HasOwnLock(pc: Pc) {
    pc.ExitWakeParent? || pc.ExitMark? || pc.ExitDone? || pc.ExitSwitch? ||
    pc.WaitUnlock? || pc.WaitMark? || pc.AsleepLocked? || pc.Woken?
  }

  /** Decided to sleep in wait and not woken since. */
  predicate Committed(pc: Pc, asleep: bool) {
    pc.WaitLockSelf? || pc.WaitUnlock? || pc.WaitMark? || ((pc.AsleepLocked? || pc.Asleep?) && asleep)
  }

  predicate Exited(pc: Pc) {
    pc.ExitDone? || pc.ExitSwitch? || pc.Dead?
  }

  /** Past reparent. */
  predicate Childless(pc: Pc) {
    pc.ExitLockSelf? || pc.ExitWakeParent? || pc.ExitMark? || Exited(pc)
  }

  predicate Exits(pc: Pc) {
    pc.ExitWant? || pc.ExitReparent? || pc.ExitWakeInit? || Childless(pc)
  }

  // ----- the invariant -----

  ghost predicate LocksOk(pcs: map<Pid, Pc>, waitLock: Option<Pid>, plock: map<Pid, Pid>) {
    && (forall p :: p in pcs && HasWaitLock(pcs[p]) ==> waitLock == Some(p))
    && (waitLock.Some? ==> waitLock.value in pcs && HasWaitLock(pcs[waitLock.value]))
    && (forall p :: p in pcs && HasOwnLock(pcs[p]) ==> p in plock)
    && (forall p :: p in plock ==> p in pcs && HasOwnLock(pcs[p]))
  }

  /** The processes in the list are those that exist; all but init have a parent in it that is no zombie. */
  ghost predicate Tree(init: Pid, listed: set<Pid>, parent: map<Pid, Pid>, zombies: set<Pid>) {
    && init in listed && init !in zombies && init !in parent
    && (forall p :: p in listed && p != init ==>
          p in parent && parent[p] in listed && parent[p] !in zombies && parent[p] != p)
  }

  ghost predicate PcsOk(init: Pid, pcs: map<Pid, Pc>, listed: set<Pid>, zombies: set<Pid>, asleep: set<Pid>) {
    && pcs.Keys == listed && init in listed && !Exits(pcs[init])
    && (forall p :: p in listed ==> (p in zombies <==> Exited(pcs[p])))
    && (forall p :: p in zombies ==> p in listed)
    && (forall p :: p in asleep ==> p in pcs && (pcs[p].AsleepLocked? || pcs[p].Asleep?))
  }

  ghost predicate NoChildren(pcs: map<Pid, Pc>, listed: set<Pid>, parent: map<Pid, Pid>, init: Pid) {
    forall q :: q in listed && q != init && q in parent && parent[q] in pcs ==> !Childless(pcs[parent[q]])
  }

  /** A process asleep in wait, or about to be, has no zombie child, unless init is about to be woken for one. */
  ghost predicate NoneMissed(s: State) {
    forall z ::
      z in s.zombies && z in s.parent && s.parent[z] in s.pcs &&
      Committed(s.pcs[s.parent[z]], s.parent[z] in s.asleep) ==>
      s.parent[z] == s.init && s.waitLock.Some? && s.waitLock.value in s.pcs && s.pcs[s.waitLock.value].ExitWakeInit?
  }

  /** The parent an exiting process has woken is awake, as long as that process has the wait lock. */
  ghost predicate ParentAwake(s: State) {
    forall p :: p in s.pcs && (s.pcs[p].ExitMark? || s.pcs[p].ExitDone?) && p in s.parent && s.parent[p] in s.pcs ==>
      !Committed(s.pcs[s.parent[p]], s.parent[p] in s.asleep)
  }

  /** Pids are not reused; a child in the making belongs to its forking parent alone. */
  ghost predicate PidsOk(s: State) {
    && s.listed <= s.used
    && (forall p :: p in s.reaped ==> p in s.used && p !in s.listed) && NoDup(s.reaped)
    && (forall p :: p in s.pcs && Forks(s.pcs[p]) ==>
          s.pcs[p].child in s.used && s.pcs[p].child !in s.listed && s.pcs[p].child !in s.reaped)
    && (forall p, q :: p in s.pcs && q in s.pcs && p != q && Forks(s.pcs[p]) && Forks(s.pcs[q]) ==>
          s.pcs[p].child != s.pcs[q].child)
  }

  predicate Forks(pc: Pc) {
    pc.ForkWant? || pc.ForkHas?
  }

  ghost predicate Inv(s: State) {
    && LocksOk(s.pcs, s.waitLock, s.plock)
    && Tree(s.init, s.listed, s.parent, s.zombies)
    && PcsOk(s.init, s.pcs, s.listed, s.zombies, s.asleep)
    && NoChildren(s.pcs, s.listed, s.parent, s.init)
    && NoneMissed(s) && ParentAwake(s) && PidsOk(s)
  }

  // ----- the steps -----

  datatype Step =
    | ForkCall(p: Pid, child: Pid)
    | ExitCall(p: Pid)
    | WaitCall(p: Pid)
    | TakeWaitLock(p: Pid)
    | Publish(p: Pid)               // fork: parent, list membership
    | GiveToInit(p: Pid, q: Pid)    // reparent of one child
    | WakeInit(p: Pid)
    | NoMoreChildren(p: Pid)
    | LockSelf(p: Pid)
    | WakeParent(p: Pid)
    | BecomeZombie(p: Pid)
    | DropWaitLock(p: Pid)          // after ZOMBIE, or in sleep
    | Reap(p: Pid, z: Pid)
    | ReapFault(p: Pid, z: Pid)     // the exit status could not be copied out
    | WaitFails(p: Pid)             // no children, or killed
    | WaitSleeps(p: Pid)            // children, no zombie
    | FallAsleep(p: Pid)
    | SwitchOut(p: Pid)
    | Resume(p: Pid)
    | Reacquire(p: Pid)             // back in sleep: own lock released
    | Kick(p: Pid)                  // a signal

  predicate At(s: State, p: Pid, pc: Pc) {
    p in s.pcs && s.pcs[p] == pc
  }

  predicate IsChild(s: State, q: Pid, p: Pid) {
    q in s.listed && q in s.parent && s.parent[q] == p
  }

  ghost predicate Enabled(s: State, e: Step) {
    match e
    case ForkCall(p, child) => At(s, p, Running) && child !in s.used
    case ExitCall(p) => At(s, p, Running) && p != s.init
    case WaitCall(p) => At(s, p, Running)
    case TakeWaitLock(p) =>
      p in s.pcs && (s.pcs[p].ForkWant? || s.pcs[p].ExitWant? || s.pcs[p].WaitWant?) && s.waitLock.None?
    case Publish(p) => p in s.pcs && s.pcs[p].ForkHas?
    case GiveToInit(p, q) => At(s, p, ExitReparent) && IsChild(s, q, p)
    case WakeInit(p) => At(s, p, ExitWakeInit) && s.init !in s.plock
    case NoMoreChildren(p) => At(s, p, ExitReparent) && forall q :: q in s.listed ==> !IsChild(s, q, p)
    case LockSelf(p) => (At(s, p, ExitLockSelf) || At(s, p, WaitLockSelf)) && p !in s.plock
    case WakeParent(p) => At(s, p, ExitWakeParent) && p in s.parent && s.parent[p] !in s.plock
    case BecomeZombie(p) => At(s, p, ExitMark)
    case DropWaitLock(p) => At(s, p, ExitDone) || At(s, p, WaitUnlock)
    case Reap(p, z) => At(s, p, WaitScan) && IsChild(s, z, p) && z in s.zombies && z !in s.plock
    case ReapFault(p, z) => At(s, p, WaitScan) && IsChild(s, z, p) && z in s.zombies && z !in s.plock
    case WaitFails(p) => At(s, p, WaitScan) && forall q :: q in s.zombies ==> !IsChild(s, q, p)
    case WaitSleeps(p) => At(s, p, WaitScan) && forall q :: q in s.zombies ==> !IsChild(s, q, p)
    case FallAsleep(p) => At(s, p, WaitMark)
    case SwitchOut(p) => At(s, p, ExitSwitch) || At(s, p, AsleepLocked)
    case Resume(p) => At(s, p, Asleep) && p !in s.asleep && p !in s.plock
    case Reacquire(p) => At(s, p, Woken)
    case Kick(p) => p !in s.plock
  }

  function WithLock(pc: Pc): Pc
    requires pc.ForkWant? || pc.ExitWant? || pc.WaitWant?
  {
    match pc
    case ForkWant(child) => ForkHas(child)
    case ExitWant => ExitReparent
    case WaitWant => WaitScan
  }

  ghost function Apply(s: State, e: Step): State
    requires Enabled(s, e)
  {
    match e
    case ForkCall(p, child) => s.(pcs := s.pcs[p := ForkWant(child)], used := s.used + {child})
    case ExitCall(p) => s.(pcs := s.pcs[p := ExitWant])
    case WaitCall(p) => s.(pcs := s.pcs[p := WaitWant])
    case TakeWaitLock(p) => s.(pcs := s.pcs[p := WithLock(s.pcs[p])], waitLock := Some(p))
    case Publish(p) =>
      var child := s.pcs[p].child;
      s.(pcs := s.pcs[p := Running][child := Running], parent := s.parent[child := p], listed := s.listed + {child},
         waitLock := None)
    case GiveToInit(p, q) => s.(pcs := s.pcs[p := ExitWakeInit], parent := s.parent[q := s.init])
    case WakeInit(p) => s.(pcs := s.pcs[p := ExitReparent], asleep := s.asleep - {s.init})
    case NoMoreChildren(p) => s.(pcs := s.pcs[p := ExitLockSelf])
    case LockSelf(p) =>
      s.(pcs := s.pcs[p := if s.pcs[p].ExitLockSelf? then ExitWakeParent else WaitUnlock], plock := s.plock[p := p])
    case WakeParent(p) => s.(pcs := s.pcs[p := ExitMark], asleep := s.asleep - {s.parent[p]})
    case BecomeZombie(p) => s.(pcs := s.pcs[p := ExitDone], zombies := s.zombies + {p})
    case DropWaitLock(p) => s.(pcs := s.pcs[p := if s.pcs[p].ExitDone? then ExitSwitch else WaitMark], waitLock := None)
    case Reap(p, z) =>
      s.(pcs := (s.pcs - {z})[p := Running], listed := s.listed - {z}, zombies := s.zombies - {z},
         parent := s.parent - {z},
         reaped := s.reaped + [z], waitLock := None)
    case ReapFault(p, z) => s.(pcs := s.pcs[p := Running], waitLock := None)
    case WaitFails(p) => s.(pcs := s.pcs[p := Running], waitLock := None)
    case WaitSleeps(p) => s.(pcs := s.pcs[p := WaitLockSelf])
    case FallAsleep(p) => s.(pcs := s.pcs[p := AsleepLocked], asleep := s.asleep + {p})
    case SwitchOut(p) => s.(pcs := s.pcs[p := if s.pcs[p].ExitSwitch? then Dead else Asleep], plock := s.plock - {p})
    case Resume(p) => s.(pcs := s.pcs[p := Woken], plock := s.plock[p := p])
    case Reacquire(p) => s.(pcs := s.pcs[p := WaitWant], plock := s.plock - {p})
    case Kick(p) => s.(asleep := s.asleep - {p})
  }

  // ----- what one process's move does to each part of the invariant -----

  /** The steps that change the tree are Publish, GiveToInit, BecomeZombie and Reap. */
  predicate Plain(e: Step) {
    !e.Publish? && !e.GiveToInit? && !e.BecomeZombie? && !e.Reap?
  }

  lemma LocksMove(pcs: map<Pid, Pc>, waitLock: Option<Pid>, plock: map<Pid, Pid>, p: Pid, pc: Pc,
                  waitLock': Option<Pid>, plock': map<Pid, Pid>)
    requires LocksOk(pcs, waitLock, plock) && p in pcs
    requires if HasWaitLock(pc) == HasWaitLock(pcs[p]) then waitLock' == waitLock
             else if HasWaitLock(pc) then waitLock.None? && waitLock' == Some(p) else waitLock'.None?
    requires if HasOwnLock(pc) == HasOwnLock(pcs[p]) then plock' == plock
             else if HasOwnLock(pc) then p !in plock && plock' == plock[p := p] else plock' == plock - {p}
    ensures LocksOk(pcs[p := pc], waitLock', plock')
  {
  }

  lemma PcsMove(init: Pid, pcs: map<Pid, Pc>, listed: set<Pid>, zombies: set<Pid>, asleep: set<Pid>, p: Pid, pc: Pc,
                asleep': set<Pid>)
    requires PcsOk(init, pcs, listed, zombies, asleep) && p in pcs && Exited(pc) == Exited(pcs[p])
    requires (p == init ==> !Exits(pc))
    requires asleep' <= asleep + {p} && (p in asleep' ==> pc.AsleepLocked? || pc.Asleep?)
    ensures PcsOk(init, pcs[p := pc], listed, zombies, asleep')
  {
  }

  lemma NoChildrenMove(pcs: map<Pid, Pc>, listed: set<Pid>, parent: map<Pid, Pid>, init: Pid, p: Pid, pc: Pc)
    requires NoChildren(pcs, listed, parent, init) && p in pcs
    requires Childless(pc) && !Childless(pcs[p]) ==> forall q :: q in listed && q in parent ==> parent[q] != p
    ensures NoChildren(pcs[p := pc], listed, parent, init)
  {
  }

  lemma NoneMissedMove(s: State, s': State, p: Pid)
    requires NoneMissed(s) && LocksOk(s.pcs, s.waitLock, s.plock) && p in s.pcs && p in s'.pcs
    requires s'.pcs == s.pcs[p := s'.pcs[p]]
    requires s'.zombies == s.zombies && s'.parent == s.parent && s'.init == s.init && s'.asleep <= s.asleep + {p}
    requires s.waitLock.Some? && s.waitLock != Some(p) ==> s'.waitLock == s.waitLock
    requires Committed(s'.pcs[p], p in s'.asleep) && !Committed(s.pcs[p], p in s.asleep) ==>
      forall z :: z in s.zombies && z in s.parent ==> s.parent[z] != p
    requires s.pcs[p].ExitWakeInit? ==> s.init in s'.pcs && !Committed(s'.pcs[s.init], s.init in s'.asleep)
    ensures NoneMissed(s')
  {
  }

  lemma ParentAwakeMove(s: State, s': State, p: Pid)
    requires ParentAwake(s) && LocksOk(s.pcs, s.waitLock, s.plock) && p in s.pcs && p in s'.pcs
    requires s'.pcs == s.pcs[p := s'.pcs[p]]
    requires s'.parent == s.parent && s'.asleep <= s.asleep + {p}
    requires Committed(s'.pcs[p], p in s'.asleep) && !Committed(s.pcs[p], p in s.asleep) ==> HasWaitLock(s.pcs[p])
    requires s'.pcs[p].ExitMark? && p in s.parent && s.parent[p] in s'.pcs ==>
      !Committed(s'.pcs[s.parent[p]], s.parent[p] in s'.asleep)
    requires s'.pcs[p].ExitDone? ==> s.pcs[p].ExitMark?
    requires (s'.pcs[p].ExitMark? || s'.pcs[p].ExitDone?) && p in s.parent ==> s.parent[p] != p
    ensures ParentAwake(s')
  {
  }

  lemma PidsMove(s: State, s': State, p: Pid)
    requires PidsOk(s) && p in s.pcs && p in s'.pcs && s'.pcs == s.pcs[p := s'.pcs[p]]
    requires s'.listed == s.listed && s'.reaped == s.reaped && s.used <= s'.used
    requires Forks(s'.pcs[p]) ==>
      if Forks(s.pcs[p]) then s'.pcs[p].child == s.pcs[p].child
      else s'.pcs[p].child !in s.used && s'.pcs[p].child in s'.used
    ensures PidsOk(s')
  {
  }

  /** What each plain step is, for the lemmas above. */
  lemma PlainShape(s: State, e: Step)
    requires Enabled(s, e) && Plain(e) && !e.Kick?
    ensures var s' := Apply(s, e); var p := e.p;
      && p in s.pcs && p in s'.pcs && s'.pcs == s.pcs[p := s'.pcs[p]]
      && s'.init == s.init && s'.listed == s.listed && s'.parent == s.parent && s'.zombies == s.zombies
      && s'.reaped == s.reaped && s.used <= s'.used
      && Exited(s'.pcs[p]) == Exited(s.pcs[p]) && s'.asleep <= s.asleep + {p}
  {
  }

  lemma Here(s: State, p: Pid)
    requires Inv(s) && p in s.pcs
    ensures HasWaitLock(s.pcs[p]) ==> s.waitLock == Some(p)
    ensures HasOwnLock(s.pcs[p]) <==> p in s.plock
    ensures p in s.asleep ==> s.pcs[p].AsleepLocked? || s.pcs[p].Asleep?
    ensures p == s.init ==> !Exits(s.pcs[p])
    ensures p != s.init ==> p in s.parent && s.parent[p] in s.pcs && s.parent[p] != p
    ensures p in s.parent ==> s.parent[p] != p
  {
  }

  /** A process woken under the wait lock is not on its way back to sleep. */
  lemma WokenStaysAwake(s: State, p: Pid, q: Pid)
    requires Inv(s) && p in s.pcs && q in s.pcs && p != q && HasWaitLock(s.pcs[p]) && q !in s.plock
    ensures !Committed(s.pcs[q], false)
  {
  }

  lemma PlainLocks(s: State, e: Step)
    requires Inv(s) && Enabled(s, e) && Plain(e) && !e.Kick?
    ensures LocksOk(Apply(s, e).pcs, Apply(s, e).waitLock, Apply(s, e).plock)
  {
    hide LocksOk, Tree, PcsOk, NoChildren, NoneMissed, ParentAwake, PidsOk, Enabled, Apply;
    var s', p := Apply(s, e), e.p;
    PlainShape(s, e);
    Here(s, p);
    PlainWaitLock(s, e);
    if OnOwnLock(e) {
      OwnLockMoved(s, e);
    } else {
      OwnLockKept(s, e);
    }
    LocksMove(s.pcs, s.waitLock, s.plock, p, s'.pcs[p], s'.waitLock, s'.plock);
  }

  lemma PlainWaitLock(s: State, e: Step)
    requires Enabled(s, e) && Plain(e) && !e.Kick? && e.p in s.pcs && e.p in Apply(s, e).pcs
    ensures var pc, pc', s' := s.pcs[e.p], Apply(s, e).pcs[e.p], Apply(s, e);
      if HasWaitLock(pc') == HasWaitLock(pc) then s'.waitLock == s.waitLock
      else if HasWaitLock(pc') then s.waitLock.None? && s'.waitLock == Some(e.p) else s'.waitLock.None?
  {
  }

  predicate OnOwnLock(e: Step) {
    e.LockSelf? || e.SwitchOut? || e.Resume? || e.Reacquire?
  }

  lemma OwnLockKept(s: State, e: Step)
    requires Enabled(s, e) && Plain(e) && !e.Kick? && !OnOwnLock(e)
    ensures e.p in s.pcs && e.p in Apply(s, e).pcs && HasOwnLock(Apply(s, e).pcs[e.p]) == HasOwnLock(s.pcs[e.p])
    ensures Apply(s, e).plock == s.plock
  {
  }

  lemma OwnLockMoved(s: State, e: Step)
    requires Enabled(s, e) && OnOwnLock(e)
    ensures e.p in s.pcs && e.p in Apply(s, e).pcs && HasOwnLock(Apply(s, e).pcs[e.p]) != HasOwnLock(s.pcs[e.p])
    ensures if HasOwnLock(s.pcs[e.p]) then Apply(s, e).plock == s.plock - {e.p}
            else e.p !in s.plock && Apply(s, e).plock == s.plock[e.p := e.p]
  {
  }

  lemma PlainPcs(s: State, e: Step)
    requires Inv(s) && Enabled(s, e) && Plain(e) && !e.Kick?
    ensures var s' := Apply(s, e);
      PcsOk(s'.init, s'.pcs, s'.listed, s'.zombies, s'.asleep) && Tree(s'.init, s'.listed, s'.parent, s'.zombies)
  {
    hide LocksOk, Tree, PcsOk, NoChildren, NoneMissed, ParentAwake, PidsOk;
    var s', p := Apply(s, e), e.p;
    PlainShape(s, e);
    Here(s, p);
    PcsMove(s.init, s.pcs, s.listed, s.zombies, s.asleep, p, s'.pcs[p], s'.asleep);
  }

  lemma PlainChildren(s: State, e: Step)
    requires Inv(s) && Enabled(s, e) && Plain(e) && !e.Kick?
    ensures var s' := Apply(s, e); NoChildren(s'.pcs, s'.listed, s'.parent, s'.init) && PidsOk(s')
  {
    hide LocksOk, Tree, PcsOk, NoChildren, NoneMissed, ParentAwake, PidsOk;
    var s', p := Apply(s, e), e.p;
    PlainShape(s, e);
    NoChildrenMove(s.pcs, s.listed, s.parent, s.init, p, s'.pcs[p]);
    PidsMove(s, s', p);
  }

  lemma PlainMissed(s: State, e: Step)
    requires Inv(s) && Enabled(s, e) && Plain(e) && !e.Kick?
    ensures NoneMissed(Apply(s, e))
  {
    hide LocksOk, Tree, PcsOk, NoChildren, NoneMissed, ParentAwake, PidsOk;
    var s', p := Apply(s, e), e.p;
    PlainShape(s, e);
    Here(s, p);
    ZombiesListed(s);
    if e.WakeInit? {
      WokenStaysAwake(s, p, s.init);
    }
    NoneMissedMove(s, s', p);
  }

  lemma PlainAwake(s: State, e: Step)
    requires Inv(s) && Enabled(s, e) && Plain(e) && !e.Kick?
    ensures ParentAwake(Apply(s, e))
  {
    hide LocksOk, Tree, PcsOk, NoChildren, NoneMissed, ParentAwake, PidsOk;
    var s', p := Apply(s, e), e.p;
    PlainShape(s, e);
    Here(s, p);
    if e.WakeParent? {
      WokenStaysAwake(s, p, s.parent[p]);
    }
    ParentAwakeMove(s, s', p);
  }

  lemma ZombiesListed(s: State)
    requires Inv(s)
    ensures s.zombies <= s.listed == s.pcs.Keys && s.init in s.pcs
  {
  }

  lemma KickInv(s: State, e: Step)
    requires Inv(s) && Enabled(s, e) && e.Kick?
    ensures Inv(Apply(s, e))
  {
  }

  lemma PlainInv(s: State, e: Step)
    requires Inv(s) && Enabled(s, e) && Plain(e)
    ensures Inv(Apply(s, e))
  {
    hide LocksOk, Tree, PcsOk, NoChildren, NoneMissed, ParentAwake, PidsOk, Apply, Enabled;
    if e.Kick? {
      KickInv(s, e);
    } else {
      PlainLocks(s, e);
      PlainPcs(s, e);
      PlainChildren(s, e);
      PlainMissed(s, e);
      PlainAwake(s, e);
    }
  }

  // ----- the steps that change the tree -----

  ghost predicate Shape(s: State) {
    && LocksOk(s.pcs, s.waitLock, s.plock)
    && Tree(s.init, s.listed, s.parent, s.zombies)
    && PcsOk(s.init, s.pcs, s.listed, s.zombies, s.asleep)
    && NoChildren(s.pcs, s.listed, s.parent, s.init)
  }

  lemma ShapeInv(s: State)
    requires Shape(s) && NoneMissed(s) && ParentAwake(s) && PidsOk(s)
    ensures Inv(s)
  {
  }

  lemma ZombieInv(s: State, e: Step)
    requires Inv(s) && Enabled(s, e) && e.BecomeZombie?
    ensures Inv(Apply(s, e))
  {
    hide Shape, LocksOk, Tree, PcsOk, NoChildren, NoneMissed, ParentAwake, PidsOk;
    var s', p := Apply(s, e), e.p;
    Here(s, p);
    ZombieShape(s, e);
    ZombieMissed(s, e);
    PidsMove(s, s', p);
    ParentAwakeMove(s, s', p);
    ShapeInv(s');
  }

  lemma ZombieShape(s: State, e: Step)
    requires Inv(s) && Enabled(s, e) && e.BecomeZombie?
    ensures Shape(Apply(s, e))
  {
    hide NoneMissed, ParentAwake, PidsOk, LocksOk;
    Here(s, e.p);
    LocksMove(s.pcs, s.waitLock, s.plock, e.p, ExitDone, s.waitLock, s.plock);
    assert forall q :: q in s.listed && q != s.init ==> s.parent[q] != e.p;
  }

  lemma ZombieMissed(s: State, e: Step)
    requires Inv(s) && Enabled(s, e) && e.BecomeZombie?
    ensures NoneMissed(Apply(s, e))
  {
    hide NoChildren, PidsOk, Tree;
    Here(s, e.p);
  }

  lemma GiveInv(s: State, e: Step)
    requires Inv(s) && Enabled(s, e) && e.GiveToInit?
    ensures Inv(Apply(s, e))
  {
    hide Shape, LocksOk, Tree, PcsOk, NoChildren, NoneMissed, ParentAwake, PidsOk;
    var s', p := Apply(s, e), e.p;
    Here(s, p);
    GiveShape(s, e);
    GiveMissed(s, e);
    PidsMove(s, s', p);
    ShapeInv(s');
  }

  lemma GiveShape(s: State, e: Step)
    requires Inv(s) && Enabled(s, e) && e.GiveToInit?
    ensures Shape(Apply(s, e))
  {
    hide Shape, NoneMissed, ParentAwake, PidsOk, PcsOk, LocksOk, Tree, NoChildren;
    Here(s, e.p);
    PcsMove(s.init, s.pcs, s.listed, s.zombies, s.asleep, e.p, ExitWakeInit, s.asleep);
    LocksMove(s.pcs, s.waitLock, s.plock, e.p, ExitWakeInit, s.waitLock, s.plock);
    GiveTree(s, e);
    FromParts(Apply(s, e));
  }

  lemma GiveTree(s: State, e: Step)
    requires Inv(s) && Enabled(s, e) && e.GiveToInit?
    ensures var s' := Apply(s, e);
      Tree(s'.init, s'.listed, s'.parent, s'.zombies) && NoChildren(s'.pcs, s'.listed, s'.parent, s'.init)
  {
    hide NoneMissed, ParentAwake, PidsOk, LocksOk;
  }

  lemma GiveMissed(s: State, e: Step)
    requires Inv(s) && Enabled(s, e) && e.GiveToInit?
    ensures NoneMissed(Apply(s, e)) && ParentAwake(Apply(s, e))
  {
    hide NoChildren, PidsOk, Tree, PcsOk;
    Here(s, e.p);
  }

  lemma PublishInv(s: State, e: Step)
    requires Inv(s) && Enabled(s, e) && e.Publish?
    ensures Inv(Apply(s, e))
  {
    hide Shape, LocksOk, Tree, PcsOk, NoChildren, NoneMissed, ParentAwake, PidsOk;
    PublishShape(s, e);
    PublishMissed(s, e);
    PublishPids(s, e);
    ShapeInv(Apply(s, e));
  }

  lemma ChildIsNew(s: State, p: Pid)
    requires Inv(s) && p in s.pcs && s.pcs[p].ForkHas?
    ensures s.pcs[p].child !in s.listed && s.pcs[p].child !in s.pcs && s.pcs[p].child !in s.zombies
    ensures s.pcs[p].child !in s.asleep && s.pcs[p].child !in s.plock
    ensures p in s.listed && p !in s.zombies && s.init in s.listed && s.waitLock == Some(p)
    ensures forall q :: q in s.listed && q != s.init ==> q in s.parent && s.parent[q] != s.pcs[p].child
  {
  }

  lemma PublishLocks(pcs: map<Pid, Pc>, plock: map<Pid, Pid>, p: Pid, child: Pid)
    requires LocksOk(pcs, Some(p), plock) && p in pcs && pcs[p].ForkHas? && child !in pcs
    ensures LocksOk(pcs[p := Running][child := Running], None, plock)
  {
  }

  lemma PublishPcs(init: Pid, pcs: map<Pid, Pc>, listed: set<Pid>, zombies: set<Pid>, asleep: set<Pid>, p: Pid,
                   child: Pid)
    requires PcsOk(init, pcs, listed, zombies, asleep) && p in pcs && pcs[p].ForkHas? && child !in pcs
    requires child !in zombies
    ensures PcsOk(init, pcs[p := Running][child := Running], listed + {child}, zombies, asleep)
  {
    assert pcs[p := Running][child := Running].Keys == listed + {child};
  }

  lemma PublishShape(s: State, e: Step)
    requires Inv(s) && Enabled(s, e) && e.Publish?
    ensures Shape(Apply(s, e))
  {
    hide LocksOk, PcsOk, NoneMissed, ParentAwake, PidsOk, Tree, NoChildren, Shape;
    ChildIsNew(s, e.p);
    PublishTree(s, e);
    PublishLocks(s.pcs, s.plock, e.p, s.pcs[e.p].child);
    PublishPcs(s.init, s.pcs, s.listed, s.zombies, s.asleep, e.p, s.pcs[e.p].child);
    FromParts(Apply(s, e));
  }

  lemma FromParts(s: State)
    requires LocksOk(s.pcs, s.waitLock, s.plock) && Tree(s.init, s.listed, s.parent, s.zombies)
    requires PcsOk(s.init, s.pcs, s.listed, s.zombies, s.asleep) && NoChildren(s.pcs, s.listed, s.parent, s.init)
    ensures Shape(s)
  {
  }

  lemma PublishTree(s: State, e: Step)
    requires Inv(s) && Enabled(s, e) && e.Publish?
    ensures var s' := Apply(s, e);
      Tree(s'.init, s'.listed, s'.parent, s'.zombies) && NoChildren(s'.pcs, s'.listed, s'.parent, s'.init)
  {
    hide NoneMissed, ParentAwake, PidsOk, LocksOk;
    ChildIsNew(s, e.p);
  }

  lemma PublishMissed(s: State, e: Step)
    requires Inv(s) && Enabled(s, e) && e.Publish?
    ensures NoneMissed(Apply(s, e)) && ParentAwake(Apply(s, e))
  {
    hide Tree, NoChildren, PidsOk, PcsOk;
    ChildIsNew(s, e.p);
    ZombiesListed(s);
  }

  lemma PublishPids(s: State, e: Step)
    requires Inv(s) && Enabled(s, e) && e.Publish?
    ensures PidsOk(Apply(s, e))
  {
    hide Tree, NoChildren, NoneMissed, ParentAwake, LocksOk, PcsOk;
    ChildIsNew(s, e.p);
  }

  lemma ReapInv(s: State, e: Step)
    requires Inv(s) && Enabled(s, e) && e.Reap?
    ensures Inv(Apply(s, e))
  {
    hide Shape, LocksOk, Tree, PcsOk, NoChildren, NoneMissed, ParentAwake, PidsOk;
    ReapShape(s, e);
    ReapMissed(s, e);
    ReapPids(s, e);
    ShapeInv(Apply(s, e));
  }

  lemma ReapedIsGone(s: State, p: Pid, z: Pid)
    requires Inv(s) && p in s.pcs && s.pcs[p].WaitScan? && IsChild(s, z, p) && z in s.zombies && z !in s.plock
    ensures z != p && z != s.init && z in s.pcs && s.pcs[z].Dead? && z !in s.asleep && s.waitLock == Some(p)
    ensures p !in s.plock
    ensures forall q :: q in s.listed && q != s.init ==> q in s.parent && s.parent[q] != z
  {
  }

  lemma ReapShape(s: State, e: Step)
    requires Inv(s) && Enabled(s, e) && e.Reap?
    ensures Shape(Apply(s, e))
  {
    hide Shape, NoneMissed, ParentAwake, PidsOk, Tree, NoChildren;
    var s' := Apply(s, e);
    ReapedIsGone(s, e.p, e.z);
    assert s'.pcs.Keys == s'.listed;
    ReapTree(s, e);
    FromParts(s');
  }

  lemma ReapTree(s: State, e: Step)
    requires Inv(s) && Enabled(s, e) && e.Reap?
    ensures var s' := Apply(s, e);
      Tree(s'.init, s'.listed, s'.parent, s'.zombies) && NoChildren(s'.pcs, s'.listed, s'.parent, s'.init)
  {
    hide NoneMissed, ParentAwake, PidsOk, LocksOk;
    ReapedIsGone(s, e.p, e.z);
  }

  lemma ReapMissed(s: State, e: Step)
    requires Inv(s) && Enabled(s, e) && e.Reap?
    ensures NoneMissed(Apply(s, e)) && ParentAwake(Apply(s, e))
  {
    hide NoChildren, PidsOk, Tree, PcsOk;
    ReapedIsGone(s, e.p, e.z);
  }

  lemma ReapPids(s: State, e: Step)
    requires Inv(s) && Enabled(s, e) && e.Reap?
    ensures PidsOk(Apply(s, e))
  {
    hide NoChildren, NoneMissed, ParentAwake, Tree, LocksOk;
    ReapedIsGone(s, e.p, e.z);
    assert e.z !in s.reaped;
    assert forall i :: 0 <= i < |s.reaped| ==> s.reaped[i] in s.reaped;
  }

  lemma StepInv(s: State, e: Step)
    requires Inv(s) && Enabled(s, e)
    ensures Inv(Apply(s, e))
  {
    hide Inv, Apply, Enabled;
    if Plain(e) {
      PlainInv(s, e);
    } else if e.Publish? {
      PublishInv(s, e);
    } else if e.GiveToInit? {
      GiveInv(s, e);
    } else if e.BecomeZombie? {
      ZombieInv(s, e);
    } else {
      ReapInv(s, e);
    }
  }

  // ----- every run -----

  /** Only init, running. */
  ghost predicate Initial(s: State) {
    && s.pcs == map[s.init := Running] && s.listed == s.used == {s.init} && s.parent == map[] && s.zombies == {}
    && s.asleep == {}
    && s.waitLock.None? && s.plock == map[] && s.reaped == []
  }

  ghost predicate Run(states: seq<State>, steps: seq<Step>) {
    && |states| == |steps| + 1 && Initial(states[0])
    && forall i :: 0 <= i < |steps| ==> Enabled(states[i], steps[i]) && states[i + 1] == Apply(states[i], steps[i])
  }

  lemma {:induction false} RunInv(states: seq<State>, steps: seq<Step>, n: nat)
    requires Run(states, steps) && n <= |steps|
    ensures Inv(states[n])
  {
    if n > 0 {
      hide Inv, Apply, Enabled, Initial;
      RunInv(states, steps, n - 1);
      StepInv(states[n - 1], steps[n - 1]);
    }
  }

  /** Every listed process except init has a listed parent that is no zombie; so no zombie has children. */
  lemma ParentsAlive(states: seq<State>, steps: seq<Step>, n: nat)
    requires Run(states, steps) && n <= |steps|
    ensures var s := states[n];
      && s.init in s.listed && s.init !in s.zombies
      && (forall p :: p in s.listed && p != s.init ==>
            p in s.parent && s.parent[p] in s.listed && s.parent[p] !in s.zombies)
      && (forall z, q :: z in s.zombies && q in s.listed && q != s.init ==> q in s.parent && s.parent[q] != z)
  {
    RunInv(states, steps, n);
  }

  /** With the wait lock free, a process asleep in wait has no zombie child. */
  lemma NoMissedExit(states: seq<State>, steps: seq<Step>, n: nat, p: Pid, z: Pid)
    requires Run(states, steps) && n <= |steps| && states[n].waitLock.None? && p in states[n].asleep
    requires z in states[n].zombies
    ensures z in states[n].parent && states[n].parent[z] != p
  {
    RunInv(states, steps, n);
  }

  /** Each process is reaped at most once, and is then gone from the list. */
  lemma ReapedOnce(states: seq<State>, steps: seq<Step>, n: nat)
    requires Run(states, steps) && n <= |steps|
    ensures NoDup(states[n].reaped) && forall z :: z in states[n].reaped ==>
      z !in states[n].listed && z !in states[n].zombies
  {
    RunInv(states, steps, n);
  }

  /** Only a process that has finished exiting, and is off its CPU, is reaped, by its parent. */
  lemma ReapsTheDead(states: seq<State>, steps: seq<Step>, n: nat)
    requires Run(states, steps) && n < |steps| && steps[n].Reap?
    ensures steps[n].z in states[n].pcs && states[n].pcs[steps[n].z].Dead?
    ensures forall q ::
      q in states[n].listed && q != states[n].init ==> q in states[n].parent && states[n].parent[q] != steps[n].z
  {
    RunInv(states, steps, n);
    ReapedIsGone(states[n], steps[n].p, steps[n].z);
  }
}
