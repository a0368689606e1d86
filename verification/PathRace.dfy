/**
 Any number of threads in dentry_from_path at once, each step one locked region of one of
 them.  Evictions happen inside the puts and when the LRU limit changes.
*/
module PathRace {
  import opened Common
  import opened DentryTree
  import opened DentryCache
  import opened PathNames
  import opened PathSpec
  import opened PathThread

  datatype State = State(c: Dcache, g: Ledger, threads: seq<Thread>)

  /** A region of thread t; the first thread, or a fork of thread t; a change of the LRU limit. */
  datatype Step = Do(t: nat, act: Action) | First | Fork(t: nat) | SetMax(max: nat)

  /** What all the threads hold. */
  function Total(threads: seq<Thread>): multiset<Id> {
    if threads == [] then multiset{} else HeldBy(threads[0]) + Total(threads[1..])
  }

  /** What all but thread t hold. */
  function TotalBut(threads: seq<Thread>, t: nat): multiset<Id>
    requires t < |threads|
  {
    Total(threads[..t]) + Total(threads[t + 1..])
  }

  predicate Enabled(c: Dcache, threads: seq<Thread>, e: Step) {
    match e
    case Do(t, act) => t < |threads| && Can(c, threads[t], act)
    case First => c.root in c.ip
    case Fork(t) => t < |threads|
    case SetMax(_) => true
  }

  /** What the step does to the cache, and the threads after it. */
  function Planned(ns: Namespace, c: Dcache, threads: seq<Thread>, e: Step): (Effect, seq<Thread>)
    requires Enabled(c, threads, e)
  {
    match e
    case Do(t, act) => var r := Plan(ns, c, threads[t], act); (r.0, threads[t := r.1])
    case First => (Get(c.root), threads + [Thread(c.root, [c.ip[c.root]], multiset{}, Idle)])
    case Fork(t) => (Get(threads[t].cwd), threads + [Thread(threads[t].cwd, threads[t].cwdPlace, multiset{}, Idle)])
    case SetMax(max) => (Limit(max), threads)
  }

  ghost predicate Next(ns: Namespace, s: State, e: Step, s': State) {
    && Enabled(s.c, s.threads, e) && s'.threads == Planned(ns, s.c, s.threads, e).1
    && Applied(s.c, s.g, Planned(ns, s.c, s.threads, e).0, s'.c, s'.g)
  }

  /** `extra` is held by code that is not one of these threads. */
  ghost predicate Inv(ns: Namespace, extra: multiset<Id>, s: State) {
    && Sound(s.c, s.g, ns, extra + Total(s.threads))
    && forall t :: 0 <= t < |s.threads| ==> ThreadOk(ns, s.c, s.threads[t])
  }

  // ----- sums over threads -----

  lemma {:induction false} TotalConcat(a: seq<Thread>, b: seq<Thread>)
    ensures Total(a + b) == Total(a) + Total(b)
  {
    hide HeldBy;
    if a == [] {
      assert a + b == b;
      Sums(Total(b), multiset{}, multiset{});
    } else {
      TotalConcat(a[1..], b);
      assert (a + b)[1..] == a[1..] + b;
      Sums(HeldBy(a[0]), Total(a[1..]), Total(b));
    }
  }

  lemma SumsTurned(a: multiset<Id>, b: multiset<Id>, c: multiset<Id>)
    ensures a + (b + c) == (a + c) + b
  {
  }

  lemma Sums(a: multiset<Id>, b: multiset<Id>, c: multiset<Id>)
    ensures (a + b) + c == a + (b + c) && multiset{} + a == a == a + multiset{}
  {
  }

  lemma TotalSplit(threads: seq<Thread>, t: nat)
    requires t < |threads|
    ensures Total(threads) == TotalBut(threads, t) + HeldBy(threads[t])
  {
    hide HeldBy;
    TotalConcat(threads[..t], threads[t..]);
    assert threads[..t] + threads[t..] == threads && threads[t..][1..] == threads[t + 1..];
    SumsTurned(Total(threads[..t]), HeldBy(threads[t]), Total(threads[t + 1..]));
  }

  lemma TotalUpdate(threads: seq<Thread>, t: nat, th: Thread)
    requires t < |threads|
    ensures Total(threads[t := th]) == TotalBut(threads, t) + HeldBy(th)
  {
    hide HeldBy, Total;
    var after := threads[t := th];
    TotalSplit(after, t);
    assert after[..t] == threads[..t] && after[t + 1..] == threads[t + 1..];
  }

  lemma TotalHas(threads: seq<Thread>, i: nat)
    requires i < |threads|
    ensures HeldBy(threads[i]) <= Total(threads)
  {
    hide Total, TotalBut, HeldBy;
    TotalSplit(threads, i);
  }

  /** What another thread holds is among what all but thread t hold. */
  lemma TotalButHas(threads: seq<Thread>, t: nat, i: nat)
    requires t < |threads| && i < |threads| && i != t
    ensures HeldBy(threads[i]) <= TotalBut(threads, t)
  {
    hide Total, HeldBy;
    if i < t {
      TotalHas(threads[..t], i);
    } else {
      TotalHas(threads[t + 1..], i - t - 1);
    }
  }

  // ----- every step -----

  /** One thread's region: the cache stays sound, the references exact, and the others keep what they have. */
  lemma RegionInv(ns: Namespace, extra: multiset<Id>, s: State, t: nat, act: Action, s': State)
    requires Inv(ns, extra, s) && Next(ns, s, Do(t, act), s')
    ensures Sound(s'.c, s'.g, ns, extra + Total(s'.threads)) && Keeps(s.c, s'.c, extra + TotalBut(s.threads, t))
    ensures ThreadOk(ns, s'.c, s'.threads[t])
  {
    hide Sound, Keeps, Applied, Plan, ThreadOk, HeldBy, Total, TotalBut, Can;
    var th, r := s.threads[t], Plan(ns, s.c, s.threads[t], act);
    var held := extra + TotalBut(s.threads, t);
    var v := View(s.c, s.g, extra + Total(s.threads));
    TotalSplit(s.threads, t);
    TotalUpdate(s.threads, t, r.1);
    assert v.all == held + HeldBy(th);
    PlanAllowed(ns, v, th, act, held);
    EffectSound(s.c, s.g, r.0, s'.c, s'.g, ns, v.all, held);
    PlanBalance(ns, s.c, th, act);
    var v' := View(s'.c, s'.g, extra + Total(s'.threads));
    assert v'.all == held + HeldBy(r.1);
    BalancedWith(held, HeldBy(th), HeldBy(r.1), Gains(s.c, r.0), Loses(r.0));
    PlanAfter(ns, v, v', held, th, act);
  }

  lemma OthersStay(ns: Namespace, v: View, v': View, held: multiset<Id>, threads: seq<Thread>, t: nat)
    requires Ran(ns, v, v', held) && t < |threads| && TotalBut(threads, t) <= held && held <= v'.all
    requires forall i :: 0 <= i < |threads| ==> ThreadOk(ns, v.c, threads[i])
    ensures forall i :: 0 <= i < |threads| && i != t ==> ThreadOk(ns, v'.c, threads[i])
  {
    hide Ran, ThreadOk, HeldBy, TotalBut;
    forall i | 0 <= i < |threads| && i != t ensures ThreadOk(ns, v'.c, threads[i]) {
      TotalButHas(threads, t, i);
      ThreadStays(ns, v, v', held, threads[i]);
    }
  }

  lemma AllStay(ns: Namespace, v: View, v': View, held: multiset<Id>, threads: seq<Thread>)
    requires Ran(ns, v, v', held) && Total(threads) <= held && held <= v'.all
    requires forall i :: 0 <= i < |threads| ==> ThreadOk(ns, v.c, threads[i])
    ensures forall i :: 0 <= i < |threads| ==> ThreadOk(ns, v'.c, threads[i])
  {
    hide Ran, ThreadOk, HeldBy, Total;
    forall i | 0 <= i < |threads| ensures ThreadOk(ns, v'.c, threads[i]) {
      TotalHas(threads, i);
      ThreadStays(ns, v, v', held, threads[i]);
    }
  }

  /** A new thread takes a reference to its current directory. */
  lemma NewThreadInv(ns: Namespace, extra: multiset<Id>, s: State, d: Id, place: Place, s': State)
    requires Inv(ns, extra, s) && d in s.c.ref && place != [] && (IsUnlinked(s.c, d) || IsAt(s.c, d, place))
    requires Applied(s.c, s.g, Get(d), s'.c, s'.g) && s'.threads == s.threads + [Thread(d, place, multiset{}, Idle)]
    ensures Inv(ns, extra, s') && Keeps(s.c, s'.c, extra)
  {
    hide Sound, Keeps, Applied, PcOk, IsUnlinked, IsAt, Total;
    var th := Thread(d, place, multiset{}, Idle);
    var v, v' := View(s.c, s.g, extra + Total(s.threads)), View(s'.c, s'.g, extra + Total(s'.threads));
    GetAllowed(ns, v, d, place, v.all);
    EffectSound(s.c, s.g, Get(d), s'.c, s'.g, ns, v.all, v.all);
    TotalOne(s.threads, th);
    NewTotal(extra, Total(s.threads), d);
    CwdStays(v.c, v.g, ns, v.all, v'.c, v'.g, v'.all, v.all, d, place);
    IdleOk(ns, s'.c, d);
    AllStay(ns, v, v', v.all, s.threads);
    KeepsFewer(s.c, s'.c, v.all, extra);
  }

  lemma TotalOne(threads: seq<Thread>, th: Thread)
    requires th.kept == multiset{} && th.pc == Idle
    ensures Total(threads + [th]) == Total(threads) + multiset{th.cwd}
  {
    hide HeldBy;
    TotalConcat(threads, [th]);
    assert [th][1..] == [];
    IdleHolds(th);
    Sums(multiset{th.cwd}, multiset{}, multiset{});
  }

  lemma IdleHolds(th: Thread)
    requires th.kept == multiset{} && th.pc == Idle
    ensures HeldBy(th) == multiset{th.cwd}
  {
  }

  lemma ThreadCwd(ns: Namespace, v: View, threads: seq<Thread>, t: nat)
    requires Sound(v.c, v.g, ns, v.all) && t < |threads| && ThreadOk(ns, v.c, threads[t]) && Total(threads) <= v.all
    ensures threads[t].cwd in v.c.ref && threads[t].cwdPlace != []
    ensures IsUnlinked(v.c, threads[t].cwd) || IsAt(v.c, threads[t].cwd, threads[t].cwdPlace)
  {
    hide Sound, Total;
    SoundFacts(v.c, v.g, ns, v.all);
    TotalHas(threads, t);
    assert threads[t].cwd in HeldBy(threads[t]);
  }

  lemma NewTotal(extra: multiset<Id>, total: multiset<Id>, d: Id)
    ensures extra + total + multiset{d} - multiset{} == extra + (total + multiset{d})
    ensures extra + total <= extra + (total + multiset{d})
  {
  }

  /** What a step does to the cache it may do. */
  lemma StepAllowed(ns: Namespace, extra: multiset<Id>, s: State, e: Step)
    requires Inv(ns, extra, s) && Enabled(s.c, s.threads, e)
    ensures Allowed(s.c, ns, extra + Total(s.threads), Planned(ns, s.c, s.threads, e).0, multiset{})
  {
    hide Sound, Plan, ThreadOk, Total, Can, IsAt, IsUnlinked, HeldBy;
    var v := View(s.c, s.g, extra + Total(s.threads));
    if e.Do? {
      TotalHas(s.threads, e.t);
      Sums(HeldBy(s.threads[e.t]), multiset{}, multiset{});
      PlanAllowed(ns, v, s.threads[e.t], e.act, multiset{});
    } else if e.First? {
      RootPlace(s.c, s.g, ns, v.all);
      GetAllowed(ns, v, s.c.root, [s.c.ip[s.c.root]], multiset{});
    } else if e.Fork? {
      ThreadCwd(ns, v, s.threads, e.t);
      GetAllowed(ns, v, s.threads[e.t].cwd, s.threads[e.t].cwdPlace, multiset{});
    }
  }

  /** Every step of every thread keeps the invariant, and keeps for everybody else what they hold. */
  lemma StepInv(ns: Namespace, extra: multiset<Id>, s: State, e: Step, s': State)
    requires Inv(ns, extra, s) && Next(ns, s, e, s')
    ensures Inv(ns, extra, s') && Keeps(s.c, s'.c, extra)
  {
    hide Sound, Keeps, Applied, Plan, ThreadOk, Total, TotalBut, Can;
    var v, v' := View(s.c, s.g, extra + Total(s.threads)), View(s'.c, s'.g, extra + Total(s'.threads));
    if e.Do? {
      var held := extra + TotalBut(s.threads, e.t);
      RegionInv(ns, extra, s, e.t, e.act, s');
      TotalUpdate(s.threads, e.t, s'.threads[e.t]);
      OthersStay(ns, v, v', held, s.threads, e.t);
      KeepsFewer(s.c, s'.c, held, extra);
    } else if e.First? {
      RootPlace(s.c, s.g, ns, v.all);
      NewThreadInv(ns, extra, s, s.c.root, [s.c.ip[s.c.root]], s');
    } else if e.Fork? {
      ThreadCwd(ns, v, s.threads, e.t);
      NewThreadInv(ns, extra, s, s.threads[e.t].cwd, s.threads[e.t].cwdPlace, s');
    } else {
      EffectSound(s.c, s.g, Limit(e.max), s'.c, s'.g, ns, v.all, v.all);
      assert v.all + multiset{} - multiset{} == v.all;
      AllStay(ns, v, v', v.all, s.threads);
      KeepsFewer(s.c, s'.c, v.all, extra);
    }
  }

  // ----- every run -----

  ghost predicate Run(ns: Namespace, states: seq<State>, steps: seq<Step>) {
    && |states| == |steps| + 1
    && forall i :: 0 <= i < |steps| ==> Next(ns, states[i], steps[i], states[i + 1])
  }

  lemma {:induction false} RunInv(ns: Namespace, extra: multiset<Id>, states: seq<State>, steps: seq<Step>, k: nat)
    requires Run(ns, states, steps) && Inv(ns, extra, states[0]) && k < |states|
    ensures Inv(ns, extra, states[k])
  {
    hide Inv, Next;
    if k > 0 {
      RunInv(ns, extra, states, steps, k - 1);
      StepInv(ns, extra, states[k - 1], steps[k - 1], states[k]);
    }
  }

  ghost predicate Initial(s: State, rootIp: Inode) {
    s == State(InitialCache(rootIp), InitialLedger(), [])
  }

  lemma InitialInv(ns: Namespace, s: State, rootIp: Inode)
    requires Initial(s, rootIp)
    ensures Inv(ns, multiset{}, s)
  {
    InitialOk(rootIp);
  }

  /**
   Whatever the threads do, in whatever order: no directory ever has two entries of one
   name, no entry ever disagrees with the file system, and every reference to an entry is
   held by the thread it was given to, or by the cache itself for its two roots.
  */
  lemma RunSafe(ns: Namespace, rootIp: Inode, states: seq<State>, steps: seq<Step>, k: nat)
    requires Run(ns, states, steps) && Initial(states[0], rootIp) && k < |states|
    ensures NamesUnique(states[k].c) && Coherent(states[k].c, ns)
    ensures states[k].g.handles == Total(states[k].threads) + multiset{states[k].c.root, states[k].c.unlinked}
    ensures Ok(states[k].c, states[k].g) && states[k].g.limbo == {} && states[k].c.lruSize <= states[k].c.maxLru
  {
    hide Next, Ok, NamesUnique, Coherent, ThreadOk, Total, Initial;
    InitialInv(ns, states[0], rootIp);
    RunInv(ns, multiset{}, states, steps, k);
    Sums(Total(states[k].threads), multiset{}, multiset{});
  }

  lemma {:induction false} RunKeeps(ns: Namespace, extra: multiset<Id>, states: seq<State>, steps: seq<Step>, i: nat,
                                    k: nat)
    requires Run(ns, states, steps) && Inv(ns, extra, states[0]) && i <= k < |states|
    ensures Keeps(states[i].c, states[k].c, extra)
    decreases k
  {
    hide Keeps, Next, Shape, Sound, ThreadOk, Total;
    if i == k {
      KeepsSame(states[i].c, extra);
    } else {
      RunKeeps(ns, extra, states, steps, i, k - 1);
      RunInv(ns, extra, states, steps, i);
      RunInv(ns, extra, states, steps, k - 1);
      StepInv(ns, extra, states[k - 1], steps[k - 1], states[k]);
      InvShape(ns, extra, states[i]);
      InvShape(ns, extra, states[k - 1]);
      InvShape(ns, extra, states[k]);
      KeepsTrans(states[i].c, states[k - 1].c, states[k].c, extra);
    }
  }

  lemma InvShape(ns: Namespace, extra: multiset<Id>, s: State)
    requires Inv(ns, extra, s)
    ensures Shape(s.c)
  {
    hide Sound, Shape, ThreadOk;
    SoundShape(s.c, s.g, ns, extra + Total(s.threads));
  }

  // ----- what a walk gives its thread -----

  function Goal(pc: Pc): Walked
    requires !pc.Idle?
  {
    if pc.Failing? || pc.Done? then pc.goal else pc.job.goal
  }

  /** A thread that began as th0, on its way to that goal, with what it had before. */
  ghost predicate Journey(th: Thread, th0: Thread, goal: Walked) {
    !th.pc.Idle? && Goal(th.pc) == goal && th == th0.(pc := th.pc)
  }

  lemma RegionJourney(ns: Namespace, c: Dcache, th: Thread, th0: Thread, goal: Walked)
    requires Can(c, th, Advance) && Journey(th, th0, goal)
    ensures Journey(Plan(ns, c, th, Advance).1, th0, goal)
  {
    hide ChildNamed, Move, Skip;
  }

  lemma BeginJourney(ns: Namespace, c: Dcache, th: Thread, path: string)
    requires Can(c, th, Begin(path))
    ensures Journey(Plan(ns, c, th, Begin(path)).1, th,
      Expected(ns, c.ip[c.root], path, IsUnlinked(c, th.cwd), th.cwdPlace))
  {
    hide Walk;
  }

  lemma StepJourney(ns: Namespace, s: State, e: Step, s': State, t: nat, th0: Thread, goal: Walked)
    requires Next(ns, s, e, s') && t < |s.threads| && Journey(s.threads[t], th0, goal) && e != Do(t, Keep)
    ensures t < |s'.threads| && Journey(s'.threads[t], th0, goal)
  {
    hide Applied, Plan, Journey;
    JourneyIsBusy(s.threads[t], th0, goal);
    if e.Do? && e.t == t {
      RegionJourney(ns, s.c, s.threads[t], th0, goal);
    }
  }

  lemma JourneyIsBusy(th: Thread, th0: Thread, goal: Walked)
    requires Journey(th, th0, goal)
    ensures !th.pc.Idle?
  {
  }

  lemma {:induction false} RunJourney(ns: Namespace, states: seq<State>, steps: seq<Step>, t: nat, path: string, i: nat,
                                      k: nat)
    requires Run(ns, states, steps) && i < k < |states| && steps[i] == Do(t, Begin(path))
    requires forall m :: i < m < k ==> steps[m] != Do(t, Keep)
    ensures t < |states[k].threads| && Began(ns, states[i], t, path)
    ensures Journey(states[k].threads[t], states[i].threads[t], Aim(ns, states[i], t, path))
    decreases k
  {
    hide Journey, Plan, Applied, Expected;
    assert Next(ns, states[k - 1], steps[k - 1], states[k]);
    if k == i + 1 {
      BeginJourney(ns, states[i].c, states[i].threads[t], path);
    } else {
      RunJourney(ns, states, steps, t, path, i, k - 1);
      StepJourney(ns, states[k - 1], steps[k - 1], states[k], t, states[i].threads[t], Aim(ns, states[i], t, path));
    }
  }

  predicate Began(ns: Namespace, s: State, t: nat, path: string) {
    t < |s.threads| && s.threads[t].cwdPlace != [] && s.c.root in s.c.ip
  }

  /** Where the walk without a cache leads from the state it began in. */
  function Aim(ns: Namespace, s: State, t: nat, path: string): Walked
    requires Began(ns, s, t, path)
  {
    var th := s.threads[t];
    Expected(ns, s.c.ip[s.c.root], path, IsUnlinked(s.c, th.cwd), th.cwdPlace)
  }

  /**
   A walk that any number of other threads interleave with ends where the walk without a
   cache ends, and leaves its thread with exactly one reference more, or with its error and
   exactly what it had.
  */
  lemma WalkResult(ns: Namespace, rootIp: Inode, states: seq<State>, steps: seq<Step>, t: nat, path: string, i: nat,
                   k: nat)
    requires Run(ns, states, steps) && Initial(states[0], rootIp)
    requires i < k < |states| && steps[i] == Do(t, Begin(path))
    requires forall m :: i < m < k ==> steps[m] != Do(t, Keep)
    requires t < |states[k].threads| && states[k].threads[t].pc.Done?
    ensures Began(ns, states[i], t, path)
    ensures var r, aim := states[k].threads[t].pc.r, Aim(ns, states[i], t, path);
      if r.Entry? then aim.At? && IsAt(states[k].c, r.d, aim.place) else aim == Fails(r.error)
    ensures var r, before := states[k].threads[t].pc.r, HeldBy(states[i].threads[t]);
      HeldBy(states[k].threads[t]) == if r.Entry? then before + multiset{r.d} else before
  {
    hide Next, Sound, Total, Initial, IsAt, Aim;
    InitialInv(ns, states[0], rootIp);
    RunInv(ns, multiset{}, states, steps, k);
    RunJourney(ns, states, steps, t, path, i, k);
    BeganIdle(ns, states[i], steps[i], states[i + 1], t, path);
    DoneIs(ns, states[k].c, states[k].threads[t], states[i].threads[t], Aim(ns, states[i], t, path));
  }

  lemma BeganIdle(ns: Namespace, s: State, e: Step, s': State, t: nat, path: string)
    requires Next(ns, s, e, s') && e == Do(t, Begin(path))
    ensures t < |s.threads| && s.threads[t].pc.Idle?
  {
  }

  lemma DoneIs(ns: Namespace, c: Dcache, th: Thread, th0: Thread, goal: Walked)
    requires ThreadOk(ns, c, th) && th.pc.Done? && Journey(th, th0, goal) && th0.pc.Idle?
    ensures if th.pc.r.Entry? then goal.At? && IsAt(c, th.pc.r.d, goal.place) else goal == Fails(th.pc.r.error)
    ensures HeldBy(th) == if th.pc.r.Entry? then HeldBy(th0) + multiset{th.pc.r.d} else HeldBy(th0)
  {
    hide IsAt;
  }

  /** Regions a walking thread still has before it is done, at most. */
  function Remaining(pc: Pc): nat {
    match pc
    case Idle => 0
    case Done(_, _) => 0
    case Failing(_, _, _) => 1
    case Loop(_, job) => 9 * |job.path| + 2
    case CwdTaken(job) => 9 * |job.path| + 3
    case Leaving(_, job, _) => 9 * |job.path| + 3
    case Lost(_, _, job, _, _) => 9 * |job.path| + 4
    case Filled(_, _, job, _) => 9 * |job.path| + 5
    case Filling(_, _, job, _) => 9 * |job.path| + 6
    case Missed(_, _, job) => 9 * |job.path| + 7
    case Permitted(_, _, job) => 9 * |job.path| + 8
    case Checked(_, _, job) => 9 * |job.path| + 9
  }

  /** Nothing the other threads do makes a walk start over. */
  lemma WalkShortens(ns: Namespace, c: Dcache, th: Thread)
    requires Can(c, th, Advance)
    ensures Remaining(Plan(ns, c, th, Advance).1.pc) < Remaining(th.pc)
  {
    hide ChildNamed, Move;
  }

  // ----- the race to register one name -----

  /** The second search finds the entry another thread has registered meanwhile. */
  lemma WinnerIsFound(ns: Namespace, extra: multiset<Id>, s: State, t: nat, w: Id)
    requires Inv(ns, extra, s) && t < |s.threads| && s.threads[t].pc.Filled? && Can(s.c, s.threads[t], Advance)
    requires var pc := s.threads[t].pc;
      w in s.c.parent && s.c.parent[w] == pc.dp && w in s.c.name && s.c.name[w] == pc.name
    ensures var pc := s.threads[t].pc;
      Plan(ns, s.c, s.threads[t], Advance) ==
      (Get(w), s.threads[t].(pc := Lost(pc.dp, pc.name, Stepped(ns, pc.name, pc.job), pc.d, w)))
  {
    hide Ok, ChildNamed, Total;
    var pc := s.threads[t].pc;
    SoundFacts(s.c, s.g, ns, extra + Total(s.threads));
    ChildNamedFacts(s.c, s.g, pc.dp, pc.name);
    FilledFacts(ns, View(s.c, s.g, extra + Total(s.threads)), s.threads[t]);
  }

  lemma FilledFacts(ns: Namespace, v: View, th: Thread)
    requires Sound(v.c, v.g, ns, v.all) && ThreadOk(ns, v.c, th) && th.pc.Filled?
    ensures th.pc.dp != v.c.unlinked
  {
    hide Sound, IsAt, Walk, Move, Orphan;
    DirectoryFacts(ns, v, th.pc.dp, th.pc.job);
    SoundFacts(v.c, v.g, ns, v.all);
  }

  /** The loser keeps the registered entry and gives up its own, which is freed. */
  lemma LoserEnds(ns: Namespace, extra: multiset<Id>, s: State, t: nat, s': State)
    requires Inv(ns, extra, s) && t < |s.threads| && s.threads[t].pc.Lost? && Next(ns, s, Do(t, Advance), s')
    ensures var pc := s.threads[t].pc;
      && s'.threads[t] == s.threads[t].(pc := Leaving(pc.dp, pc.job, pc.next))
      && pc.d !in s'.c.ref && pc.next in HeldBy(s'.threads[t])
      && pc.next in s'.c.parent && s'.c.parent[pc.next] == pc.dp
      && pc.next in s'.c.name && s'.c.name[pc.next] == pc.name
  {
    hide Sound, Total, Keeps, Applied, IsAt, Walk, Orphan, TotalBut, Can, Region;
    var pc := s.threads[t].pc;
    var v, v' := View(s.c, s.g, extra + Total(s.threads)), View(s'.c, s'.g, extra + Total(s'.threads));
    PutRegion(ns, s.c, s.threads[t]);
    RegionInv(ns, extra, s, t, Advance, s');
    TotalHas(s.threads, t);
    TotalHas(s'.threads, t);
    LinkStays(ns, v, v', extra + TotalBut(s.threads, t), pc.next);
    PutFrees(ns, v, v', pc.d, pc.name);
  }

  lemma PutFrees(ns: Namespace, v: View, v': View, d: Id, name: string)
    requires Sound(v.c, v.g, ns, v.all) && Sound(v'.c, v'.g, ns, v'.all) && d in v.all && Orphan(v.c, d, name)
    requires Applied(v.c, v.g, Put(d), v'.c, v'.g)
    ensures d !in v'.c.ref
  {
    hide Ok, NamesUnique, Coherent, Evolves;
    SoundFacts(v.c, v.g, ns, v.all);
    AloneIsLeaf(v.c, v.g, d);
    StaysLeaf(v.c, v.g, v'.c, v'.g, d);
  }

  /** Nothing but its references and its parent keeps an entry. */
  lemma StaysLeaf(c: Dcache, g: Ledger, c': Dcache, g': Ledger, d: Id)
    requires Evolves(c, g, c', g') && Ok(c', g') && g'.limbo == {} && d !in c.parent && d !in g'.handles
    requires forall e :: e in c.parent ==> c.parent[e] != d
    ensures d !in c'.ref
  {
    hide Ages, SameCache;
    if d in c'.ref {
      QuietMeans(c', g', d);
      if c'.children[d] != [] {
        var k := SomeChild(c', g', d);
      }
    }
  }

  /** A thread whose second search found nothing has linked its own entry. */
  lemma Registered(ns: Namespace, extra: multiset<Id>, s: State, t: nat, s': State)
    requires Inv(ns, extra, s) && t < |s.threads| && s.threads[t].pc.Filled? && Next(ns, s, Do(t, Advance), s')
    requires s'.threads[t].pc.Leaving?
    ensures var pc := s.threads[t].pc;
      && pc.d in s'.c.parent && s'.c.parent[pc.d] == pc.dp && pc.d in s'.c.name && s'.c.name[pc.d] == pc.name
  {
    hide Sound, Total, ChildNamed, IsAt, Walk, MayStep;
    var pc := s.threads[t].pc;
    assert ThreadOk(ns, s.c, s.threads[t]);
    assert Planned(ns, s.c, s.threads, Do(t, Advance)).0 == Register(pc.dp, pc.d);
  }

  /**
   Two threads miss the same name at once.  The one that registers its entry first wins:
   as long as that entry is cached the other one ends up with it, however many regions of
   however many threads run between.
  */
  lemma RaceResult(ns: Namespace, rootIp: Inode, states: seq<State>, steps: seq<Step>, i: nat, t: nat, k: nat, u: nat)
    requires Run(ns, states, steps) && Initial(states[0], rootIp) && i < k < |steps|
    requires steps[i] == Do(t, Advance) && steps[k] == Do(u, Advance)
    requires t < |states[i].threads| && states[i].threads[t].pc.Filled?
    requires t < |states[i + 1].threads| && states[i + 1].threads[t].pc.Leaving?
    requires u < |states[k].threads| && states[k].threads[u].pc.Filled?
    requires var a, b := states[i].threads[t].pc, states[k].threads[u].pc;
      a.dp == b.dp && a.name == b.name && a.d in states[k].c.ref
    ensures u < |states[k + 1].threads|
    ensures var a, b := states[i].threads[t].pc, states[k + 1].threads[u].pc; b.Lost? && b.next == a.d
  {
    hide Sound, Total, ChildNamed, Initial, Applied, ThreadOk, Plan, Keeps;
    var a := states[i].threads[t].pc;
    InitialInv(ns, states[0], rootIp);
    RunInv(ns, multiset{}, states, steps, i);
    RunInv(ns, multiset{}, states, steps, i + 1);
    RunInv(ns, multiset{}, states, steps, k);
    assert Next(ns, states[i], steps[i], states[i + 1]) && Next(ns, states[k], steps[k], states[k + 1]);
    Registered(ns, multiset{}, states[i], t, states[i + 1]);
    RunKeeps(ns, multiset{}, states, steps, i + 1, k);
    InvShape(ns, multiset{}, states[k]);
    LinkKept(states[i + 1].c, states[k].c, a.d);
    WinnerIsFound(ns, multiset{}, states[k], u, a.d);
  }

  lemma LinkKept(c: Dcache, c': Dcache, d: Id)
    requires Keeps(c, c', multiset{}) && d in c.parent && d in c.name && d in c'.ref && Shape(c')
    ensures d in c'.parent && c'.parent[d] == c.parent[d] && d in c'.name && c'.name[d] == c.name[d]
  {
    hide Alone, IsOrphan;
  }
}
