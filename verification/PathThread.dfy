/**
 One thread in dentry_from_path as a program counter between its locked regions: the
 search, the allocation, the file system's look-up, the second search with its
 registration, and the gets and puts.  What a region may do to the cache, what the thread
 holds after it, and where the thread then is.
*/
module PathThread {
  import opened Common
  import opened DentryTree
  import opened DentryCache
  import opened PathNames
  import opened PathSpec

  /** What is left of the path, the place reached, and where the walk without a cache leads. */
  datatype Job = Job(path: string, place: Place, goal: Walked)

  datatype Pc =
    | Idle
    | CwdTaken(job: Job)                                  // dentry_is_unlinked(dp)
    | Loop(dp: Id, job: Job)                              // skipelem, is dp a directory?
    | Checked(dp: Id, name: string, job: Job)             // check_dentry_permission
    | Permitted(dp: Id, name: string, job: Job)           // ".", ".." or the first search
    | Missed(dp: Id, name: string, job: Job)              // dentry_alloc_init_orphan
    | Filling(dp: Id, name: string, job: Job, d: Id)      // VFS_INODE_LOOKUP
    | Filled(dp: Id, name: string, job: Job, d: Id)       // the second search, or registration
    | Lost(dp: Id, name: string, job: Job, d: Id, next: Id) // put of the own entry
    | Leaving(dp: Id, job: Job, next: Id)                 // put of the directory left behind
    | Failing(dp: Id, error: Errno, goal: Walked)         // put on the way out
    | Done(r: Found, goal: Walked)

  /** A thread with its current directory and the entries it kept from earlier walks. */
  datatype Thread = Thread(cwd: Id, cwdPlace: Place, kept: multiset<Id>, pc: Pc)

  datatype Action = Begin(path: string) | Advance | Keep | Close(d: Id)

  function Held(pc: Pc, cwd: Id): multiset<Id> {
    match pc
    case Idle => multiset{}
    case CwdTaken(_) => multiset{cwd}
    case Loop(dp, _) => multiset{dp}
    case Checked(dp, _, _) => multiset{dp}
    case Permitted(dp, _, _) => multiset{dp}
    case Missed(dp, _, _) => multiset{dp}
    case Filling(dp, _, _, d) => multiset{dp} + multiset{d}
    case Filled(dp, _, _, d) => multiset{dp} + multiset{d}
    case Lost(dp, _, _, d, next) => multiset{dp} + multiset{d} + multiset{next}
    case Leaving(dp, _, next) => multiset{dp} + multiset{next}
    case Failing(dp, _, _) => multiset{dp}
    case Done(r, _) => if r.Entry? then multiset{r.d} else multiset{}
  }

  function HeldBy(th: Thread): multiset<Id> {
    multiset{th.cwd} + th.kept + Held(th.pc, th.cwd)
  }

  // ----- one thread's regions -----

  /** dentry_cache_lookup_tree_locked: the first child of that name. */
  function ChildNamed(name: map<Id, string>, kids: seq<Id>, wanted: string): (r: Option<Id>)
    ensures r.Some? ==> r.value in kids && r.value in name && name[r.value] == wanted
    ensures r.None? ==> forall k :: k in kids && k in name ==> name[k] != wanted
  {
    if kids == [] then None
    else if kids[0] in name && name[kids[0]] == wanted then Some(kids[0])
    else ChildNamed(name, kids[1..], wanted)
  }

  predicate Directory(c: Dcache, dp: Id, job: Job) {
    dp in c.ip && c.ip[dp].Some? && dp in c.children && Exists(job.place)
  }

  predicate Exists(place: Place) {
    place != [] && place[|place| - 1].Some?
  }

  /** Whether the action is the thread's next, and its entries are there to be looked at. */
  predicate Can(c: Dcache, th: Thread, act: Action) {
    match act
    case Begin(_) => th.pc.Idle? && th.cwdPlace != [] && c.root in c.ip
    case Keep => th.pc.Done?
    case Close(d) => th.pc.Idle? && d in th.kept
    case Advance =>
      match th.pc
      case Idle => false
      case Done(_, _) => false
      case Loop(dp, _) => dp in c.ip
      case Checked(dp, _, job) => Directory(c, dp, job)
      case Permitted(dp, _, job) => Directory(c, dp, job)
      case Filling(dp, _, job, _) => Directory(c, dp, job)
      case Filled(dp, _, job, _) => Directory(c, dp, job)
      case _ => true
  }

  function Stepped(ns: Namespace, name: string, job: Job): Job
    requires Exists(job.place)
  {
    job.(place := Move(ns, job.place, name))
  }

  function Start(ns: Namespace, c: Dcache, th: Thread, path: string): (Effect, Pc)
    requires th.cwdPlace != [] && c.root in c.ip
  {
    var goal := Expected(ns, c.ip[c.root], path, IsUnlinked(c, th.cwd), th.cwdPlace);
    if path == "" then (Nothing, Done(Error(EINVAL), goal))
    else if path[0] == '/' then (Get(c.root), Loop(c.root, Job(path, [c.ip[c.root]], goal)))
    else (Get(th.cwd), CwdTaken(Job(path, th.cwdPlace, goal)))
  }

  function CheckDirectory(ns: Namespace, c: Dcache, dp: Id, job: Job): Pc
    requires dp in c.ip
  {
    var elem := Skip(job.path);
    if elem.End? then Done(Entry(dp), job.goal)
    else if elem.TooLong? || c.ip[dp].None? then Failing(dp, ENOENT, job.goal)
    else if !ns.isDir(c.ip[dp].value) then Failing(dp, ENOTDIR, job.goal)
    else Checked(dp, elem.name, job.(path := elem.rest))
  }

  function Search(ns: Namespace, c: Dcache, dp: Id, name: string, job: Job): (Effect, Pc)
    requires Directory(c, dp, job)
  {
    if name == "." then (Get(dp), Leaving(dp, Stepped(ns, name, job), dp))
    else if name == ".." then
      var up := if dp in c.parent then c.parent[dp] else dp;
      (Get(up), Leaving(dp, Stepped(ns, name, job), up))
    else
      var child := ChildNamed(c.name, c.children[dp], name);
      if child.Some? then (Get(child.value), Leaving(dp, Stepped(ns, name, job), child.value))
      else (Nothing, Missed(dp, name, job))
  }

  function Recheck(ns: Namespace, c: Dcache, dp: Id, name: string, job: Job, d: Id): (Effect, Pc)
    requires Directory(c, dp, job)
  {
    var child := ChildNamed(c.name, c.children[dp], name);
    if child.Some? then (Get(child.value), Lost(dp, name, Stepped(ns, name, job), d, child.value))
    else (Register(dp, d), Leaving(dp, Stepped(ns, name, job), d))
  }

  /** The next region of a walking thread: its effect on the cache and where it leaves the thread. */
  function Region(ns: Namespace, c: Dcache, th: Thread): (Effect, Pc)
    requires Can(c, th, Advance)
  {
    match th.pc
    case CwdTaken(job) =>
      (Nothing, if IsUnlinked(c, th.cwd) then Failing(th.cwd, ENOENT, job.goal) else Loop(th.cwd, job))
    case Loop(dp, job) => (Nothing, CheckDirectory(ns, c, dp, job))
    case Checked(dp, name, job) =>
      (Nothing, if ns.mayExec(c.ip[dp].value) then Permitted(dp, name, job) else Failing(dp, EACCES, job.goal))
    case Permitted(dp, name, job) => Search(ns, c, dp, name, job)
    case Missed(dp, name, job) => (Alloc(name), Filling(dp, name, job, c.nextId))
    case Filling(dp, name, job, d) => (Fill(d, ns.lookup(c.ip[dp].value, name)), Filled(dp, name, job, d))
    case Filled(dp, name, job, d) => Recheck(ns, c, dp, name, job, d)
    case Lost(dp, name, job, d, next) => (Put(d), Leaving(dp, job, next))
    case Leaving(dp, job, next) => (Put(dp), Loop(next, job))
    case Failing(dp, error, goal) => (Put(dp), Done(Error(error), goal))
    case _ => (Nothing, th.pc)
  }

  function Plan(ns: Namespace, c: Dcache, th: Thread, act: Action): (Effect, Thread)
    requires Can(c, th, act)
  {
    match act
    case Begin(path) => var r := Start(ns, c, th, path); (r.0, th.(pc := r.1))
    case Advance => var r := Region(ns, c, th); (r.0, th.(pc := r.1))
    case Keep => (Nothing, th.(kept := th.kept + Held(th.pc, th.cwd), pc := Idle))
    case Close(d) => (Put(d), th.(kept := th.kept - multiset{d}))
  }

  // ----- what holds of a thread -----

  ghost predicate OnWay(ns: Namespace, c: Dcache, d: Id, job: Job) {
    IsAt(c, d, job.place) && job.place != [] && Walk(ns, job.place, Components(job.path)) == job.goal
  }

  /** At an existing directory, with the walk to go on below it. */
  ghost predicate MayStep(ns: Namespace, c: Dcache, d: Id, name: string, job: Job) {
    && IsAt(c, d, job.place) && Exists(job.place)
    && Walk(ns, Move(ns, job.place, name), Components(job.path)) == job.goal
  }

  predicate MayEnter(ns: Namespace, job: Job)
    requires Exists(job.place)
  {
    ns.mayExec(job.place[|job.place| - 1].value)
  }

  predicate Proper(name: string) {
    name != "." && name != ".."
  }

  ghost predicate PcOk(ns: Namespace, c: Dcache, cwd: Id, pc: Pc) {
    match pc
    case Idle => true
    case CwdTaken(job) => if IsUnlinked(c, cwd) then job.goal == Fails(ENOENT) else OnWay(ns, c, cwd, job)
    case Loop(dp, job) => OnWay(ns, c, dp, job)
    case Checked(dp, name, job) =>
      && IsAt(c, dp, job.place) && Exists(job.place)
      && if MayEnter(ns, job) then MayStep(ns, c, dp, name, job) else job.goal == Fails(EACCES)
    case Permitted(dp, name, job) => MayStep(ns, c, dp, name, job)
    case Missed(dp, name, job) => MayStep(ns, c, dp, name, job) && Proper(name)
    case Filling(dp, name, job, d) => MayStep(ns, c, dp, name, job) && Proper(name) && Orphan(c, d, name)
    case Filled(dp, name, job, d) =>
      && MayStep(ns, c, dp, name, job) && Proper(name) && Orphan(c, d, name)
      && d in c.ip && c.ip[d] == ns.lookup(job.place[|job.place| - 1].value, name)
    case Lost(dp, name, job, d, next) =>
      && OnWay(ns, c, next, job) && Orphan(c, d, name)
      && next in c.parent && c.parent[next] == dp && next in c.name && c.name[next] == name
    case Leaving(dp, job, next) => OnWay(ns, c, next, job)
    case Failing(_, error, goal) => goal == Fails(error)
    case Done(r, goal) => if r.Entry? then goal.At? && IsAt(c, r.d, goal.place) else goal == Fails(r.error)
  }

  ghost predicate ThreadOk(ns: Namespace, c: Dcache, th: Thread) {
    && th.cwdPlace != [] && (IsUnlinked(c, th.cwd) || IsAt(c, th.cwd, th.cwdPlace))
    && PcOk(ns, c, th.cwd, th.pc)
  }

  // ----- what one region means for the other threads, and for its own -----

  /** The cache and its references before or after a region. */
  datatype View = View(c: Dcache, g: Ledger, all: multiset<Id>)

  /** A region ran that keeps, to those who hold `held`, what it promises. */
  ghost predicate Ran(ns: Namespace, v: View, v': View, held: multiset<Id>) {
    Sound(v.c, v.g, ns, v.all) && Sound(v'.c, v'.g, ns, v'.all) && Keeps(v.c, v'.c, held)
  }

  lemma OnWayStays(ns: Namespace, v: View, v': View, held: multiset<Id>, d: Id, job: Job)
    requires Ran(ns, v, v', held) && OnWay(ns, v.c, d, job) && d in v'.all
    ensures OnWay(ns, v'.c, d, job)
  {
    hide Sound, Keeps, IsAt, Walk;
    SoundFacts(v'.c, v'.g, ns, v'.all);
    PlaceKept(v.c, v.g, ns, v.all, v'.c, v'.g, v'.all, held, d, job.place);
  }

  lemma MayStepStays(ns: Namespace, v: View, v': View, held: multiset<Id>, d: Id, name: string, job: Job)
    requires Ran(ns, v, v', held) && IsAt(v.c, d, job.place) && d in v'.all
    ensures IsAt(v'.c, d, job.place) && (MayStep(ns, v.c, d, name, job) ==> MayStep(ns, v'.c, d, name, job))
  {
    hide Sound, Keeps, IsAt, Walk, Move;
    SoundFacts(v'.c, v'.g, ns, v'.all);
    PlaceKept(v.c, v.g, ns, v.all, v'.c, v'.g, v'.all, held, d, job.place);
  }

  lemma LinkStays(ns: Namespace, v: View, v': View, held: multiset<Id>, d: Id)
    requires Ran(ns, v, v', held) && d in v.c.parent && d in v.c.name && d in v'.all
    ensures d in v'.c.parent && v'.c.parent[d] == v.c.parent[d] && d in v'.c.name && v'.c.name[d] == v.c.name[d]
  {
    hide Ok, NamesUnique, Coherent, Alone, IsOrphan;
    SoundFacts(v'.c, v'.g, ns, v'.all);
  }

  lemma ThreadStays(ns: Namespace, v: View, v': View, held: multiset<Id>, th: Thread)
    requires Ran(ns, v, v', held) && HeldBy(th) <= held && HeldBy(th) <= v'.all && ThreadOk(ns, v.c, th)
    ensures ThreadOk(ns, v'.c, th)
  {
    hide Sound, Keeps, IsAt, PcOk, IsUnlinked, Held;
    assert th.cwd in HeldBy(th);
    CwdStays(v.c, v.g, ns, v.all, v'.c, v'.g, v'.all, held, th.cwd, th.cwdPlace);
    assert Held(th.pc, th.cwd) <= HeldBy(th);
    if th.pc.CwdTaken? {
      CwdTakenStays(ns, v, v', held, th.cwd, th.cwdPlace, th.pc.job);
    } else if th.pc.Filling? || th.pc.Filled? || th.pc.Lost? {
      OrphanPcStays(ns, v, v', held, th.cwd, th.pc);
    } else {
      PcStays(ns, v, v', held, th.cwd, th.pc);
    }
  }

  lemma CwdTakenStays(ns: Namespace, v: View, v': View, held: multiset<Id>, cwd: Id, place: Place, job: Job)
    requires Ran(ns, v, v', held) && cwd in v'.all && (IsUnlinked(v.c, cwd) || IsAt(v.c, cwd, place))
    requires PcOk(ns, v.c, cwd, CwdTaken(job))
    ensures PcOk(ns, v'.c, cwd, CwdTaken(job))
  {
    hide Sound, Keeps, IsAt, OnWay, IsUnlinked;
    CwdStays(v.c, v.g, ns, v.all, v'.c, v'.g, v'.all, held, cwd, place);
    if !IsUnlinked(v.c, cwd) {
      OnWayStays(ns, v, v', held, cwd, job);
    }
  }

  lemma PcStays(ns: Namespace, v: View, v': View, held: multiset<Id>, cwd: Id, pc: Pc)
    requires Ran(ns, v, v', held) && Held(pc, cwd) <= v'.all && PcOk(ns, v.c, cwd, pc)
    requires !pc.CwdTaken? && !pc.Filling? && !pc.Filled? && !pc.Lost?
    ensures PcOk(ns, v'.c, cwd, pc)
  {
    hide Ran, IsAt, OnWay, MayStep, Sound, Exists;
    if pc.Loop? {
      OnWayStays(ns, v, v', held, pc.dp, pc.job);
    } else if pc.Leaving? {
      OnWayStays(ns, v, v', held, pc.next, pc.job);
    } else if pc.Checked? || pc.Permitted? || pc.Missed? {
      DirectoryStays(ns, v, v', held, cwd, pc);
    } else if pc.Done? && pc.r.Entry? {
      ResultStays(ns, v, v', held, pc.r.d, pc.goal.place);
    }
  }

  lemma DirectoryStays(ns: Namespace, v: View, v': View, held: multiset<Id>, cwd: Id, pc: Pc)
    requires Ran(ns, v, v', held) && Held(pc, cwd) <= v'.all && PcOk(ns, v.c, cwd, pc)
    requires pc.Checked? || pc.Permitted? || pc.Missed?
    ensures PcOk(ns, v'.c, cwd, pc)
  {
    hide Ran, IsAt, Walk, Move, Sound;
    MayStepStays(ns, v, v', held, pc.dp, pc.name, pc.job);
  }

  lemma ResultStays(ns: Namespace, v: View, v': View, held: multiset<Id>, d: Id, place: Place)
    requires Ran(ns, v, v', held) && d in v'.all && IsAt(v.c, d, place)
    ensures IsAt(v'.c, d, place)
  {
    hide Sound, Keeps, IsAt;
    SoundFacts(v'.c, v'.g, ns, v'.all);
    PlaceKept(v.c, v.g, ns, v.all, v'.c, v'.g, v'.all, held, d, place);
  }

  lemma OrphanPcStays(ns: Namespace, v: View, v': View, held: multiset<Id>, cwd: Id, pc: Pc)
    requires Ran(ns, v, v', held) && Held(pc, cwd) <= held && Held(pc, cwd) <= v'.all && PcOk(ns, v.c, cwd, pc)
    requires pc.Filling? || pc.Filled? || pc.Lost?
    ensures PcOk(ns, v'.c, cwd, pc)
  {
    hide Sound, Keeps, IsAt, Orphan, Walk, Move;
    OrphanStays(v.c, v'.c, v'.g, ns, v'.all, held, pc.d, pc.name);
    if pc.Lost? {
      OnWayStays(ns, v, v', held, pc.next, pc.job);
      LinkStays(ns, v, v', held, pc.next);
    } else {
      MayStepStays(ns, v, v', held, pc.dp, pc.name, pc.job);
    }
  }

  // ----- a thread's next region: what it may do, what it holds after, where it is after -----

  /** The search of the children finds the entry of that name below dp, if there is one. */
  lemma ChildNamedFacts(c: Dcache, g: Ledger, dp: Id, name: string)
    requires Ok(c, g) && dp in c.children
    ensures match ChildNamed(c.name, c.children[dp], name)
      case Some(k) => k in c.parent && c.parent[k] == dp && k in c.ref && k in c.name && c.name[k] == name
      case None => NameFree(c, dp, name)
  {
    hide ChildNamed;
    OkFacts(c, g);
    var found := ChildNamed(c.name, c.children[dp], name);
    if found.Some? {
      assert found.value in c.children[dp];
    } else {
      assert forall e :: e in c.parent && c.parent[e] == dp ==> e in c.children[dp];
    }
  }

  lemma DirectoryFacts(ns: Namespace, v: View, dp: Id, job: Job)
    requires Sound(v.c, v.g, ns, v.all) && IsAt(v.c, dp, job.place) && Exists(job.place)
    ensures Directory(v.c, dp, job) && v.c.ip[dp] == job.place[|job.place| - 1] && dp in v.c.ref
    ensures dp == v.c.root || (dp in v.c.parent && dp != v.c.unlinked)
  {
    hide Sound, IsAt;
    PlaceFacts(v.c, v.g, ns, v.all, dp, job.place);
  }

  /** A thread on its way always has a next region. */
  lemma NeverStuck(ns: Namespace, v: View, th: Thread)
    requires Sound(v.c, v.g, ns, v.all) && ThreadOk(ns, v.c, th) && !th.pc.Idle? && !th.pc.Done?
    ensures Can(v.c, th, Advance)
  {
    hide Sound, IsAt, Walk, Move, Directory, Exists, Orphan, IsUnlinked;
    if th.pc.Loop? {
      PlaceFacts(v.c, v.g, ns, v.all, th.pc.dp, th.pc.job.place);
    } else if th.pc.Checked? || th.pc.Permitted? || th.pc.Filling? || th.pc.Filled? {
      DirectoryFacts(ns, v, th.pc.dp, th.pc.job);
    }
  }

  lemma UpIsPlaced(ns: Namespace, v: View, dp: Id, place: Place)
    requires Sound(v.c, v.g, ns, v.all) && IsAt(v.c, dp, place) && Exists(place)
    ensures var up := if dp in v.c.parent then v.c.parent[dp] else dp;
      up in v.c.ref && IsAt(v.c, up, Move(ns, place, ".."))
  {
    hide Sound, IsAt;
    PlaceFacts(v.c, v.g, ns, v.all, dp, place);
  }

  lemma GetAllowed(ns: Namespace, v: View, d: Id, place: Place, held: multiset<Id>)
    requires Sound(v.c, v.g, ns, v.all) && d in v.c.ref
    requires (IsUnlinked(v.c, d) || IsAt(v.c, d, place) || d in v.c.parent)
    ensures Allowed(v.c, ns, v.all, Get(d), held)
  {
    hide Sound, IsAt;
    if IsAt(v.c, d, place) {
      PlaceFacts(v.c, v.g, ns, v.all, d, place);
    }
  }

  lemma SearchAllowed(ns: Namespace, v: View, dp: Id, name: string, job: Job, held: multiset<Id>)
    requires Sound(v.c, v.g, ns, v.all) && IsAt(v.c, dp, job.place) && Exists(job.place) && Directory(v.c, dp, job)
    ensures Allowed(v.c, ns, v.all, Search(ns, v.c, dp, name, job).0, held)
  {
    hide Sound, IsAt, Ok, NamesUnique, Coherent, ChildNamed, Allowed, Move;
    SoundFacts(v.c, v.g, ns, v.all);
    DirectoryFacts(ns, v, dp, job);
    UpIsPlaced(ns, v, dp, job.place);
    ChildNamedFacts(v.c, v.g, dp, name);
    var e := Search(ns, v.c, dp, name, job).0;
    if e.Get? {
      GetAllowed(ns, v, e.d, if name == ".." then Move(ns, job.place, "..") else job.place, held);
    } else {
      NothingAllowed(ns, v, held);
    }
  }

  lemma NothingAllowed(ns: Namespace, v: View, held: multiset<Id>)
    ensures Allowed(v.c, ns, v.all, Nothing, held)
  {
  }

  /** Nobody else holds an orphan that this thread holds. */
  lemma OrphanIsMine(ns: Namespace, v: View, d: Id, name: string, mine: multiset<Id>, held: multiset<Id>)
    requires Sound(v.c, v.g, ns, v.all) && Orphan(v.c, d, name) && d in mine && mine + held <= v.all
    ensures d !in held && d in v.all && d in v.c.ip
  {
    hide Ok, NamesUnique, Coherent;
    SoundFacts(v.c, v.g, ns, v.all);
    SoleReference(v.c, v.g, mine, held, d);
  }

  lemma RecheckAllowed(ns: Namespace, v: View, dp: Id, name: string, job: Job, d: Id, mine: multiset<Id>,
                       held: multiset<Id>)
    requires Sound(v.c, v.g, ns, v.all) && Directory(v.c, dp, job) && dp in mine && d in mine && mine + held <= v.all
    requires PcOk(ns, v.c, dp, Filled(dp, name, job, d))
    ensures Allowed(v.c, ns, v.all, Recheck(ns, v.c, dp, name, job, d).0, held)
  {
    hide Sound, IsAt, Ok, NamesUnique, Coherent, ChildNamed, Move, Walk, NameFree;
    SoundFacts(v.c, v.g, ns, v.all);
    DirectoryFacts(ns, v, dp, job);
    ChildNamedFacts(v.c, v.g, dp, name);
    OrphanIsMine(ns, v, d, name, mine, held);
    var e := Recheck(ns, v.c, dp, name, job, d).0;
    if e.Get? {
      GetAllowed(ns, v, e.d, job.place, held);
    }
  }

  lemma FillAllowed(ns: Namespace, v: View, name: string, d: Id, ip: Option<Inode>, mine: multiset<Id>,
                    held: multiset<Id>)
    requires Sound(v.c, v.g, ns, v.all) && d in mine && mine + held <= v.all && Orphan(v.c, d, name)
    ensures Allowed(v.c, ns, v.all, Fill(d, ip), held)
  {
    hide Sound;
    OrphanIsMine(ns, v, d, name, mine, held);
  }

  lemma RegionAllowed(ns: Namespace, v: View, th: Thread, held: multiset<Id>)
    requires Sound(v.c, v.g, ns, v.all) && ThreadOk(ns, v.c, th) && Can(v.c, th, Advance) && HeldBy(th) + held <= v.all
    ensures Allowed(v.c, ns, v.all, Region(ns, v.c, th).0, held)
  {
    hide Sound, IsAt, Orphan, Allowed, Walk, Move, Search, Recheck, IsUnlinked, CheckDirectory;
    if th.pc.Permitted? {
      SearchAllowed(ns, v, th.pc.dp, th.pc.name, th.pc.job, held);
    } else if th.pc.Filling? {
      FillAllowed(ns, v, th.pc.name, th.pc.d, Region(ns, v.c, th).0.ip, HeldBy(th), held);
    } else if th.pc.Filled? {
      RecheckAllowed(ns, v, th.pc.dp, th.pc.name, th.pc.job, th.pc.d, HeldBy(th), held);
    } else {
      SimpleAllowed(ns, v, Region(ns, v.c, th).0, held);
    }
  }

  lemma SimpleAllowed(ns: Namespace, v: View, e: Effect, held: multiset<Id>)
    requires e.Nothing? || e.Alloc? || (e.Put? && e.d in v.all)
    ensures Allowed(v.c, ns, v.all, e, held)
  {
  }

  lemma PlanAllowed(ns: Namespace, v: View, th: Thread, act: Action, held: multiset<Id>)
    requires Sound(v.c, v.g, ns, v.all) && ThreadOk(ns, v.c, th) && Can(v.c, th, act) && HeldBy(th) + held <= v.all
    ensures Allowed(v.c, ns, v.all, Plan(ns, v.c, th, act).0, held)
  {
    hide Sound, IsAt, Allowed, Region, PcOk, IsUnlinked, Expected;
    if act.Advance? {
      RegionAllowed(ns, v, th, held);
    } else if act.Begin? && act.path != "" {
      SoundFacts(v.c, v.g, ns, v.all);
      RootPlace(v.c, v.g, ns, v.all);
      assert th.cwd in HeldBy(th);
      var d := Plan(ns, v.c, th, act).0.d;
      GetAllowed(ns, v, d, if d == th.cwd then th.cwdPlace else [v.c.ip[v.c.root]], held);
    } else {
      SimpleAllowed(ns, v, Plan(ns, v.c, th, act).0, held);
    }
  }

  ghost predicate Balanced(before: multiset<Id>, after: multiset<Id>, gain: multiset<Id>, loss: multiset<Id>) {
    loss <= before && after == before + gain - loss
  }

  lemma BalancedWith(rest: multiset<Id>, before: multiset<Id>, after: multiset<Id>, gain: multiset<Id>,
                     loss: multiset<Id>)
    requires Balanced(before, after, gain, loss)
    ensures Balanced(rest + before, rest + after, gain, loss)
  {
  }

  lemma BalancedGain(before: multiset<Id>, gain: multiset<Id>)
    ensures Balanced(before, before + gain, gain, multiset{})
    ensures before + multiset{} == before
  {
  }

  lemma BalancedLoss(a: multiset<Id>, b: multiset<Id>, loss: multiset<Id>)
    ensures Balanced(a + loss + b, a + b, multiset{}, loss)
  {
  }

  lemma BalancedFirst(b: multiset<Id>, loss: multiset<Id>)
    ensures Balanced(loss + b, b, multiset{}, loss)
  {
  }

  lemma BalancedLast(loss: multiset<Id>)
    ensures Balanced(loss, multiset{}, multiset{}, loss)
  {
  }

  lemma HeldAt(pc: Pc, cwd: Id)
    ensures pc.CwdTaken? ==> Held(pc, cwd) == multiset{cwd}
    ensures pc.Loop? || pc.Checked? || pc.Permitted? || pc.Missed? || pc.Failing? ==> Held(pc, cwd) == multiset{pc.dp}
    ensures pc.Filling? || pc.Filled? ==> Held(pc, cwd) == multiset{pc.dp} + multiset{pc.d}
    ensures pc.Lost? ==> Held(pc, cwd) == multiset{pc.dp} + multiset{pc.d} + multiset{pc.next}
    ensures pc.Leaving? ==> Held(pc, cwd) == multiset{pc.dp} + multiset{pc.next}
    ensures pc.Done? ==> Held(pc, cwd) == if pc.r.Entry? then multiset{pc.r.d} else multiset{}
  {
  }

  lemma SearchIsLook(ns: Namespace, c: Dcache, dp: Id, name: string, job: Job)
    requires Directory(c, dp, job)
    ensures var r := Search(ns, c, dp, name, job);
      (r.0.Get? && r.1 == Leaving(dp, Stepped(ns, name, job), r.0.d)) || r == (Nothing, Missed(dp, name, job))
  {
    hide ChildNamed, Stepped;
  }

  lemma FoundBalance(c: Dcache, cwd: Id, dp: Id, job: Job, next: Id)
    ensures Balanced(multiset{dp}, Held(Leaving(dp, job, next), cwd), Gains(c, Get(next)), Loses(Get(next)))
  {
    hide Balanced;
    BalancedGain(multiset{dp}, multiset{next});
  }

  lemma MissedBalance(c: Dcache, cwd: Id, dp: Id, name: string, job: Job)
    ensures Balanced(multiset{dp}, Held(Missed(dp, name, job), cwd), Gains(c, Nothing), Loses(Nothing))
  {
    hide Balanced;
    BalancedGain(multiset{dp}, multiset{});
  }

  lemma SearchBalance(ns: Namespace, c: Dcache, cwd: Id, dp: Id, name: string, job: Job)
    requires Directory(c, dp, job)
    ensures var r := Search(ns, c, dp, name, job);
      Balanced(multiset{dp}, Held(r.1, cwd), Gains(c, r.0), Loses(r.0))
  {
    hide Search, Stepped, Balanced, Held, Gains, Loses;
    var r := Search(ns, c, dp, name, job);
    SearchIsLook(ns, c, dp, name, job);
    if r.0.Get? {
      FoundBalance(c, cwd, dp, Stepped(ns, name, job), r.0.d);
    } else {
      MissedBalance(c, cwd, dp, name, job);
    }
  }

  lemma RecheckBalance(ns: Namespace, c: Dcache, cwd: Id, dp: Id, name: string, job: Job, d: Id)
    requires Directory(c, dp, job)
    ensures var r := Recheck(ns, c, dp, name, job, d);
      Balanced(multiset{dp} + multiset{d}, Held(r.1, cwd), Gains(c, r.0), Loses(r.0))
  {
    hide ChildNamed, Stepped, Balanced, Held;
    var r := Recheck(ns, c, dp, name, job, d);
    HeldAt(r.1, cwd);
    BalancedGain(multiset{dp} + multiset{d}, Gains(c, r.0));
  }

  lemma PutRegion(ns: Namespace, c: Dcache, th: Thread)
    requires Can(c, th, Advance) && (th.pc.Lost? || th.pc.Leaving? || th.pc.Failing?)
    ensures th.pc.Lost? ==> Region(ns, c, th) == (Put(th.pc.d), Leaving(th.pc.dp, th.pc.job, th.pc.next))
    ensures th.pc.Leaving? ==> Region(ns, c, th) == (Put(th.pc.dp), Loop(th.pc.next, th.pc.job))
    ensures th.pc.Failing? ==> Region(ns, c, th) == (Put(th.pc.dp), Done(Error(th.pc.error), th.pc.goal))
  {
    hide Recheck, Search, CheckDirectory;
  }

  lemma LostBalance(c: Dcache, cwd: Id, dp: Id, name: string, job: Job, d: Id, next: Id)
    ensures Balanced(Held(Lost(dp, name, job, d, next), cwd), Held(Leaving(dp, job, next), cwd),
                     Gains(c, Put(d)), Loses(Put(d)))
  {
    hide Balanced;
    BalancedLoss(multiset{dp}, multiset{next}, multiset{d});
  }

  lemma LeavingBalance(c: Dcache, cwd: Id, dp: Id, job: Job, next: Id)
    ensures Balanced(Held(Leaving(dp, job, next), cwd), Held(Loop(next, job), cwd), Gains(c, Put(dp)), Loses(Put(dp)))
  {
    hide Balanced;
    BalancedFirst(multiset{next}, multiset{dp});
  }

  lemma FailingBalance(c: Dcache, cwd: Id, dp: Id, e: Errno, goal: Walked)
    ensures Balanced(Held(Failing(dp, e, goal), cwd), Held(Done(Error(e), goal), cwd),
                     Gains(c, Put(dp)), Loses(Put(dp)))
  {
    hide Balanced;
    BalancedLast(multiset{dp});
  }

  lemma PutBalance(ns: Namespace, c: Dcache, th: Thread)
    requires Can(c, th, Advance) && (th.pc.Lost? || th.pc.Leaving? || th.pc.Failing?)
    ensures var r := Region(ns, c, th);
      Balanced(Held(th.pc, th.cwd), Held(r.1, th.cwd), Gains(c, r.0), Loses(r.0))
  {
    hide Balanced, Held, Region, Can, Gains, Loses;
    var pc := th.pc;
    PutRegion(ns, c, th);
    if pc.Lost? {
      LostBalance(c, th.cwd, pc.dp, pc.name, pc.job, pc.d, pc.next);
    } else if pc.Leaving? {
      LeavingBalance(c, th.cwd, pc.dp, pc.job, pc.next);
    } else {
      FailingBalance(c, th.cwd, pc.dp, pc.error, pc.goal);
    }
  }

  lemma SameBalance(c: Dcache, cwd: Id, pc: Pc, pc': Pc)
    requires Held(pc, cwd) == Held(pc', cwd)
    ensures Balanced(Held(pc, cwd), Held(pc', cwd), Gains(c, Nothing), Loses(Nothing))
  {
    hide Balanced;
    BalancedGain(Held(pc, cwd), multiset{});
  }

  /** Holding one directory, or the entry the walk ended at. */
  predicate AtOne(pc: Pc, cwd: Id, d: Id) {
    || ((pc.Loop? || pc.Checked? || pc.Permitted? || pc.Failing?) && pc.dp == d)
    || (pc.CwdTaken? && cwd == d)
    || (pc.Done? && pc.r == Entry(d))
  }

  lemma HeldOne(pc: Pc, cwd: Id, d: Id)
    requires AtOne(pc, cwd, d)
    ensures Held(pc, cwd) == multiset{d}
  {
  }

  lemma LookRegion(ns: Namespace, c: Dcache, th: Thread, d: Id)
    requires Can(c, th, Advance) && (th.pc.CwdTaken? || th.pc.Loop? || th.pc.Checked?) && AtOne(th.pc, th.cwd, d)
    ensures Region(ns, c, th).0 == Nothing && AtOne(Region(ns, c, th).1, th.cwd, d)
  {
    hide Recheck, Search, Skip;
  }

  lemma LookBalance(ns: Namespace, c: Dcache, th: Thread)
    requires Can(c, th, Advance) && (th.pc.CwdTaken? || th.pc.Loop? || th.pc.Checked?)
    ensures var r := Region(ns, c, th);
      Balanced(Held(th.pc, th.cwd), Held(r.1, th.cwd), Gains(c, r.0), Loses(r.0))
  {
    hide Region, Balanced, Held, Gains, Loses, Can;
    var r, d := Region(ns, c, th), if th.pc.CwdTaken? then th.cwd else th.pc.dp;
    LookRegion(ns, c, th, d);
    HeldOne(th.pc, th.cwd, d);
    HeldOne(r.1, th.cwd, d);
    SameBalance(c, th.cwd, th.pc, r.1);
  }

  lemma FillBalance(ns: Namespace, c: Dcache, th: Thread)
    requires Can(c, th, Advance) && (th.pc.Missed? || th.pc.Filling?)
    ensures var r := Region(ns, c, th);
      Balanced(Held(th.pc, th.cwd), Held(r.1, th.cwd), Gains(c, r.0), Loses(r.0))
  {
    hide Recheck, Search, CheckDirectory, Balanced, Held;
    var r := Region(ns, c, th);
    HeldAt(th.pc, th.cwd);
    HeldAt(r.1, th.cwd);
    BalancedGain(Held(th.pc, th.cwd), Gains(c, r.0));
  }

  lemma RegionBalance(ns: Namespace, c: Dcache, th: Thread)
    requires Can(c, th, Advance)
    ensures var r := Region(ns, c, th);
      Balanced(Held(th.pc, th.cwd), Held(r.1, th.cwd), Gains(c, r.0), Loses(r.0))
  {
    hide Search, Recheck, CheckDirectory, Balanced, Gains, Loses;
    if th.pc.Permitted? {
      SearchBalance(ns, c, th.cwd, th.pc.dp, th.pc.name, th.pc.job);
    } else if th.pc.Filled? {
      RecheckBalance(ns, c, th.cwd, th.pc.dp, th.pc.name, th.pc.job, th.pc.d);
    } else if th.pc.Lost? || th.pc.Leaving? || th.pc.Failing? {
      PutBalance(ns, c, th);
    } else if th.pc.Missed? || th.pc.Filling? {
      FillBalance(ns, c, th);
    } else {
      LookBalance(ns, c, th);
    }
  }

  /** A region's gains and losses are the thread's. */
  lemma PlanBalance(ns: Namespace, c: Dcache, th: Thread, act: Action)
    requires Can(c, th, act)
    ensures var r := Plan(ns, c, th, act); Balanced(HeldBy(th), HeldBy(r.1), Gains(c, r.0), Loses(r.0))
  {
    hide Region, Held, Expected;
    var r := Plan(ns, c, th, act);
    if act.Advance? {
      hide Can, Balanced;
      RegionBalance(ns, c, th);
      BalancedWith(multiset{th.cwd} + th.kept, Held(th.pc, th.cwd), Held(r.1.pc, th.cwd), Gains(c, r.0), Loses(r.0));
    } else if act.Begin? {
      BeginBalance(ns, c, th, act.path);
      BalancedWith(multiset{th.cwd} + th.kept, Held(th.pc, th.cwd), Held(r.1.pc, th.cwd), Gains(c, r.0), Loses(r.0));
    } else {
      KeptBalance(ns, c, th, act);
    }
  }

  lemma BeginBalance(ns: Namespace, c: Dcache, th: Thread, path: string)
    requires Can(c, th, Begin(path))
    ensures var r := Start(ns, c, th, path);
      Balanced(Held(th.pc, th.cwd), Held(r.1, th.cwd), Gains(c, r.0), Loses(r.0))
  {
    hide Expected;
  }

  lemma KeptBalance(ns: Namespace, c: Dcache, th: Thread, act: Action)
    requires Can(c, th, act) && (act.Keep? || act.Close?)
    ensures var r := Plan(ns, c, th, act); Balanced(HeldBy(th), HeldBy(r.1), Gains(c, r.0), Loses(r.0))
  {
    hide Region, Start, Balanced, Held;
    HeldIdle(th.cwd);
    if act.Keep? {
      KeepBalance(multiset{th.cwd}, th.kept, Held(th.pc, th.cwd), Held(Idle, th.cwd));
    } else {
      CloseBalance(multiset{th.cwd}, th.kept, Held(Idle, th.cwd), multiset{act.d});
    }
  }

  lemma HeldIdle(cwd: Id)
    ensures Held(Idle, cwd) == multiset{}
  {
  }

  lemma KeepBalance(a: multiset<Id>, kept: multiset<Id>, held: multiset<Id>, none: multiset<Id>)
    requires none == multiset{}
    ensures Balanced(a + kept + held, a + (kept + held) + none, multiset{}, multiset{})
  {
  }

  lemma CloseBalance(a: multiset<Id>, kept: multiset<Id>, none: multiset<Id>, one: multiset<Id>)
    requires none == multiset{} && one <= kept
    ensures Balanced(a + kept + none, a + (kept - one) + none, multiset{}, one)
  {
  }

  // ----- where a thread is after its region -----

  lemma LoopAfter(ns: Namespace, v: View, cwd: Id, dp: Id, job: Job)
    requires Sound(v.c, v.g, ns, v.all) && OnWay(ns, v.c, dp, job) && dp in v.c.ip
    ensures PcOk(ns, v.c, cwd, CheckDirectory(ns, v.c, dp, job))
  {
    hide Sound, Walk, Move, Skip;
    WalkByElement(ns, job.place, job.path);
    PlaceFacts(v.c, v.g, ns, v.all, dp, job.place);
  }

  lemma CwdAfter(ns: Namespace, v: View, th: Thread)
    requires ThreadOk(ns, v.c, th) && th.pc.CwdTaken?
    ensures PcOk(ns, v.c, th.cwd, Region(ns, v.c, th).1)
  {
    hide IsAt, Walk;
  }

  lemma CheckedAfter(ns: Namespace, v: View, th: Thread)
    requires Sound(v.c, v.g, ns, v.all) && ThreadOk(ns, v.c, th) && th.pc.Checked? && Can(v.c, th, Advance)
    ensures PcOk(ns, v.c, th.cwd, Region(ns, v.c, th).1)
  {
    hide Sound, IsAt, Walk, Move;
    DirectoryFacts(ns, v, th.pc.dp, th.pc.job);
  }

  /** Where "." and ".." and the names of the cached children lead. */
  lemma NextPlace(ns: Namespace, v: View, dp: Id, name: string, job: Job)
    requires Sound(v.c, v.g, ns, v.all) && MayStep(ns, v.c, dp, name, job) && Directory(v.c, dp, job)
    ensures var r := Search(ns, v.c, dp, name, job);
      if r.0.Get? then r.1 == Leaving(dp, Stepped(ns, name, job), r.0.d) && OnWay(ns, v.c, r.0.d, r.1.job)
      else r.1 == Missed(dp, name, job) && Proper(name)
  {
    hide Sound, IsAt, Walk, ChildNamed, Ok;
    SoundFacts(v.c, v.g, ns, v.all);
    UpIsPlaced(ns, v, dp, job.place);
    ChildNamedFacts(v.c, v.g, dp, name);
    var r := Search(ns, v.c, dp, name, job);
    if r.0.Get? && Proper(name) {
      ChildPlace(v.c, v.g, ns, v.all, dp, job.place, r.0.d);
    }
  }

  lemma SearchAfter(ns: Namespace, v: View, v': View, held: multiset<Id>, cwd: Id, dp: Id, name: string, job: Job)
    requires Ran(ns, v, v', held) && MayStep(ns, v.c, dp, name, job) && Directory(v.c, dp, job)
    requires var r := Search(ns, v.c, dp, name, job);
      Held(r.1, cwd) <= v'.all && Applied(v.c, v.g, r.0, v'.c, v'.g)
    ensures PcOk(ns, v'.c, cwd, Search(ns, v.c, dp, name, job).1)
  {
    hide Sound, Keeps, IsAt, Walk, Move, Search, OnWay, MayStep, Got;
    NextPlace(ns, v, dp, name, job);
    var r := Search(ns, v.c, dp, name, job);
    if r.0.Get? {
      OnWayStays(ns, v, v', held, r.0.d, r.1.job);
    } else {
      SearchIsLook(ns, v.c, dp, name, job);
    }
  }

  lemma MissedAfter(ns: Namespace, v: View, v': View, held: multiset<Id>, cwd: Id, dp: Id, name: string, job: Job)
    requires Ran(ns, v, v', held) && MayStep(ns, v.c, dp, name, job) && Proper(name) && dp in v'.all
    requires Applied(v.c, v.g, Alloc(name), v'.c, v'.g)
    ensures PcOk(ns, v'.c, cwd, Filling(dp, name, job, v.c.nextId))
  {
    hide Sound, Keeps, IsAt, Walk, Move, Orphan;
    MayStepStays(ns, v, v', held, dp, name, job);
    NewOrphan(ns, v, name);
  }

  lemma NewOrphan(ns: Namespace, v: View, name: string)
    requires Sound(v.c, v.g, ns, v.all)
    ensures Orphan(Allocated(v.c, name, None), v.c.nextId, name)
  {
    hide NamesUnique, Coherent;
    SoundFacts(v.c, v.g, ns, v.all);
    OkFacts(v.c, v.g);
  }

  lemma FillingAfter(ns: Namespace, v: View, v': View, held: multiset<Id>, cwd: Id, dp: Id, name: string, job: Job,
                     d: Id)
    requires Ran(ns, v, v', held) && Directory(v.c, dp, job) && dp in v'.all
    requires PcOk(ns, v.c, cwd, Filling(dp, name, job, d))
    requires Applied(v.c, v.g, Fill(d, ns.lookup(v.c.ip[dp].value, name)), v'.c, v'.g)
    ensures PcOk(ns, v'.c, cwd, Filled(dp, name, job, d))
  {
    hide Sound, Keeps, IsAt, Walk, Move;
    DirectoryFacts(ns, v, dp, job);
    MayStepStays(ns, v, v', held, dp, name, job);
  }

  /** Another thread registered the name first: the entry found is where the name leads. */
  lemma LostAfter(ns: Namespace, v: View, v': View, held: multiset<Id>, cwd: Id, dp: Id, name: string, job: Job, d: Id,
                  k: Id)
    requires Ran(ns, v, v', held) && Directory(v.c, dp, job) && PcOk(ns, v.c, cwd, Filled(dp, name, job, d))
    requires k in v.c.parent && v.c.parent[k] == dp && k in v.c.name && v.c.name[k] == name
    requires k in v'.all && Applied(v.c, v.g, Get(k), v'.c, v'.g)
    ensures PcOk(ns, v'.c, cwd, Lost(dp, name, Stepped(ns, name, job), d, k))
  {
    hide Sound, Keeps, IsAt, Walk;
    ChildPlace(v.c, v.g, ns, v.all, dp, job.place, k);
    OnWayStays(ns, v, v', held, k, Stepped(ns, name, job));
  }

  lemma Linked(c: Dcache, g: Ledger, p: Id, d: Id, c': Dcache, g': Ledger)
    requires Applied(c, g, Register(p, d), c', g')
    ensures d in c'.parent && c'.parent[d] == p && c'.name == c.name
  {
  }

  /** Nobody did: the own entry, registered, is where the name leads. */
  lemma RegisterAfter(ns: Namespace, v: View, v': View, held: multiset<Id>, cwd: Id, dp: Id, name: string, job: Job,
                      d: Id)
    requires Ran(ns, v, v', held) && Directory(v.c, dp, job) && PcOk(ns, v.c, cwd, Filled(dp, name, job, d))
    requires dp in v'.all && Applied(v.c, v.g, Register(dp, d), v'.c, v'.g)
    ensures PcOk(ns, v'.c, cwd, Leaving(dp, Stepped(ns, name, job), d))
  {
    hide Sound, Keeps, IsAt, Walk, Applied;
    Linked(v.c, v.g, dp, d, v'.c, v'.g);
    MayStepStays(ns, v, v', held, dp, name, job);
    ChildPlace(v'.c, v'.g, ns, v'.all, dp, job.place, d);
  }

  lemma RecheckAfter(ns: Namespace, v: View, v': View, held: multiset<Id>, cwd: Id, dp: Id, name: string, job: Job,
                     d: Id)
    requires Ran(ns, v, v', held) && Directory(v.c, dp, job) && PcOk(ns, v.c, cwd, Filled(dp, name, job, d))
    requires var r := Recheck(ns, v.c, dp, name, job, d);
      Held(r.1, cwd) <= v'.all && Applied(v.c, v.g, r.0, v'.c, v'.g)
    ensures PcOk(ns, v'.c, cwd, Recheck(ns, v.c, dp, name, job, d).1)
  {
    hide Sound, Ok, Keeps, IsAt, Walk, ChildNamed, Applied, PcOk, Stepped;
    SoundFacts(v.c, v.g, ns, v.all);
    ChildNamedFacts(v.c, v.g, dp, name);
    var child := ChildNamed(v.c.name, v.c.children[dp], name);
    if child.Some? {
      LostAfter(ns, v, v', held, cwd, dp, name, job, d, child.value);
    } else {
      RegisterAfter(ns, v, v', held, cwd, dp, name, job, d);
    }
  }

  lemma PutAfter(ns: Namespace, v: View, v': View, held: multiset<Id>, cwd: Id, pc: Pc)
    requires Ran(ns, v, v', held) && PcOk(ns, v.c, cwd, pc)
    requires pc.Lost? || pc.Leaving? ==> pc.next in v'.all
    ensures pc.Lost? ==> PcOk(ns, v'.c, cwd, Leaving(pc.dp, pc.job, pc.next))
    ensures pc.Leaving? ==> PcOk(ns, v'.c, cwd, Loop(pc.next, pc.job))
    ensures pc.Failing? ==> PcOk(ns, v'.c, cwd, Done(Error(pc.error), pc.goal))
  {
    hide Ran, Sound, Keeps, IsAt, OnWay;
    if pc.Lost? || pc.Leaving? {
      OnWayStays(ns, v, v', held, pc.next, pc.job);
    }
  }

  /** The regions, one program counter at a time. */
  lemma RegionOf(ns: Namespace, c: Dcache, th: Thread)
    requires Can(c, th, Advance)
    ensures th.pc.Loop? ==> Region(ns, c, th) == (Nothing, CheckDirectory(ns, c, th.pc.dp, th.pc.job))
    ensures th.pc.CwdTaken? || th.pc.Checked? ==> Region(ns, c, th).0 == Nothing
    ensures th.pc.Permitted? ==> Region(ns, c, th) == Search(ns, c, th.pc.dp, th.pc.name, th.pc.job)
    ensures th.pc.Filled? ==> Region(ns, c, th) == Recheck(ns, c, th.pc.dp, th.pc.name, th.pc.job, th.pc.d)
    ensures th.pc.Missed? ==>
      Region(ns, c, th) == (Alloc(th.pc.name), Filling(th.pc.dp, th.pc.name, th.pc.job, c.nextId))
    ensures th.pc.Filling? ==>
      && Region(ns, c, th).0 == Fill(th.pc.d, ns.lookup(c.ip[th.pc.dp].value, th.pc.name))
      && Region(ns, c, th).1 == Filled(th.pc.dp, th.pc.name, th.pc.job, th.pc.d)
  {
    hide Search, Recheck, CheckDirectory;
  }

  lemma LookRegionAfter(ns: Namespace, v: View, v': View, held: multiset<Id>, th: Thread)
    requires Ran(ns, v, v', held) && ThreadOk(ns, v.c, th) && Can(v.c, th, Advance)
    requires var r := Region(ns, v.c, th); Held(r.1, th.cwd) <= v'.all && Applied(v.c, v.g, r.0, v'.c, v'.g)
    requires th.pc.CwdTaken? || th.pc.Loop? || th.pc.Checked?
    ensures PcOk(ns, v'.c, th.cwd, Region(ns, v.c, th).1)
  {
    hide Sound, Keeps, Region, PcOk, CheckDirectory, Held, OnWay;
    RegionOf(ns, v.c, th);
    if th.pc.CwdTaken? {
      CwdAfter(ns, v, th);
    } else if th.pc.Loop? {
      PcMeans(ns, v.c, th.cwd, th.pc);
      LoopAfter(ns, v, th.cwd, th.pc.dp, th.pc.job);
    } else {
      CheckedAfter(ns, v, th);
    }
  }

  lemma StepRegionAfter(ns: Namespace, v: View, v': View, held: multiset<Id>, th: Thread)
    requires Ran(ns, v, v', held) && ThreadOk(ns, v.c, th) && Can(v.c, th, Advance)
    requires var r := Region(ns, v.c, th); Held(r.1, th.cwd) <= v'.all && Applied(v.c, v.g, r.0, v'.c, v'.g)
    requires th.pc.Permitted? || th.pc.Filled?
    ensures PcOk(ns, v'.c, th.cwd, Region(ns, v.c, th).1)
  {
    hide Ran, Sound, Region, PcOk, Search, Recheck, Held, MayStep, Applied;
    RegionOf(ns, v.c, th);
    if th.pc.Permitted? {
      PcMeans(ns, v.c, th.cwd, th.pc);
      SearchAfter(ns, v, v', held, th.cwd, th.pc.dp, th.pc.name, th.pc.job);
    } else {
      RecheckAfter(ns, v, v', held, th.cwd, th.pc.dp, th.pc.name, th.pc.job, th.pc.d);
    }
  }

  lemma PcMeans(ns: Namespace, c: Dcache, cwd: Id, pc: Pc)
    requires PcOk(ns, c, cwd, pc)
    ensures pc.Permitted? || pc.Missed? ==> MayStep(ns, c, pc.dp, pc.name, pc.job)
    ensures pc.Missed? ==> Proper(pc.name)
    ensures pc.Loop? ==> OnWay(ns, c, pc.dp, pc.job)
  {
    hide MayStep, OnWay;
  }

  lemma NewRegionAfter(ns: Namespace, v: View, v': View, held: multiset<Id>, th: Thread)
    requires Ran(ns, v, v', held) && ThreadOk(ns, v.c, th) && Can(v.c, th, Advance)
    requires var r := Region(ns, v.c, th); Held(r.1, th.cwd) <= v'.all && Applied(v.c, v.g, r.0, v'.c, v'.g)
    requires th.pc.Missed? || th.pc.Filling?
    ensures PcOk(ns, v'.c, th.cwd, Region(ns, v.c, th).1)
  {
    hide Ran, Sound, Region, PcOk, Held, MayStep, Applied;
    RegionOf(ns, v.c, th);
    HeldAt(Region(ns, v.c, th).1, th.cwd);
    PcMeans(ns, v.c, th.cwd, th.pc);
    if th.pc.Missed? {
      MissedAfter(ns, v, v', held, th.cwd, th.pc.dp, th.pc.name, th.pc.job);
    } else {
      FillingAfter(ns, v, v', held, th.cwd, th.pc.dp, th.pc.name, th.pc.job, th.pc.d);
    }
  }

  lemma PutRegionAfter(ns: Namespace, v: View, v': View, held: multiset<Id>, th: Thread)
    requires Ran(ns, v, v', held) && ThreadOk(ns, v.c, th) && Can(v.c, th, Advance)
    requires var r := Region(ns, v.c, th); Held(r.1, th.cwd) <= v'.all && Applied(v.c, v.g, r.0, v'.c, v'.g)
    requires th.pc.Lost? || th.pc.Leaving? || th.pc.Failing?
    ensures PcOk(ns, v'.c, th.cwd, Region(ns, v.c, th).1)
  {
    hide Ran, Sound, Region, PcOk, Held, Applied;
    PutRegion(ns, v.c, th);
    HeldAt(Region(ns, v.c, th).1, th.cwd);
    PutAfter(ns, v, v', held, th.cwd, th.pc);
  }

  lemma RegionAfter(ns: Namespace, v: View, v': View, held: multiset<Id>, th: Thread)
    requires Ran(ns, v, v', held) && ThreadOk(ns, v.c, th) && Can(v.c, th, Advance)
    requires var r := Region(ns, v.c, th); Held(r.1, th.cwd) <= v'.all && Applied(v.c, v.g, r.0, v'.c, v'.g)
    ensures PcOk(ns, v'.c, th.cwd, Region(ns, v.c, th).1)
  {
    hide Ran, Region, PcOk, Held, Applied;
    if th.pc.CwdTaken? || th.pc.Loop? || th.pc.Checked? {
      LookRegionAfter(ns, v, v', held, th);
    } else if th.pc.Permitted? || th.pc.Filled? {
      StepRegionAfter(ns, v, v', held, th);
    } else if th.pc.Missed? || th.pc.Filling? {
      NewRegionAfter(ns, v, v', held, th);
    } else {
      PutRegionAfter(ns, v, v', held, th);
    }
  }

  lemma BeginAfter(ns: Namespace, v: View, v': View, held: multiset<Id>, th: Thread, path: string)
    requires Ran(ns, v, v', held) && ThreadOk(ns, v.c, th) && Can(v.c, th, Begin(path))
    requires var r := Start(ns, v.c, th, path); Held(r.1, th.cwd) <= v'.all && Applied(v.c, v.g, r.0, v'.c, v'.g)
    ensures PcOk(ns, v'.c, th.cwd, Start(ns, v.c, th, path).1)
  {
    hide Sound, Keeps, IsAt, Walk, Applied, OnWay;
    var pc := Start(ns, v.c, th, path).1;
    if pc.Loop? {
      RootPlace(v.c, v.g, ns, v.all);
      RootOnWay(ns, v.c, pc.job);
      OnWayStays(ns, v, v', held, v.c.root, pc.job);
    } else if pc.CwdTaken? {
      CwdOnWay(ns, v.c, th, pc.job);
      CwdTakenStays(ns, v, v', held, th.cwd, th.cwdPlace, pc.job);
    }
  }

  lemma RootOnWay(ns: Namespace, c: Dcache, job: Job)
    requires c.root in c.ip && job.place == [c.ip[c.root]] && IsAt(c, c.root, job.place)
    requires job.goal == Walk(ns, job.place, Components(job.path))
    ensures OnWay(ns, c, c.root, job)
  {
  }

  lemma CwdOnWay(ns: Namespace, c: Dcache, th: Thread, job: Job)
    requires ThreadOk(ns, c, th) && job.place == th.cwdPlace
    requires job.goal == if IsUnlinked(c, th.cwd) then Fails(ENOENT) else Walk(ns, job.place, Components(job.path))
    ensures PcOk(ns, c, th.cwd, CwdTaken(job))
  {
    hide IsAt, Walk;
  }

  /** A thread is where it should be after its own region. */
  lemma PlanAfter(ns: Namespace, v: View, v': View, held: multiset<Id>, th: Thread, act: Action)
    requires Ran(ns, v, v', held) && ThreadOk(ns, v.c, th) && Can(v.c, th, act)
    requires var r := Plan(ns, v.c, th, act); HeldBy(r.1) <= v'.all && Applied(v.c, v.g, r.0, v'.c, v'.g)
    ensures ThreadOk(ns, v'.c, Plan(ns, v.c, th, act).1)
  {
    hide Sound, Keeps, PcOk, Region, Start, Applied, Held, IsUnlinked, IsAt;
    var th' := Plan(ns, v.c, th, act).1;
    assert th'.cwd in HeldBy(th');
    CwdStays(v.c, v.g, ns, v.all, v'.c, v'.g, v'.all, held, th.cwd, th.cwdPlace);
    assert Held(th'.pc, th'.cwd) <= HeldBy(th');
    if act.Begin? {
      BeginAfter(ns, v, v', held, th, act.path);
    } else if act.Advance? {
      RegionAfter(ns, v, v', held, th);
    } else {
      IdleOk(ns, v'.c, th'.cwd);
    }
  }

  lemma IdleOk(ns: Namespace, c: Dcache, cwd: Id)
    ensures PcOk(ns, c, cwd, Idle)
  {
  }
}
