/**
 dentry_from_path: walking a path through the dentry cache while other threads use it.
 Between any two locked regions of the walk the other threads run any number of theirs
 (`Interfere`); the walk still ends where a walk of the file system without any cache ends,
 with exactly one reference more than it began with, or none on an error.
*/
module PathWalk {
  import opened Common
  import opened DentryTree
  import opened DentryCache
  import opened PathNames
  import opened PathSpec
  import opened PathThread
  import Race = PathRace

  /** This thread holds `mine`, d among it, and d is at that place. */
  ghost predicate WalkingAt(ns: Namespace, mine: multiset<Id>, s: Race.State, d: Id, place: Place) {
    place != [] && Race.Inv(ns, mine, s) && d in mine && IsAt(s.c, d, place)
  }

  lemma WalkingFacts(ns: Namespace, mine: multiset<Id>, s: Race.State)
    requires Race.Inv(ns, mine, s)
    ensures Sound(s.c, s.g, ns, mine + Race.Total(s.threads))
    ensures Ok(s.c, s.g) && s.g.limbo == {} && s.c.lruSize <= s.c.maxLru && NamesUnique(s.c)
    ensures s.c.ref.Keys == s.c.children.Keys == s.c.name.Keys == s.c.ip.Keys
    ensures forall d :: d in mine ==> d in s.c.ref && d in s.g.handles
    ensures forall d :: d in mine && d in {s.c.root, s.c.unlinked} ==> s.g.handles[d] >= 2
  {
    hide Ok, NamesUnique, Coherent, ThreadOk, Race.Total;
    SoundFacts(s.c, s.g, ns, mine + Race.Total(s.threads));
  }

  lemma WalkingStays(ns: Namespace, mine: multiset<Id>, s: Race.State, mine': multiset<Id>, s': Race.State,
                     held: multiset<Id>, d: Id, place: Place)
    requires WalkingAt(ns, mine, s, d, place) && Race.Inv(ns, mine', s') && Keeps(s.c, s'.c, held) && d in mine'
    ensures WalkingAt(ns, mine', s', d, place)
  {
    hide Sound, Keeps, IsAt, ThreadOk, Race.Total;
    var v, v' := View(s.c, s.g, mine + Race.Total(s.threads)), View(s'.c, s'.g, mine' + Race.Total(s'.threads));
    ResultStays(ns, v, v', held, d, place);
  }

  /** A locked region of this thread: what it gains and loses is its own, and the other threads stay where they are. */
  lemma OwnRegion(ns: Namespace, mine: multiset<Id>, s: Race.State, e: Effect, s': Race.State, held: multiset<Id>)
    requires Race.Inv(ns, mine, s) && Applied(s.c, s.g, e, s'.c, s'.g) && s'.threads == s.threads
    requires Allowed(s.c, ns, mine + Race.Total(s.threads), e, held) && Loses(e) <= mine
    requires Race.Total(s.threads) <= held <= mine + Race.Total(s.threads)
    ensures Race.Inv(ns, mine + Gains(s.c, e) - Loses(e), s') && Keeps(s.c, s'.c, held)
  {
    hide Sound, Keeps, ThreadOk, Applied, Allowed, Race.Total, Gains, Loses;
    var total, mine' := Race.Total(s.threads), mine + Gains(s.c, e) - Loses(e);
    EffectSound(s.c, s.g, e, s'.c, s'.g, ns, mine + total, held);
    Exchange(mine, Gains(s.c, e), Loses(e), total);
    var v, v' := View(s.c, s.g, mine + total), View(s'.c, s'.g, mine' + total);
    KeepsFewer(s.c, s'.c, held, total);
    Race.AllStay(ns, v, v', total, s.threads);
  }

  lemma Exchange(mine: multiset<Id>, gain: multiset<Id>, loss: multiset<Id>, rest: multiset<Id>)
    requires loss <= mine
    ensures mine + rest + gain - loss == (mine + gain - loss) + rest
  {
  }

  class Kernel {
    const cache: Cache
    const ns: Namespace
    var threads: seq<Thread>  // the others

    ghost function Now(): Race.State
      reads this, cache
    {
      Race.State(cache.c, cache.g, threads)
    }

    /** This thread holds `mine`, the others hold what they hold, and nobody holds more. */
    ghost predicate Holds(mine: multiset<Id>)
      reads this, cache
    {
      Race.Inv(ns, mine, Now())
    }

    ghost predicate Walking(mine: multiset<Id>, d: Id, place: Place)
      reads this, cache
    {
      WalkingAt(ns, mine, Now(), d, place)
    }

    constructor (rootIp: Inode, ns: Namespace)
      ensures Holds(multiset{}) && threads == [] && this.ns == ns && fresh(cache)
    {
      this.ns := ns;
      threads := [];
      cache := new Cache(rootIp);
      new;
      Race.InitialInv(ns, Now(), rootIp);
    }

    // ----- the other threads -----

    /** One region's work on the cache. */
    method Apply(e: Effect, ghost all: multiset<Id>)
      requires Sound(cache.c, cache.g, ns, all) && Allowed(cache.c, ns, all, e, multiset{})
      modifies cache
      ensures Applied(old(cache.c), old(cache.g), e, cache.c, cache.g)
    {
      hide Ok, NamesUnique, Coherent, Evolves, Alone;
      SoundFacts(cache.c, cache.g, ns, all);
      match e
      case Nothing =>
      case Get(d) => cache.Get(d);
      case Put(d) =>
        cache.Put(d);
        EvolvesFacts(old(cache.c), old(cache.g), cache.c, cache.g);
      case Alloc(name) => var d := cache.AllocOrphan(name, None);
      case Fill(d, ip) => cache.c := cache.c.(ip := cache.c.ip[d := ip]);
      case Register(p, d) =>
        OrphanFacts(cache.c, d);
        cache.Register(p, d);
      case Limit(max) => cache.SetMaxLru(max);
    }

    /** One step of one of the other threads. */
    method Perform(e: Race.Step, ghost mine: multiset<Id>)
      requires Holds(mine) && Race.Enabled(cache.c, threads, e)
      modifies this, cache
      ensures Race.Next(ns, old(Now()), e, Now()) && Holds(mine) && Keeps(old(cache.c), cache.c, mine)
    {
      hide Sound, Keeps, ThreadOk, Allowed, Applied, Race.Planned, Race.Enabled, Race.Total;
      var plan := Race.Planned(ns, cache.c, threads, e);
      Race.StepAllowed(ns, mine, Now(), e);
      Apply(plan.0, mine + Race.Total(threads));
      threads := plan.1;
      Race.StepInv(ns, mine, old(Now()), e, Now());
    }

    /** Any number of steps of any of the other threads, in any order. */
    method Interfere(ghost mine: multiset<Id>)
      requires Holds(mine)
      modifies this, cache
      ensures Holds(mine) && Keeps(old(cache.c), cache.c, mine)
    {
      hide Keeps, Race.Inv, Race.Next, Race.Enabled, Shape;
      KeepsSame(cache.c, mine);
      Race.InvShape(ns, mine, Now());
      var more: nat := *;
      while more > 0
        invariant Holds(mine) && Keeps(old(cache.c), cache.c, mine) && Shape(cache.c)
      {
        var e: Race.Step := *;
        if Race.Enabled(cache.c, threads, e) {
          ghost var before := cache.c;
          Perform(e, mine);
          Race.InvShape(ns, mine, Now());
          KeepsTrans(old(cache.c), before, cache.c, mine);
        }
        more := more - 1;
      }
    }

    // ----- this thread's locked regions -----

    /** dentry_get of an entry whose place is known */
    method TakeRef(d: Id, ghost place: Place, ghost mine: multiset<Id>)
      requires Holds(mine) && d in cache.c.ref && place != [] && (IsUnlinked(cache.c, d) || IsAt(cache.c, d, place))
      modifies cache
      ensures Holds(mine + multiset{d}) && Keeps(old(cache.c), cache.c, mine)
    {
      hide Ok, NamesUnique, Sound, ThreadOk, Keeps, IsAt, Alone, IsUnlinked, Race.Inv, Race.Total;
      WalkingFacts(ns, mine, Now());
      ghost var all := mine + Race.Total(threads);
      GetAllowed(ns, View(cache.c, cache.g, all), d, place, all);
      cache.Get(d);
      OwnRegion(ns, mine, old(Now()), Get(d), Now(), all);
      KeepsFewer(old(cache.c), cache.c, all, mine);
      assert mine + multiset{d} - multiset{} == mine + multiset{d};
    }

    /** dentry_put */
    method DropRef(d: Id, ghost mine: multiset<Id>)
      requires Holds(mine) && d in mine
      modifies cache
      ensures Holds(mine - multiset{d}) && Keeps(old(cache.c), cache.c, mine)
      ensures old(Alone(cache.c, d)) ==> d !in cache.c.ref
    {
      hide Ok, NamesUnique, Sound, ThreadOk, Keeps, Evolves, Race.Inv, Race.Total, Freed, Dropped, UnlinkedFreed,
        Pushed;
      WalkingFacts(ns, mine, Now());
      ghost var all := mine + Race.Total(threads);
      cache.Put(d);
      FreedIsGone(old(cache.c), d);
      EvolvesFacts(old(cache.c), old(cache.g), cache.c, cache.g);
      OwnRegion(ns, mine, old(Now()), Put(d), Now(), all);
      KeepsFewer(old(cache.c), cache.c, all, mine);
      assert mine + multiset{} - multiset{d} == mine - multiset{d};
    }

    /** One search of the cached children of dp, under the lock. */
    method FindCached(dp: Id, name: string, ghost place: Place, ghost mine: multiset<Id>) returns (r: Option<Id>)
      requires Walking(mine, dp, place) && Exists(place)
      modifies cache
      ensures r.None? ==> cache.c == old(cache.c) && cache.g == old(cache.g) && NameFree(cache.c, dp, name)
      ensures r.Some? ==> Walking(mine + multiset{r.value}, dp, place)
      ensures r.Some? ==> IsAt(cache.c, r.value, place + [ns.lookup(place[|place| - 1].value, name)])
      ensures Keeps(old(cache.c), cache.c, mine)
    {
      hide Ok, NamesUnique, Sound, ThreadOk, Keeps, IsAt, Alone, Race.Inv, Race.Total, NameFree;
      WalkingFacts(ns, mine, Now());
      ghost var all := mine + Race.Total(threads);
      PlaceFacts(cache.c, cache.g, ns, all, dp, place);
      r := cache.Lookup(dp, name);
      if r.Some? {
        LinkFacts(old(cache.c), old(cache.g), dp, r.value);
        GetAllowed(ns, View(old(cache.c), old(cache.g), all), r.value, place, all);
        OwnRegion(ns, mine, old(Now()), Get(r.value), Now(), all);
        KeepsFewer(old(cache.c), cache.c, all, mine);
        assert mine + multiset{r.value} - multiset{} == mine + multiset{r.value};
        WalkingStays(ns, mine, old(Now()), mine + multiset{r.value}, Now(), mine, dp, place);
        WalkingFacts(ns, mine + multiset{r.value}, Now());
        ChildPlace(cache.c, cache.g, ns, mine + multiset{r.value} + Race.Total(threads), dp, place, r.value);
      } else {
        KeepsSame(cache.c, mine);
        NoneNamed(cache.c, cache.g, dp, name);
      }
    }

    /** Allocate the entry that will be filled in. */
    method NewOrphan(name: string, ghost dp: Id, ghost place: Place, ghost mine: multiset<Id>) returns (d: Id)
      requires Walking(mine, dp, place)
      modifies cache
      ensures Walking(mine + multiset{d}, dp, place) && Orphan(cache.c, d, name)
    {
      hide Ok, NamesUnique, Sound, ThreadOk, Keeps, IsAt, Orphan, Race.Inv, Race.Total;
      WalkingFacts(ns, mine, Now());
      ghost var all := mine + Race.Total(threads);
      SimpleAllowed(ns, View(cache.c, cache.g, all), Alloc(name), all);
      PathThread.NewOrphan(ns, View(cache.c, cache.g, all), name);
      d := cache.AllocOrphan(name, None);
      OwnRegion(ns, mine, old(Now()), Alloc(name), Now(), all);
      assert mine + multiset{d} - multiset{} == mine + multiset{d};
      WalkingStays(ns, mine, old(Now()), mine + multiset{d}, Now(), all, dp, place);
    }

    /** VFS_INODE_LOOKUP: the file system says what the name is in directory dp, or that it is not there. */
    method FillFromDisk(dp: Id, d: Id, name: string, ghost place: Place, ghost mine: multiset<Id>)
      requires Walking(mine, dp, place) && Exists(place) && d in mine && Orphan(cache.c, d, name)
      modifies cache
      ensures Walking(mine, dp, place) && Orphan(cache.c, d, name)
      ensures d in cache.c.ip && cache.c.ip[d] == ns.lookup(place[|place| - 1].value, name)
    {
      hide Ok, NamesUnique, Sound, ThreadOk, Keeps, IsAt, Race.Inv, Race.Total;
      WalkingFacts(ns, mine, Now());
      ghost var total := Race.Total(threads);
      PlaceFacts(cache.c, cache.g, ns, mine + total, dp, place);
      var ip := ns.lookup(cache.c.ip[dp].value, name);
      FillAllowed(ns, View(cache.c, cache.g, mine + total), name, d, ip, mine, total);
      cache.c := cache.c.(ip := cache.c.ip[d := ip]);
      OwnRegion(ns, mine, old(Now()), Fill(d, ip), Now(), total);
      assert mine + multiset{} - multiset{} == mine;
      WalkingStays(ns, mine, old(Now()), mine, Now(), total, dp, place);
    }

    /** Nobody else registered the name meanwhile: link the new entry. */
    method LinkNew(dp: Id, d: Id, ghost name: string, ghost place: Place, ghost mine: multiset<Id>)
      requires Walking(mine, dp, place) && Exists(place) && d in mine && Orphan(cache.c, d, name)
      requires d in cache.c.ip && cache.c.ip[d] == ns.lookup(place[|place| - 1].value, name)
      requires NameFree(cache.c, dp, name)
      modifies cache
      ensures Walking(mine, dp, place) && IsAt(cache.c, d, place + [ns.lookup(place[|place| - 1].value, name)])
    {
      hide Ok, NamesUnique, Sound, ThreadOk, Keeps, IsAt, Race.Inv, Race.Total, NameFree;
      WalkingFacts(ns, mine, Now());
      ghost var total := Race.Total(threads);
      PlaceFacts(cache.c, cache.g, ns, mine + total, dp, place);
      OrphanIsMine(ns, View(cache.c, cache.g, mine + total), d, name, mine, total);
      cache.Register(dp, d);
      OwnRegion(ns, mine, old(Now()), Register(dp, d), Now(), total);
      assert mine + multiset{} - multiset{} == mine;
      WalkingStays(ns, mine, old(Now()), mine, Now(), total, dp, place);
      WalkingFacts(ns, mine, Now());
      ChildPlace(cache.c, cache.g, ns, mine + total, dp, place, d);
    }

    // ----- the walk -----

    /** Other threads run; this one's entries stay where they are. */
    method WalkOn(ghost dp: Id, ghost place: Place, ghost mine: multiset<Id>)
      requires Walking(mine, dp, place)
      modifies this, cache
      ensures Walking(mine, dp, place)
    {
      hide Race.Inv, IsAt, Keeps;
      Interfere(mine);
      WalkingStays(ns, mine, old(Now()), mine, Now(), mine, dp, place);
    }

    method WalkOnWithOrphan(ghost dp: Id, ghost place: Place, ghost d: Id, ghost name: string, ghost mine: multiset<Id>)
      requires Walking(mine, dp, place) && d in mine && Orphan(cache.c, d, name)
      modifies this, cache
      ensures Walking(mine, dp, place) && Orphan(cache.c, d, name)
      ensures d in old(cache.c.ip) ==> d in cache.c.ip && cache.c.ip[d] == old(cache.c.ip[d])
    {
      hide Race.Inv, IsAt, Keeps, Orphan;
      Interfere(mine);
      WalkingStays(ns, mine, old(Now()), mine, Now(), mine, dp, place);
      OrphanKept(ns, mine, old(cache.c), Now(), mine, d, name);
    }

    /** The part of the loop body that finds or makes the entry of a name below dp. */
    method NextEntry(dp: Id, name: string, ghost place: Place, ghost mine: multiset<Id>) returns (next: Id)
      requires Walking(mine, dp, place) && Exists(place)
      modifies this, cache
      ensures Walking(mine + multiset{next}, dp, place)
      ensures IsAt(cache.c, next, place + [ns.lookup(place[|place| - 1].value, name)])
    {
      hide Race.Inv, IsAt, Keeps, Orphan, NameFree;
      var cached := FindCached(dp, name, place, mine);
      if cached.Some? {
        return cached.value;
      }
      WalkOn(dp, place, mine);
      var d := NewOrphan(name, dp, place, mine);
      ghost var both := mine + multiset{d};
      WalkOnWithOrphan(dp, place, d, name, both);
      FillFromDisk(dp, d, name, place, both);
      WalkOnWithOrphan(dp, place, d, name, both);
      label filled:
      var createdConcurrently := FindCached(dp, name, place, both);
      if createdConcurrently.Some? {
        next := createdConcurrently.value;
        OrphanKept(ns, both + multiset{next}, old@filled(cache.c), Now(), both, d, name);
        UseWinner(dp, place, d, name, next, place + [ns.lookup(place[|place| - 1].value, name)], mine);
      } else {
        LinkNew(dp, d, name, place, both);
        next := d;
      }
    }

    /** Another thread registered the name first: use its entry and give up this thread's own, which is freed. */
    method UseWinner(ghost dp: Id, ghost place: Place, d: Id, ghost name: string, ghost next: Id, ghost target: Place,
                     ghost mine: multiset<Id>)
      requires Walking(mine + multiset{d} + multiset{next}, dp, place) && dp in mine
      requires Walking(mine + multiset{d} + multiset{next}, next, target) && Orphan(cache.c, d, name)
      modifies this, cache
      ensures Walking(mine + multiset{next}, dp, place) && Walking(mine + multiset{next}, next, target)
      ensures d !in cache.c.ref
    {
      hide Race.Inv, IsAt, Keeps;
      ghost var all, rest := mine + multiset{d} + multiset{next}, mine + multiset{next};
      Interfere(all);
      WalkingStays(ns, all, old(Now()), all, Now(), all, dp, place);
      WalkingStays(ns, all, old(Now()), all, Now(), all, next, target);
      OrphanKept(ns, all, old(cache.c), Now(), all, d, name);
      label beforePut:
      DropRef(d, all);
      assert all - multiset{d} == rest;
      WalkingStays(ns, all, old@beforePut(Now()), rest, Now(), all, dp, place);
      WalkingStays(ns, all, old@beforePut(Now()), rest, Now(), all, next, target);
    }

    /** dentry_get of the same directory or of the one above, whose place is known */
    method Again(ghost dp: Id, next: Id, ghost place: Place, ghost target: Place, ghost mine: multiset<Id>)
      requires Walking(mine, dp, place) && next in cache.c.ref && target != [] && IsAt(cache.c, next, target)
      modifies cache
      ensures Walking(mine + multiset{next}, dp, place) && Walking(mine + multiset{next}, next, target)
    {
      hide Race.Inv, IsAt, Keeps;
      TakeRef(next, target, mine);
      WalkingStays(ns, mine, old(Now()), mine + multiset{next}, Now(), mine, dp, place);
      TakenPlace(ns, mine, old(Now()), Now(), next, target);
    }

    /** dentry_put of the entry left behind */
    method Leave(dp: Id, ghost next: Id, ghost target: Place, ghost mine: multiset<Id>)
      requires Walking(mine + multiset{dp} + multiset{next}, next, target)
      modifies this, cache
      ensures Walking(mine + multiset{next}, next, target)
    {
      hide Race.Inv, IsAt, Keeps;
      ghost var all := mine + multiset{dp} + multiset{next};
      WalkOn(next, target, all);
      label beforePut:
      DropRef(dp, all);
      assert all - multiset{dp} == mine + multiset{next};
      WalkingStays(ns, all, old@beforePut(Now()), mine + multiset{next}, Now(), all, next, target);
    }

    /** One step of the walk from an existing, traversable directory: the reference moves from dp to the next entry. */
    method StepTo(dp: Id, name: string, ghost place: Place, ghost mine: multiset<Id>) returns (next: Id)
      requires Walking(mine + multiset{dp}, dp, place) && Exists(place)
      modifies this, cache
      ensures Walking(mine + multiset{next}, next, Move(ns, place, name))
    {
      hide Race.Inv, IsAt, Keeps;
      ghost var one, target := mine + multiset{dp}, Move(ns, place, name);
      UpFacts(ns, one, Now(), dp, place);
      if name == "." {
        next := dp;
        Again(dp, next, place, target, one);
      } else if name == ".." {
        next := if dp in cache.c.parent then cache.c.parent[dp] else dp;
        Again(dp, next, place, target, one);
      } else {
        next := NextEntry(dp, name, place, one);
      }
      assert Walking(one + multiset{next}, next, target);
      Leave(dp, next, target, mine);
    }

    /** dentry_put on the way out of a failed walk */
    method GiveUp(dp: Id, ghost place: Place, ghost mine: multiset<Id>)
      requires Walking(mine + multiset{dp}, dp, place)
      modifies this, cache
      ensures Holds(mine)
    {
      hide Race.Inv, IsAt, Keeps;
      WalkOn(dp, place, mine + multiset{dp});
      DropRef(dp, mine + multiset{dp});
      assert mine + multiset{dp} - multiset{dp} == mine;
    }

    /** The checks before a step, in the order of the source, and the step. */
    method WalkElement(dp: Id, elem: Skipped, ghost rest: seq<Component>, ghost place: Place, ghost mine: multiset<Id>)
      returns (r: Found, ghost place': Place)
      requires Walking(mine + multiset{dp}, dp, place) && !elem.End?
      modifies this, cache
      ensures r.Entry? ==> Walking(mine + multiset{r.d}, r.d, place')
      ensures r.Error? ==> Holds(mine)
      ensures elem.TooLong? ==> r.Error?
      ensures place' != []
      ensures Walk(ns, place, [Head(elem)] + rest) == if r.Error? then Fails(r.error) else Walk(ns, place', rest)
    {
      hide Race.Inv, IsAt, Keeps;
      place' := place;
      ghost var one := mine + multiset{dp};
      assert ([Head(elem)] + rest)[1..] == rest;
      if elem.TooLong? {
        r := Error(ENOENT);
      } else {
        WalkOn(dp, place, one);
        HereFacts(ns, one, Now(), dp, place);
        if cache.c.ip[dp].None? {
          r := Error(ENOENT);
        } else if !ns.isDir(cache.c.ip[dp].value) {
          r := Error(ENOTDIR);
        } else {
          WalkOn(dp, place, one);
          HereFacts(ns, one, Now(), dp, place);
          if ns.mayExec(cache.c.ip[dp].value) {
            WalkOn(dp, place, one);
            var next := StepTo(dp, elem.name, place, mine);
            place' := Move(ns, place, elem.name);
            return Entry(next), place';
          }
          r := Error(EACCES);
        }
      }
      GiveUp(dp, place, mine);
    }

    /** The loop of dentry_from_path, from an entry the thread holds. */
    method WalkFrom(path: string, start: Id, ghost place: Place, ghost mine: multiset<Id>) returns (r: Found)
      requires Walking(mine + multiset{start}, start, place)
      modifies this, cache
      ensures Outcome(mine, r, Walk(ns, place, Components(path)))
    {
      hide Race.Inv, IsAt, Keeps;
      var dp, at := start, 0;
      ghost var here := place;
      assert path[0..] == path;
      var elem, next := SkipElem(path, at);
      while !elem.End?
        invariant at <= |path| && elem == Skip(path[at..]) && next <= |path|
        invariant !elem.End? ==> at < next && path[next..] == elem.rest
        invariant Walking(mine + multiset{dp}, dp, here)
        invariant Walk(ns, here, Components(path[at..])) == Walk(ns, place, Components(path))
        decreases |path| - at
      {
        ghost var rest := if elem.TooLong? then [] else Components(path[next..]);
        assert Components(path[at..]) == [Head(elem)] + rest;
        var found;
        found, here := WalkElement(dp, elem, rest, here, mine);
        if found.Error? {
          return found;
        }
        dp, at := found.d, next;
        elem, next := SkipElem(path, at);
      }
      return Entry(dp);
    }

    /** What the caller ends up with: the entry where the walk leads and one reference to it, or the error and none. */
    ghost predicate Outcome(mine: multiset<Id>, r: Found, w: Walked)
      reads this, cache
    {
      match r
      case Error(e) => w == Fails(e) && Holds(mine)
      case Entry(d) => w.At? && Walking(mine + multiset{d}, d, w.place)
    }

    /** Take the current directory; give it back if it has been removed. */
    method StartAtCwd(cwd: Id, ghost place: Place, ghost mine: multiset<Id>) returns (linked: bool)
      requires Holds(mine) && cwd in mine && place != [] && (IsUnlinked(cache.c, cwd) || IsAt(cache.c, cwd, place))
      modifies this, cache
      ensures linked == !old(IsUnlinked(cache.c, cwd))
      ensures if linked then Walking(mine + multiset{cwd}, cwd, place) else Holds(mine)
    {
      hide Race.Inv, Keeps, IsAt, IsUnlinked, Sound;
      ghost var two := mine + multiset{cwd};
      WalkingFacts(ns, mine, Now());
      TakeRef(cwd, place, mine);
      CwdKept(ns, mine, old(Now()), two, Now(), mine, cwd, place);
      label taken:
      Interfere(two);
      CwdKept(ns, two, old@taken(Now()), two, Now(), two, cwd, place);
      linked := !IsUnlinked(cache.c, cwd);
      if !linked {
        Interfere(two);
        DropRef(cwd, two);
        assert two - multiset{cwd} == mine;
      }
    }

    /** dentry_from_path: whatever the cache holds and others do to it, the walk gives what the file system gives. */
    method DentryFromPath(path: string, cwd: Id, ghost cwdPlace: Place, ghost mine: multiset<Id>) returns (r: Found)
      requires Holds(mine) && cwd in mine && cwdPlace != []
      requires IsUnlinked(cache.c, cwd) || IsAt(cache.c, cwd, cwdPlace)
      requires cache.c.root in cache.c.ip
      modifies this, cache
      ensures Outcome(mine, r,
        Expected(ns, old(cache.c.ip[cache.c.root]), path, old(IsUnlinked(cache.c, cwd)), cwdPlace))
    {
      hide Race.Inv, Sound, Keeps, IsAt, Walk;
      if path == "" {
        return Error(EINVAL);
      } else if path[0] == '/' {
        var root := cache.c.root;
        ghost var top := [cache.c.ip[root]];
        WalkingFacts(ns, mine, Now());
        RootPlace(cache.c, cache.g, ns, mine + Race.Total(threads));
        TakeRef(root, top, mine);
        TakenPlace(ns, mine, old(Now()), Now(), root, top);
        r := WalkFrom(path, root, top, mine);
      } else {
        var linked := StartAtCwd(cwd, cwdPlace, mine);
        if !linked {
          return Error(ENOENT);
        }
        r := WalkFrom(path, cwd, cwdPlace, mine);
      }
    }
  }

  function Head(elem: Skipped): Component
    requires !elem.End?
  {
    if elem.TooLong? then LongName else Name(elem.name)
  }

  lemma FreedIsGone(c: Dcache, d: Id)
    requires d in c.ref && c.ref[d] > 0
    ensures d !in Freed(Dropped(c, d), d).ref
  {
  }

  lemma NoneNamed(c: Dcache, g: Ledger, p: Id, name: string)
    requires Ok(c, g) && p in c.children
    requires forall k :: 0 <= k < |c.children[p]| ==> c.children[p][k] in c.name && c.name[c.children[p][k]] != name
    ensures NameFree(c, p, name)
  {
    hide Ok;
    NoChildNamed(c, g, p, name);
  }

  lemma HereFacts(ns: Namespace, mine: multiset<Id>, s: Race.State, d: Id, place: Place)
    requires WalkingAt(ns, mine, s, d, place)
    ensures d in s.c.ip && s.c.ip[d] == place[|place| - 1]
  {
    hide Race.Inv;
  }

  /** Where a step up leads; the root is its own parent. */
  lemma UpFacts(ns: Namespace, mine: multiset<Id>, s: Race.State, d: Id, place: Place)
    requires WalkingAt(ns, mine, s, d, place) && Exists(place)
    ensures d in s.c.ref && (d !in s.c.parent <==> |place| == 1)
    ensures d in s.c.parent ==> s.c.parent[d] in s.c.ref && IsAt(s.c, s.c.parent[d], place[..|place| - 1])
  {
    hide Race.Inv, IsAt, Sound;
    WalkingFacts(ns, mine, s);
    PlaceFacts(s.c, s.g, ns, mine + Race.Total(s.threads), d, place);
  }

  /** An entry just taken is still at its place. */
  lemma TakenPlace(ns: Namespace, mine: multiset<Id>, s: Race.State, s': Race.State, d: Id, place: Place)
    requires Race.Inv(ns, mine, s) && Race.Inv(ns, mine + multiset{d}, s') && Keeps(s.c, s'.c, mine)
    requires place != [] && IsAt(s.c, d, place)
    ensures WalkingAt(ns, mine + multiset{d}, s', d, place)
  {
    hide Sound, Keeps, IsAt, ThreadOk, Race.Total;
    var v := View(s.c, s.g, mine + Race.Total(s.threads));
    var v' := View(s'.c, s'.g, mine + multiset{d} + Race.Total(s'.threads));
    ResultStays(ns, v, v', mine, d, place);
  }

  lemma CwdKept(ns: Namespace, mine: multiset<Id>, s: Race.State, mine': multiset<Id>, s': Race.State,
                held: multiset<Id>, d: Id, place: Place)
    requires Race.Inv(ns, mine, s) && Race.Inv(ns, mine', s') && Keeps(s.c, s'.c, held) && d in mine'
    requires place != [] && (IsUnlinked(s.c, d) || IsAt(s.c, d, place))
    ensures IsUnlinked(s'.c, d) == IsUnlinked(s.c, d)
    ensures IsAt(s.c, d, place) ==> WalkingAt(ns, mine', s', d, place)
  {
    hide Sound, Keeps, IsAt, ThreadOk, IsUnlinked, Race.Total;
    CwdStays(s.c, s.g, ns, mine + Race.Total(s.threads), s'.c, s'.g, mine' + Race.Total(s'.threads), held, d, place);
  }

  lemma OrphanKept(ns: Namespace, mine: multiset<Id>, c: Dcache, s': Race.State, held: multiset<Id>, d: Id,
                   name: string)
    requires Race.Inv(ns, mine, s') && Keeps(c, s'.c, held) && d in held && d in mine && Orphan(c, d, name)
    ensures Orphan(s'.c, d, name)
    ensures d in c.ip ==> d in s'.c.ip && s'.c.ip[d] == c.ip[d]
  {
    hide Sound, Keeps, Orphan, ThreadOk, Race.Total;
    OrphanStays(c, s'.c, s'.g, ns, mine + Race.Total(s'.threads), held, d, name);
  }
}
