/**
 What a path means without a cache, how the dentry cache represents it, and what each
 locked region of a path walk does to the cache and to the threads that use it meanwhile.
*/
module PathSpec {
  import opened Common
  import opened DentryTree
  import opened DentryCache
  import opened PathNames

  datatype Errno = ENOENT | ENOTDIR | EACCES | EINVAL

  /** The file system as the walk sees it: directory contents, types and permissions. */
  datatype Namespace = Namespace(lookup: (Inode, string) -> Option<Inode>, isDir: Inode -> bool, mayExec: Inode -> bool)

  /** A place: the inodes from the root down; None, at the end, is a file that does not exist. */
  type Place = seq<Option<Inode>>

  datatype Walked = At(place: Place) | Fails(error: Errno)

  /** The walk without a cache. */
  function Walk(ns: Namespace, place: Place, path: seq<Component>): Walked
    requires place != []
    decreases |path|
  {
    if path == [] then At(place) else
    if path[0].LongName? then Fails(ENOENT) else
    var here := place[|place| - 1];
    if here.None? then Fails(ENOENT)
    else if !ns.isDir(here.value) then Fails(ENOTDIR)
    else if !ns.mayExec(here.value) then Fails(EACCES)
    else Walk(ns, Move(ns, place, path[0].name), path[1..])
  }

  /** One step from an existing directory. */
  function Move(ns: Namespace, place: Place, name: string): (r: Place)
    requires place != [] && place[|place| - 1].Some?
    ensures r != []
  {
    if name == "." then place
    else if name == ".." then (if |place| == 1 then place else place[..|place| - 1])
    else place + [ns.lookup(place[|place| - 1].value, name)]
  }

  // ----- how the cache represents places -----

  /** Positive and negative entries say what the file system says. */
  ghost predicate Coherent(c: Dcache, ns: Namespace) {
    forall d {:trigger c.parent[d]} :: d in c.parent && c.parent[d] != c.unlinked ==>
      && d in c.ip && d in c.name && c.parent[d] in c.ip && c.ip[c.parent[d]].Some?
      && c.ip[d] == ns.lookup(c.ip[c.parent[d]].value, c.name[d])
  }

  /** Entry d is at that place. */
  ghost predicate IsAt(c: Dcache, d: Id, place: Place)
    decreases |place|
  {
    && place != [] && d in c.ip && c.ip[d] == place[|place| - 1]
    && if |place| == 1 then d == c.root else d in c.parent && IsAt(c, c.parent[d], place[..|place| - 1])
  }

  /** The cache is sound, and `all` is exactly what its users hold. */
  ghost predicate Sound(c: Dcache, g: Ledger, ns: Namespace, all: multiset<Id>) {
    && Ok(c, g) && g.limbo == {} && c.lruSize <= c.maxLru
    && NamesUnique(c) && Coherent(c, ns)
    && g.handles == all + multiset{c.root, c.unlinked}
  }

  /**
   What one thread's locked region promises the others, who hold `held`: entries that stay
   keep their parent, entries others can see keep name and inode, and an orphan of theirs
   stays an orphan, gets no new child and, with one reference, no second one.
  */
  ghost predicate Keeps(c: Dcache, c': Dcache, held: multiset<Id>) {
    && KeepsIds(c, c') && KeepsParents(c, c') && KeepsOrphans(c, c', held) && KeepsMeaning(c, c', held)
    && KeepsCounts(c, c', held)
  }

  /** Identifiers are never used again. */
  ghost predicate KeepsIds(c: Dcache, c': Dcache) {
    && c'.root == c.root && c'.unlinked == c.unlinked && c.nextId <= c'.nextId
    && forall d :: d in c'.ref ==> d in c.ref || c.nextId <= d
  }

  ghost predicate KeepsParents(c: Dcache, c': Dcache) {
    forall d :: d in c'.ref && d in c.parent ==> d in c'.parent && c'.parent[d] == c.parent[d]
  }

  ghost predicate KeepsOrphans(c: Dcache, c': Dcache, held: multiset<Id>) {
    && (forall d :: d in held && d !in c.parent ==> d !in c'.parent)
    && (forall e {:trigger c'.parent[e]} ::
          e in c'.parent && c'.parent[e] in held && IsOrphan(c, c'.parent[e]) ==>
          e in c.parent && c.parent[e] == c'.parent[e])
  }

  ghost predicate KeepsMeaning(c: Dcache, c': Dcache, held: multiset<Id>) {
    && (forall d :: d in c.name && d in c'.name && Known(c, held, d) ==> c'.name[d] == c.name[d])
    && (forall d :: d in c.ip && d in c'.ip && Known(c, held, d) ==> c'.ip[d] == c.ip[d])
  }

  ghost predicate KeepsCounts(c: Dcache, c': Dcache, held: multiset<Id>) {
    forall d :: d in held && Alone(c, d) && d in c'.ref ==> c'.ref[d] == 1
  }

  /** In the tree, or held. */
  ghost predicate Known(c: Dcache, held: multiset<Id>, d: Id) {
    d in c.parent || d in held || d == c.root
  }

  /** Not in the tree. */
  ghost predicate IsOrphan(c: Dcache, d: Id) {
    d !in c.parent && d != c.root && d != c.unlinked
  }

  /** Not in the tree, with one reference. */
  ghost predicate Alone(c: Dcache, d: Id) {
    d in c.ref && c.ref[d] == 1 && IsOrphan(c, d)
  }

  lemma {:induction false} PlaceStays(c: Dcache, c': Dcache, g': Ledger, held: multiset<Id>, d: Id, place: Place)
    requires IsAt(c, d, place) && Keeps(c, c', held) && Ok(c', g') && d in c'.ref && d in c.ref
    requires c.parent.Keys <= c.ref.Keys && forall e :: e in c.parent ==> c.parent[e] in c.ref
    ensures IsAt(c', d, place)
    decreases |place|
  {
    if |place| > 1 {
      PlaceStays(c, c', g', held, c.parent[d], place[..|place| - 1]);
    }
  }

  // ----- each locked region keeps the cache sound and does to others only what Keeps allows -----

  lemma SoundFacts(c: Dcache, g: Ledger, ns: Namespace, all: multiset<Id>)
    requires Sound(c, g, ns, all)
    ensures Ok(c, g) && g.limbo == {} && c.lruSize <= c.maxLru && NamesUnique(c) && all <= g.handles
    ensures c.ref.Keys == c.children.Keys == c.name.Keys == c.ip.Keys && c.parent.Keys <= c.ref.Keys
    ensures forall e :: e in c.parent ==> c.parent[e] in c.ref
    ensures forall d :: d in all ==> d in g.handles && d in c.ref && (d in {c.root, c.unlinked} ==> g.handles[d] >= 2)
    ensures c.root in c.ref && c.unlinked in c.ref && c.root in g.handles && c.root !in c.parent
    ensures c.unlinked !in c.parent && c.root != c.unlinked
  {
    OkFacts(c, g);
  }

  lemma GetSound(c: Dcache, g: Ledger, ns: Namespace, all: multiset<Id>, d: Id, held: multiset<Id>)
    requires Sound(c, g, ns, all) && d in c.ref && Ok(Got(c, d), GotLedger(g, d)) && Got(c, d).lruSize <= c.lruSize
    requires d in held ==> !Alone(c, d)
    ensures Sound(Got(c, d), GotLedger(g, d), ns, all + multiset{d}) && Keeps(c, Got(c, d), held)
  {
    hide Ok, NamesUnique, Coherent, Keeps, Alone;
    SoundFacts(c, g, ns, all);
    UniqueSame(c, Got(c, d));
    SameCoherent(c, Got(c, d), ns);
    GetKeeps(c, d, held);
  }

  lemma GetKeeps(c: Dcache, d: Id, held: multiset<Id>)
    requires d in c.ref && (d in held ==> !Alone(c, d))
    ensures Keeps(c, Got(c, d), held)
  {
    hide Without;
  }

  lemma SameCoherent(c: Dcache, c': Dcache, ns: Namespace)
    requires Coherent(c, ns) && c'.parent == c.parent && c'.name == c.name && c'.ip == c.ip && c'.unlinked == c.unlinked
    ensures Coherent(c', ns)
  {
  }

  lemma PutSound(c: Dcache, g: Ledger, c': Dcache, g': Ledger, ns: Namespace, all: multiset<Id>, d: Id,
                 held: multiset<Id>)
    requires Sound(c, g, ns, all) && d in all && Evolves(c, g, c', g') && Ok(c', g')
    requires g'.handles == g.handles - multiset{d} && g'.limbo == {} && c'.lruSize <= c'.maxLru && held <= g.handles
    ensures Sound(c', g', ns, all - multiset{d}) && Keeps(c, c', held)
  {
    hide Ok, NamesUnique, Coherent, Evolves, Keeps;
    SoundFacts(c, g, ns, all);
    UniqueShrinks(c, g, c', g');
    CoherentShrinks(c, g, c', g', ns);
    EvolvesFacts(c, g, c', g');
    forall e | e in held && Alone(c, e) && e in c'.ref ensures c'.ref[e] == 1 {
      CountStays(c, g, c', g', e);
    }
    KeepsShrinks(c, g, c', g', held);
  }

  /** A put or a drain leaves the one reference of an orphan alone, unless it was that one. */
  lemma CountStays(c: Dcache, g: Ledger, c': Dcache, g': Ledger, e: Id)
    requires Ok(c, g) && Ok(c', g') && Evolves(c, g, c', g') && g'.limbo == {} && g'.handles <= g.handles
    requires Alone(c, e) && e in g.handles && e in c'.ref
    ensures c'.ref[e] == 1
  {
    AloneIsLeaf(c, g, e);
    QuietMeans(c', g', e);
    if c'.children[e] != [] {
      var k := SomeChild(c', g', e);
    }
  }

  lemma SomeChild(c: Dcache, g: Ledger, e: Id) returns (k: Id)
    requires Ok(c, g) && e in c.children && c.children[e] != []
    ensures k in c.parent && c.parent[k] == e
  {
    k := c.children[e][0];
    assert k in c.children[e];
  }

  lemma AloneIsLeaf(c: Dcache, g: Ledger, e: Id)
    requires Ok(c, g) && Alone(c, e) && e in g.handles
    ensures g.handles[e] == 1 && e in c.children && c.children[e] == [] && forall k :: k in c.parent ==>
      c.parent[k] != e
  {
    assert forall k :: k in c.parent && c.parent[k] == e ==> k in c.children[e];
  }

  lemma CoherentShrinks(c: Dcache, g: Ledger, c': Dcache, g': Ledger, ns: Namespace)
    requires Coherent(c, ns) && Evolves(c, g, c', g') && Ok(c', g')
    ensures Coherent(c', ns)
  {
    hide Ok, Ages;
    OkFacts(c', g');
  }

  lemma KeepsShrinks(c: Dcache, g: Ledger, c': Dcache, g': Ledger, held: multiset<Id>)
    requires Evolves(c, g, c', g') && g'.limbo == {}
    requires forall e :: e in held && Alone(c, e) && e in c'.ref ==> c'.ref[e] == 1
    ensures Keeps(c, c', held)
  {
    hide Ages, Alone;
  }

  lemma AllocSound(c: Dcache, g: Ledger, ns: Namespace, all: multiset<Id>, name: string, held: multiset<Id>)
    requires Sound(c, g, ns, all) && c.nextId !in c.ref
    requires Ok(Allocated(c, name, None), HandleAdded(g, c.nextId))
    ensures Sound(Allocated(c, name, None), HandleAdded(g, c.nextId), ns, all + multiset{c.nextId})
    ensures Keeps(c, Allocated(c, name, None), held)
  {
    hide Ok, NamesUnique, Coherent, Keeps;
    SoundFacts(c, g, ns, all);
    UniqueSame(c, Allocated(c, name, None));
    AllocCoherent(c, ns, name);
    AllocKeeps(c, name, held);
  }

  lemma AllocKeeps(c: Dcache, name: string, held: multiset<Id>)
    requires c.nextId !in c.ref && c.ref.Keys == c.name.Keys == c.ip.Keys && c.parent.Keys <= c.ref.Keys
    requires c.root in c.ref
    ensures Keeps(c, Allocated(c, name, None), held)
  {
  }

  lemma AllocCoherent(c: Dcache, ns: Namespace, name: string)
    requires Coherent(c, ns) && c.nextId !in c.ip && c.nextId !in c.name
    ensures Coherent(Allocated(c, name, None), ns)
  {
  }

  /** The file system fills in the inode of an entry only this thread knows. */
  lemma FillSound(c: Dcache, g: Ledger, ns: Namespace, all: multiset<Id>, d: Id, ip: Option<Inode>, held: multiset<Id>)
    requires Sound(c, g, ns, all) && d in c.ref && d !in c.parent && d != c.root && d !in held
    requires forall e :: e in c.parent ==> c.parent[e] != d
    ensures Sound(c.(ip := c.ip[d := ip]), g, ns, all) && Keeps(c, c.(ip := c.ip[d := ip]), held)
  {
    hide Ok, NamesUnique, Keeps;
    SoundFacts(c, g, ns, all);
    FillOk(c, g, d, ip);
    UniqueSame(c, c.(ip := c.ip[d := ip]));
    FillKeeps(c, d, ip, held);
  }

  lemma FillKeeps(c: Dcache, d: Id, ip: Option<Inode>, held: multiset<Id>)
    requires d !in c.parent && d != c.root && d !in held && c.ref.Keys == c.name.Keys == c.ip.Keys
    requires c.parent.Keys <= c.ref.Keys
    ensures Keeps(c, c.(ip := c.ip[d := ip]), held)
  {
  }

  lemma FillOk(c: Dcache, g: Ledger, d: Id, ip: Option<Inode>)
    requires Ok(c, g) && d in c.ref
    ensures Ok(c.(ip := c.ip[d := ip]), g)
  {
    hide Inv;
    assert c.ip[d := ip].Keys == c.ip.Keys;
  }

  lemma RegisterSound(c: Dcache, g: Ledger, c': Dcache, ns: Namespace, all: multiset<Id>, p: Id, d: Id,
                      held: multiset<Id>)
    requires Sound(c, g, ns, all) && p in c.ref && p in c.children && c' == Attached(Got(c, p), p, d)
    requires Ok(c', g) && NamesUnique(c') && c'.lruSize <= c.lruSize
    requires d in c.ref && d !in c.parent && d !in held && d != c.root
    requires p == c.root || (p in c.parent && p != c.unlinked)
    requires p in c.ip && d in c.ip && d in c.name && c.ip[p].Some? && c.ip[d] == ns.lookup(c.ip[p].value, c.name[d])
    ensures Sound(c', g, ns, all) && Keeps(c, c', held)
  {
    hide Ok, NamesUnique, Coherent, Keeps;
    SoundFacts(c, g, ns, all);
    RegisterCoherent(c, c', ns, p, d);
    RegisterKeeps(c, c', p, d, held);
  }

  lemma RegisterKeeps(c: Dcache, c': Dcache, p: Id, d: Id, held: multiset<Id>)
    requires p in c.ref && p in c.children && c' == Attached(Got(c, p), p, d)
    requires d !in c.parent && d !in held && (p == c.root || (p in c.parent && p != c.unlinked))
    ensures Keeps(c, c', held)
  {
  }

  lemma RegisterCoherent(c: Dcache, c': Dcache, ns: Namespace, p: Id, d: Id)
    requires Coherent(c, ns) && p in c.ref && p in c.children && c' == Attached(Got(c, p), p, d)
    requires d !in c.parent && p != c.unlinked
    requires p in c.ip && d in c.ip && d in c.name && c.ip[p].Some? && c.ip[d] == ns.lookup(c.ip[p].value, c.name[d])
    ensures Coherent(c', ns)
  {
  }

  /** The only reference to an entry is this thread's: no other thread holds it. */
  lemma SoleReference(c: Dcache, g: Ledger, mine: multiset<Id>, others: multiset<Id>, d: Id)
    requires Ok(c, g) && d in mine && d in c.ref && c.ref[d] == 1 && mine + others <= g.handles
    ensures d !in others
  {
    assert g.handles[d] <= 1;
  }

  // ----- Keeps over several regions -----

  lemma KeepsSame(c: Dcache, held: multiset<Id>)
    ensures Keeps(c, c, held)
  {
  }

  ghost predicate Shape(c: Dcache) {
    && c.ref.Keys == c.name.Keys == c.ip.Keys && c.parent.Keys <= c.ref.Keys
    && forall d :: d in c.ref ==> d < c.nextId
  }

  /** What two regions keep they keep together. */
  lemma KeepsTrans(c: Dcache, c1: Dcache, c2: Dcache, held: multiset<Id>)
    requires Keeps(c, c1, held) && Keeps(c1, c2, held) && Shape(c) && Shape(c1) && Shape(c2)
    ensures Keeps(c, c2, held)
  {
    hide Shape, KeepsIds, KeepsParents, KeepsOrphans, KeepsMeaning, KeepsCounts;
    IdsTrans(c, c1, c2);
    ParentsTrans(c, c1, c2);
    OrphansTrans(c, c1, c2, held);
    MeaningTrans(c, c1, c2, held);
    CountsTrans(c, c1, c2, held);
  }

  lemma IdsTrans(c: Dcache, c1: Dcache, c2: Dcache)
    requires KeepsIds(c, c1) && KeepsIds(c1, c2) && Shape(c)
    ensures KeepsIds(c, c2) && forall d :: d in c.ref && d in c2.ref ==> d in c1.ref
  {
  }

  lemma ParentsTrans(c: Dcache, c1: Dcache, c2: Dcache)
    requires KeepsParents(c, c1) && KeepsParents(c1, c2) && Shape(c)
    requires forall d :: d in c.ref && d in c2.ref ==> d in c1.ref
    ensures KeepsParents(c, c2)
  {
    forall d | d in c2.ref && d in c.parent ensures d in c2.parent && c2.parent[d] == c.parent[d] {
      assert d in c.ref && d in c1.ref;
    }
  }

  lemma OrphansTrans(c: Dcache, c1: Dcache, c2: Dcache, held: multiset<Id>)
    requires KeepsOrphans(c, c1, held) && KeepsOrphans(c1, c2, held) && KeepsIds(c, c1)
    ensures KeepsOrphans(c, c2, held)
  {
  }

  lemma MeaningTrans(c: Dcache, c1: Dcache, c2: Dcache, held: multiset<Id>)
    requires KeepsMeaning(c, c1, held) && KeepsMeaning(c1, c2, held) && KeepsParents(c, c1) && KeepsIds(c, c1)
    requires Shape(c) && Shape(c1) && Shape(c2) && forall d :: d in c.ref && d in c2.ref ==> d in c1.ref
    ensures KeepsMeaning(c, c2, held)
  {
    forall d | d in c.ref && d in c2.ref && Known(c, held, d) ensures d in c1.ref && Known(c1, held, d) {
    }
  }

  lemma CountsTrans(c: Dcache, c1: Dcache, c2: Dcache, held: multiset<Id>)
    requires KeepsCounts(c, c1, held) && KeepsCounts(c1, c2, held) && KeepsOrphans(c, c1, held) && KeepsIds(c, c1)
    requires forall d :: d in c.ref && d in c2.ref ==> d in c1.ref
    ensures KeepsCounts(c, c2, held)
  {
    forall d | d in held && Alone(c, d) && d in c2.ref ensures c2.ref[d] == 1 {
      assert d in c1.ref && Alone(c1, d);
    }
  }

  lemma KeepsFewer(c: Dcache, c': Dcache, held: multiset<Id>, fewer: multiset<Id>)
    requires Keeps(c, c', held) && fewer <= held
    ensures Keeps(c, c', fewer)
  {
  }

  lemma SoundShape(c: Dcache, g: Ledger, ns: Namespace, all: multiset<Id>)
    requires Sound(c, g, ns, all)
    ensures Shape(c)
  {
    OkFacts(c, g);
  }

  // ----- the regions, as effects on the cache -----

  /** What one locked region does to the cache; Limit is a change of the LRU limit. */
  datatype Effect =
    | Nothing
    | Get(d: Id)
    | Put(d: Id)
    | Alloc(name: string)
    | Fill(d: Id, ip: Option<Inode>)
    | Register(p: Id, d: Id)
    | Limit(max: nat)

  /** Its outcome.  A put or a new limit may evict; what that can do is what Cache.Put and Cache.SetMaxLru ensure. */
  ghost predicate Applied(c: Dcache, g: Ledger, e: Effect, c': Dcache, g': Ledger) {
    match e
    case Nothing => c' == c && g' == g
    case Get(d) => d in c.ref && c' == Got(c, d) && g' == GotLedger(g, d)
    case Put(d) => Evicts(c, g, c', g') && g'.handles == g.handles - multiset{d}
    case Alloc(name) => c' == Allocated(c, name, None) && g' == HandleAdded(g, c.nextId)
    case Fill(d, ip) => c' == c.(ip := c.ip[d := ip]) && g' == g
    case Register(p, d) => p in c.ref && p in c.children && c' == Attached(Got(c, p), p, d) && g' == g
    case Limit(max) => Evicts(c.(maxLru := max), g, c', g') && g'.handles == g.handles
  }

  ghost predicate Evicts(c: Dcache, g: Ledger, c': Dcache, g': Ledger) {
    Evolves(c, g, c', g') && Ok(c', g') && g'.limbo == {} && c'.lruSize <= c'.maxLru
  }

  /** An orphan of that name without children. */
  ghost predicate Orphan(c: Dcache, d: Id, name: string) {
    && Alone(c, d) && d in c.name && c.name[d] == name
    && forall e :: e in c.parent ==> c.parent[e] != d
  }

  /** No child of p has that name. */
  ghost predicate NameFree(c: Dcache, p: Id, name: string) {
    forall e :: e in c.parent && c.parent[e] == p ==> e in c.name && c.name[e] != name
  }

  /** When a region may have that effect, with others holding `held`. */
  ghost predicate Allowed(c: Dcache, ns: Namespace, all: multiset<Id>, e: Effect, held: multiset<Id>) {
    match e
    case Nothing => true
    case Get(d) => d in c.ref && (d in held ==> !Alone(c, d))
    case Put(d) => d in all
    case Alloc(_) => true
    case Fill(d, _) => d !in held && d in c.name && Orphan(c, d, c.name[d])
    case Register(p, d) =>
      && d !in held && d in c.name && Orphan(c, d, c.name[d]) && d in all && p in all && p != d
      && (p == c.root || (p in c.parent && p != c.unlinked)) && NameFree(c, p, c.name[d])
      && p in c.ip && d in c.ip && c.ip[p].Some? && c.ip[d] == ns.lookup(c.ip[p].value, c.name[d])
    case Limit(_) => true
  }

  function Gains(c: Dcache, e: Effect): multiset<Id> {
    if e.Get? then multiset{e.d} else if e.Alloc? then multiset{c.nextId} else multiset{}
  }

  function Loses(e: Effect): multiset<Id> {
    if e.Put? then multiset{e.d} else multiset{}
  }

  /** The references after a region, effect by effect. */
  lemma Net(c: Dcache, all: multiset<Id>, e: Effect)
    ensures e.Get? ==> all + Gains(c, e) - Loses(e) == all + multiset{e.d}
    ensures e.Put? ==> all + Gains(c, e) - Loses(e) == all - multiset{e.d}
    ensures e.Alloc? ==> all + Gains(c, e) - Loses(e) == all + multiset{c.nextId}
    ensures !e.Get? && !e.Put? && !e.Alloc? ==> all + Gains(c, e) - Loses(e) == all
  {
  }

  /** Every region keeps the cache sound, its references exact, and to the others what it promises them. */
  lemma EffectSound(c: Dcache, g: Ledger, e: Effect, c': Dcache, g': Ledger, ns: Namespace, all: multiset<Id>,
                    held: multiset<Id>)
    requires Sound(c, g, ns, all) && Applied(c, g, e, c', g') && Allowed(c, ns, all, e, held) && held <= all
    ensures Sound(c', g', ns, all + Gains(c, e) - Loses(e)) && Keeps(c, c', held)
  {
    hide Sound, Ok, NamesUnique, Coherent, Keeps, Evolves, Alone, Orphan, NameFree, Gains, Loses, Got, GotLedger,
      Allocated;
    SoundFacts(c, g, ns, all);
    Net(c, all, e);
    if e.Get? {
      GetOk(c, g, e.d);
      GetLru(c, g, e.d);
      GetSound(c, g, ns, all, e.d, held);
    } else if e.Put? {
      PutSound(c, g, c', g', ns, all, e.d, held);
    } else if e.Alloc? {
      AllocEffect(c, g, e.name, ns, all, held);
    } else if e.Fill? {
      OrphanFacts(c, e.d);
      FillSound(c, g, ns, all, e.d, e.ip, held);
    } else if e.Register? {
      RegisterEffect(c, g, e.p, e.d, c', ns, all, held);
    } else if e.Limit? {
      LimitSound(c, g, c', g', ns, all, e.max, held);
    } else {
      KeepsSame(c, held);
    }
  }

  lemma GetLru(c: Dcache, g: Ledger, d: Id)
    requires Ok(c, g) && d in c.ref && d !in g.limbo
    ensures Got(c, d).lruSize <= c.lruSize
  {
    hide Ok, Got;
    GetOk(c, g, d);
  }

  lemma AllocEffect(c: Dcache, g: Ledger, name: string, ns: Namespace, all: multiset<Id>, held: multiset<Id>)
    requires Sound(c, g, ns, all)
    ensures Sound(Allocated(c, name, None), HandleAdded(g, c.nextId), ns, all + multiset{c.nextId})
    ensures Keeps(c, Allocated(c, name, None), held)
  {
    hide Sound, Ok, Keeps;
    SoundFacts(c, g, ns, all);
    AllocOk(c, g, name, None);
    AllocSound(c, g, ns, all, name, held);
  }

  lemma RegisterEffect(c: Dcache, g: Ledger, p: Id, d: Id, c': Dcache, ns: Namespace, all: multiset<Id>,
                       held: multiset<Id>)
    requires Sound(c, g, ns, all) && Applied(c, g, Register(p, d), c', g) && Allowed(c, ns, all, Register(p, d), held)
    ensures Sound(c', g, ns, all) && Keeps(c, c', held)
  {
    hide Sound, Ok, NamesUnique, Coherent, Keeps, Alone;
    SoundFacts(c, g, ns, all);
    OrphanFacts(c, d);
    RegisterOk(c, g, p, d);
    UniqueAttach(c, c', p, d);
    RegisterSound(c, g, c', ns, all, p, d, held);
  }

  lemma OrphanFacts(c: Dcache, d: Id)
    requires d in c.name && Orphan(c, d, c.name[d])
    ensures d in c.ref && d !in c.parent && d != c.root && d != c.unlinked && forall e :: e in c.parent ==>
      c.parent[e] != d
  {
  }

  lemma LimitSound(c: Dcache, g: Ledger, c': Dcache, g': Ledger, ns: Namespace, all: multiset<Id>, max: nat,
                   held: multiset<Id>)
    requires Sound(c, g, ns, all) && Evicts(c.(maxLru := max), g, c', g') && g'.handles == g.handles
    requires held <= g.handles
    ensures Sound(c', g', ns, all) && Keeps(c, c', held)
  {
    hide Ok, NamesUnique, Coherent, Evolves, Keeps;
    var c1 := c.(maxLru := max);
    SoundFacts(c, g, ns, all);
    MaxOk(c, g, max);
    UniqueSame(c, c1);
    SameCoherent(c, c1, ns);
    UniqueShrinks(c1, g, c', g');
    CoherentShrinks(c1, g, c', g', ns);
    EvolvesFacts(c1, g, c', g');
    forall e | e in held && Alone(c1, e) && e in c'.ref ensures c'.ref[e] == 1 {
      CountStays(c1, g, c', g', e);
    }
    KeepsShrinks(c1, g, c', g', held);
    LimitKeeps(c, c1, c', held);
  }

  lemma LimitKeeps(c: Dcache, c1: Dcache, c': Dcache, held: multiset<Id>)
    requires Keeps(c1, c', held) && c1 == c.(maxLru := c1.maxLru)
    ensures Keeps(c, c', held)
  {
    assert c1.ref == c.ref && c1.parent == c.parent && c1.name == c.name && c1.ip == c.ip;
    assert c1.root == c.root && c1.unlinked == c.unlinked && c1.nextId == c.nextId;
    assert forall d :: Alone(c1, d) == Alone(c, d);
    hide Alone;
  }

  // ----- places -----

  /** An entry that stays in the cache stays at its place. */
  lemma PlaceKept(c: Dcache, g: Ledger, ns: Namespace, all: multiset<Id>, c': Dcache, g': Ledger, all': multiset<Id>,
                  held: multiset<Id>, d: Id, place: Place)
    requires Sound(c, g, ns, all) && Sound(c', g', ns, all') && Keeps(c, c', held) && IsAt(c, d, place) && d in c'.ref
    ensures IsAt(c', d, place)
  {
    hide Ok, NamesUnique, Coherent, Keeps, IsAt;
    SoundFacts(c, g, ns, all);
    SoundFacts(c', g', ns, all');
    AtIsLive(c, d, place);
    PlaceStays(c, c', g', held, d, place);
  }

  lemma AtIsLive(c: Dcache, d: Id, place: Place)
    requires IsAt(c, d, place) && c.ref.Keys == c.ip.Keys
    ensures d in c.ref && place != []
  {
  }

  /** What is known of an entry at a place. */
  lemma PlaceFacts(c: Dcache, g: Ledger, ns: Namespace, all: multiset<Id>, d: Id, place: Place)
    requires Sound(c, g, ns, all) && IsAt(c, d, place)
    ensures place != [] && d in c.ref && d in c.children && d in c.ip && c.ip[d] == place[|place| - 1]
    ensures (d == c.root || d in c.parent) && d != c.unlinked && (d !in c.parent <==> |place| == 1)
    ensures d in c.parent ==> c.parent[d] in c.ref && IsAt(c, c.parent[d], place[..|place| - 1])
  {
    hide Ok, NamesUnique, Coherent;
    SoundFacts(c, g, ns, all);
  }

  /** The child of a name is where the name leads. */
  lemma ChildPlace(c: Dcache, g: Ledger, ns: Namespace, all: multiset<Id>, d: Id, place: Place, child: Id)
    requires Sound(c, g, ns, all) && IsAt(c, d, place) && place != [] && place[|place| - 1].Some?
    requires child in c.parent && c.parent[child] == d && child in c.name
    ensures IsAt(c, child, place + [ns.lookup(place[|place| - 1].value, c.name[child])])
  {
    hide Ok, NamesUnique;
    PlaceFacts(c, g, ns, all, d, place);
    SoundFacts(c, g, ns, all);
    var below := place + [ns.lookup(place[|place| - 1].value, c.name[child])];
    assert below[..|below| - 1] == place;
  }

  lemma RootPlace(c: Dcache, g: Ledger, ns: Namespace, all: multiset<Id>)
    requires Sound(c, g, ns, all)
    ensures c.root in c.ref && c.root in c.ip && IsAt(c, c.root, [c.ip[c.root]])
  {
    hide Ok, NamesUnique, Coherent;
    SoundFacts(c, g, ns, all);
  }

  /** An orphan a thread holds stays one while others run. */
  lemma OrphanStays(c: Dcache, c': Dcache, g': Ledger, ns: Namespace, all': multiset<Id>, held: multiset<Id>, d: Id,
                    name: string)
    requires Orphan(c, d, name) && Keeps(c, c', held) && Sound(c', g', ns, all') && d in held && d in all'
    ensures Orphan(c', d, name)
    ensures d in c.ip ==> d in c'.ip && c'.ip[d] == c.ip[d]
  {
    hide Ok, NamesUnique, Coherent;
    SoundFacts(c', g', ns, all');
  }

  /** The current directory, removed or in its place, stays so. */
  lemma CwdStays(c: Dcache, g: Ledger, ns: Namespace, all: multiset<Id>, c': Dcache, g': Ledger, all': multiset<Id>,
                 held: multiset<Id>, d: Id, place: Place)
    requires Sound(c, g, ns, all) && Sound(c', g', ns, all') && Keeps(c, c', held) && d in all'
    requires IsUnlinked(c, d) || IsAt(c, d, place)
    ensures IsUnlinked(c', d) == IsUnlinked(c, d)
    ensures IsAt(c, d, place) ==> IsAt(c', d, place)
  {
    hide Ok, NamesUnique, Coherent, IsAt, Alone;
    SoundFacts(c, g, ns, all);
    SoundFacts(c', g', ns, all');
    if IsAt(c, d, place) {
      PlaceFacts(c, g, ns, all, d, place);
      PlaceKept(c, g, ns, all, c', g', all', held, d, place);
    }
  }

  // ----- paths -----

  datatype Found = Entry(d: Id) | Error(error: Errno)

  /** A path's start: the root, or the current directory if it still has a name. */
  function Expected(ns: Namespace, rootIp: Option<Inode>, path: string, cwdUnlinked: bool, cwdPlace: Place): Walked
    requires cwdPlace != []
  {
    if path == "" then Fails(EINVAL)
    else if path[0] == '/' then Walk(ns, [rootIp], Components(path))
    else if cwdUnlinked then Fails(ENOENT)
    else Walk(ns, cwdPlace, Components(path))
  }

  /** How the walk goes on after one element. */
  function Onward(ns: Namespace, place: Place, elem: Skipped): Walked
    requires place != []
  {
    var here := place[|place| - 1];
    if elem.End? then At(place)
    else if elem.TooLong? || here.None? then Fails(ENOENT)
    else if !ns.isDir(here.value) then Fails(ENOTDIR)
    else if !ns.mayExec(here.value) then Fails(EACCES)
    else Walk(ns, Move(ns, place, elem.name), Components(elem.rest))
  }

  /** One element of a path decides how the walk goes on. */
  lemma WalkByElement(ns: Namespace, place: Place, path: string)
    requires place != []
    ensures Walk(ns, place, Components(path)) == Onward(ns, place, Skip(path))
  {
    var elem := Skip(path);
    if elem.Elem? {
      assert ([Name(elem.name)] + Components(elem.rest))[1..] == Components(elem.rest);
    }
  }
}
