/**
 The dentry cache: get, put, eviction and the changes of the tree.  A put can drain the
 LRU list, a drain puts parents, and those puts can drain again; the methods below recurse
 exactly that way.
*/
module DentryCache {
  import opened Common
  import opened DentryTree

  type Inode = nat
  const DRAIN_BATCH_SIZE: nat := 32

  function Min(a: nat, b: nat): nat { if a < b then a else b }

  function Elements(s: seq<Id>): set<Id> { set x | x in s }

  /** The list enumerates the set, each element once. */
  ghost predicate IsList(l: seq<Id>, s: set<Id>) {
    NoDup(l) && forall x :: x in l <==> x in s
  }

  /** The fields of all dentries and of struct dentry_cache. */
  datatype Dcache = Dcache(
    ref: map<Id, nat>, parent: map<Id, Id>, children: map<Id, seq<Id>>, name: map<Id, string>,
    ip: map<Id, Option<Inode>>,
    lru: seq<Id>, lruSize: nat, maxLru: nat, nextId: Id, root: Id, unlinked: Id)

  /**
   Bookkeeping for the proof: the references handed out to callers, the entries with count
   0 that running code holds in local variables, and the entries freed so far, in order.
  */
  datatype Ledger = Ledger(onLru: set<Id>, handles: multiset<Id>, limbo: set<Id>, freed: seq<Id>)

  ghost predicate Ok(c: Dcache, g: Ledger) {
    && Inv(c.ref, c.parent, c.children, g.onLru, g.handles, g.limbo, c.unlinked)
    && IsList(c.lru, g.onLru) && c.lruSize == |c.lru|
    && Roots(c, g)
    && c.ref.Keys == c.name.Keys == c.ip.Keys
    && (forall d :: d in c.ref ==> d < c.nextId)
    && NoDup(g.freed) && (forall d :: d in g.freed ==> d < c.nextId && d !in c.ref)
  }

  /** The cache itself holds its two roots, which have no parents. */
  ghost predicate Roots(c: Dcache, g: Ledger) {
    && c.root in g.handles && c.unlinked in g.handles && c.root != c.unlinked
    && c.root !in c.parent && c.unlinked !in c.parent
  }

  // ----- what puts and drains may do to the rest of the cache -----

  /**
   `b` is what eviction from the old end and insertion at the new end make of `a`: the k
   youngest of `a` are still there, in order and oldest; the others are gone.
  */
  ghost predicate AgesTo(a: seq<Id>, b: seq<Id>, k: nat, gone: iset<Id>) {
    && k <= |a| && k <= |b| && b[|b| - k..] == a[..k]
    && (forall i :: k <= i < |a| ==> a[i] in gone)
  }

  ghost predicate Ages(a: seq<Id>, b: seq<Id>, gone: iset<Id>) {
    exists k: nat :: AgesTo(a, b, k, gone)
  }

  /** Freed, or about to be. */
  ghost function Gone(c: Dcache, g: Ledger): iset<Id> {
    iset d: Id | d !in c.ref || d in g.limbo
  }

  ghost predicate SameCache(c: Dcache, c': Dcache) {
    c'.root == c.root && c'.unlinked == c.unlinked && c'.maxLru == c.maxLru && c'.nextId == c.nextId
  }

  /** Entries only disappear; those that stay keep their name, inode and parent. */
  ghost predicate Shrinks(c: Dcache, g: Ledger, c': Dcache, g': Ledger) {
    && (forall d :: d in c'.ref ==> d in c.ref)
    && (forall d :: d in c'.name ==> d in c.name && c'.name[d] == c.name[d])
    && (forall d :: d in c'.ip ==> d in c.ip && c'.ip[d] == c.ip[d])
    && (forall d :: d in c'.parent ==> d in c.parent && c'.parent[d] == c.parent[d])
    && (forall d :: d in c.parent && d in c'.ref && d !in g'.limbo ==> d in c'.parent)
    && (forall d :: d in g.limbo ==> d in g'.limbo || d !in c'.ref)
  }

  /** Whatever disappears is freed, once (the log has no duplicates). */
  ghost predicate FreesAll(c: Dcache, g: Ledger, c': Dcache, g': Ledger) {
    && g.freed <= g'.freed
    && (forall d :: d in c.ref && d !in c'.ref ==> d in g'.freed)
  }

  ghost predicate Evolves(c: Dcache, g: Ledger, c': Dcache, g': Ledger) {
    SameCache(c, c') && Shrinks(c, g, c', g') && FreesAll(c, g, c', g') && Ages(c.lru, c'.lru, Gone(c', g'))
  }

  lemma AgesStays(a: seq<Id>, gone: iset<Id>)
    ensures Ages(a, a, gone)
  {
    assert AgesTo(a, a, |a|, gone);
  }

  lemma AgesTrans(a: seq<Id>, b: seq<Id>, d: seq<Id>, gone: iset<Id>, gone': iset<Id>)
    requires Ages(a, b, gone) && Ages(b, d, gone') && gone <= gone'
    ensures Ages(a, d, gone')
  {
    var k: nat :| AgesTo(a, b, k, gone);
    var m: nat :| AgesTo(b, d, m, gone');
    var fresh_ := |b| - k;
    if m >= fresh_ {
      var n := m - fresh_;
      assert forall i :: 0 <= i < n ==>
        d[|d| - n + i] == d[|d| - m..][fresh_ + i] == b[..m][fresh_ + i] == b[fresh_ + i] == b[|b| - k..][i] == a[i];
      assert d[|d| - n..] == a[..n];
      forall i | n <= i < k ensures a[i] in gone' {
        assert a[i] == a[..k][i] == b[|b| - k..][i] == b[fresh_ + i];
      }
      assert AgesTo(a, d, n, gone');
    } else {
      forall i | 0 <= i < k ensures a[i] in gone' {
        assert a[i] == a[..k][i] == b[|b| - k..][i] == b[fresh_ + i];
      }
      assert AgesTo(a, d, 0, gone');
    }
  }

  lemma EvolvesTrans(c: Dcache, g: Ledger, c1: Dcache, g1: Ledger, c2: Dcache, g2: Ledger)
    requires Evolves(c, g, c1, g1) && Evolves(c1, g1, c2, g2)
    ensures Evolves(c, g, c2, g2)
  {
    ShrinksTrans(c, g, c1, g1, c2, g2);
    FreesTrans(c, g, c1, g1, c2, g2);
    assert Gone(c1, g1) <= Gone(c2, g2);
    AgesTrans(c.lru, c1.lru, c2.lru, Gone(c1, g1), Gone(c2, g2));
  }

  lemma ShrinksTrans(c: Dcache, g: Ledger, c1: Dcache, g1: Ledger, c2: Dcache, g2: Ledger)
    requires Shrinks(c, g, c1, g1) && Shrinks(c1, g1, c2, g2)
    ensures Shrinks(c, g, c2, g2)
  {
  }

  lemma FreesTrans(c: Dcache, g: Ledger, c1: Dcache, g1: Ledger, c2: Dcache, g2: Ledger)
    requires FreesAll(c, g, c1, g1) && FreesAll(c1, g1, c2, g2)
    ensures FreesAll(c, g, c2, g2)
  {
    assert forall d :: d in g1.freed ==> d in g2.freed;
  }

  /** Outside the unlinked root no two entries of one directory share a name. */
  ghost predicate NamesUnique(c: Dcache) {
    forall a, b {:trigger c.parent[a], c.parent[b]} ::
      a in c.parent && b in c.parent && a != b && c.parent[a] == c.parent[b] && c.parent[a] != c.unlinked ==>
      a in c.name && b in c.name && c.name[a] != c.name[b]
  }

  // ----- the small updates, as functions of the whole state -----

  function Got(c: Dcache, d: Id): Dcache
    requires d in c.ref
  {
    c.(ref := c.ref[d := c.ref[d] + 1], lru := Without(c.lru, d), lruSize := |Without(c.lru, d)|)
  }

  function GotLedger(g: Ledger, d: Id): Ledger {
    g.(onLru := g.onLru - {d}, handles := g.handles + multiset{d})
  }

  lemma GetOk(c: Dcache, g: Ledger, d: Id)
    requires Ok(c, g) && d in c.ref && d !in g.limbo
    ensures Ok(Got(c, d), GotLedger(g, d))
    ensures c.ref[d] != 0 ==> Got(c, d).lru == c.lru && Got(c, d).lruSize == c.lruSize
    ensures c.ref[d] == 0 ==> d in c.lru && Got(c, d).lruSize == c.lruSize - 1
  {
    hide Inv, IsList, Without, NoDup;
    IdleIsListed(c, g, d);
    GetInv(c.ref, c.parent, c.children, g.onLru, g.handles, g.limbo, c.unlinked, d);
    ListWithout(c.lru, g.onLru, d);
    assert c.ref[d := c.ref[d] + 1].Keys == c.ref.Keys;
  }

  lemma IdleIsListed(c: Dcache, g: Ledger, d: Id)
    requires Ok(c, g) && d in c.ref && d !in g.limbo
    ensures c.ref[d] == 0 <==> d in g.onLru
  {
  }

  lemma ListWithout(l: seq<Id>, s: set<Id>, d: Id)
    requires IsList(l, s)
    ensures IsList(Without(l, d), s - {d})
    ensures if d in s then d in l && |Without(l, d)| == |l| - 1 else Without(l, d) == l
  {
  }

  function Dropped(c: Dcache, d: Id): Dcache
    requires d in c.ref && c.ref[d] > 0
  {
    c.(ref := c.ref[d := c.ref[d] - 1])
  }

  function DroppedLedger(g: Ledger, d: Id, last: bool): Ledger {
    g.(handles := g.handles - multiset{d}, limbo := if last then g.limbo + {d} else g.limbo)
  }

  lemma DropOk(c: Dcache, g: Ledger, d: Id)
    requires Ok(c, g) && d in g.handles
    requires d in {c.root, c.unlinked} ==> g.handles[d] >= 2
    ensures d in c.ref && c.ref[d] > 0 && d !in g.onLru && d !in g.limbo
    ensures Ok(Dropped(c, d), DroppedLedger(g, d, c.ref[d] == 1))
  {
    hide Inv;
    DropInv(c.ref, c.parent, c.children, g.onLru, g.handles, g.limbo, c.unlinked, d);
    assert c.ref[d := c.ref[d] - 1].Keys == c.ref.Keys;
  }

  function Freed(c: Dcache, d: Id): Dcache {
    c.(ref := c.ref - {d}, children := c.children - {d}, name := c.name - {d}, ip := c.ip - {d})
  }

  function FreedLedger(g: Ledger, d: Id): Ledger {
    g.(limbo := g.limbo - {d}, freed := g.freed + [d])
  }

  lemma FreeOk(c: Dcache, g: Ledger, d: Id)
    requires Ok(c, g) && d in g.limbo && d !in c.parent
    ensures Ok(Freed(c, d), FreedLedger(g, d))
  {
    FreeInv(c.ref, c.parent, c.children, g.onLru, g.handles, g.limbo, c.unlinked, d);
  }

  lemma FreeEvolves(c: Dcache, g: Ledger, d: Id)
    requires Ok(c, g) && d in g.limbo && d !in c.parent
    ensures Evolves(c, g, Freed(c, d), FreedLedger(g, d))
  {
    AgesStays(c.lru, Gone(Freed(c, d), FreedLedger(g, d)));
    assert d in FreedLedger(g, d).freed;
  }

  function Pushed(c: Dcache, d: Id): Dcache {
    c.(lru := [d] + c.lru, lruSize := c.lruSize + 1)
  }

  function PushedLedger(g: Ledger, d: Id): Ledger {
    g.(onLru := g.onLru + {d}, limbo := g.limbo - {d})
  }

  lemma PushOk(c: Dcache, g: Ledger, d: Id)
    requires Ok(c, g) && d in g.limbo && d in c.parent && c.parent[d] != c.unlinked
    ensures d !in c.lru && Ok(Pushed(c, d), PushedLedger(g, d))
  {
    ToLruInv(c.ref, c.parent, c.children, g.onLru, g.handles, g.limbo, c.unlinked, d);
    NoDupCons(d, c.lru);
  }

  /** Take the least recently used entry off the list and out of the tree. */
  function Evicted(c: Dcache): Dcache
    requires c.lru != [] && c.lruSize > 0 && c.lru[|c.lru| - 1] in c.parent
    requires c.parent[c.lru[|c.lru| - 1]] in c.children
  {
    var v := c.lru[|c.lru| - 1];
    var p := c.parent[v];
    c.(lru := c.lru[..|c.lru| - 1], lruSize := c.lruSize - 1,
       parent := c.parent - {v}, children := c.children[p := Without(c.children[p], v)])
  }

  function EvictedLedger(g: Ledger, v: Id, p: Id): Ledger {
    g.(onLru := g.onLru - {v}, limbo := g.limbo + {v}, handles := g.handles + multiset{p})
  }

  lemma OldestFacts(c: Dcache, g: Ledger)
    requires Ok(c, g) && c.lruSize > 0
    ensures c.lru != [] && c.lruSize == |c.lru|
    ensures var v := c.lru[|c.lru| - 1];
      v in g.onLru && v !in g.limbo && v in c.ref && c.ref[v] == 0 && v in c.parent && c.parent[v] in c.children
  {
    assert c.lru[|c.lru| - 1] in c.lru;
  }

  lemma EvictOk(c: Dcache, g: Ledger)
    requires Ok(c, g) && c.lruSize > 0
    ensures c.lru != [] && c.lru[|c.lru| - 1] in c.parent && c.parent[c.lru[|c.lru| - 1]] in c.children
    ensures Ok(Evicted(c), EvictedLedger(g, c.lru[|c.lru| - 1], c.parent[c.lru[|c.lru| - 1]]))
  {
    hide Inv;
    OldestFacts(c, g);
    var v := c.lru[|c.lru| - 1];
    FromLruInv(c.ref, c.parent, c.children, g.onLru, g.handles, g.limbo, c.unlinked, v);
    DetachInv(c.ref, c.parent, c.children, g.onLru - {v}, g.handles, g.limbo + {v}, c.unlinked, v);
    assert c.lru == c.lru[..|c.lru| - 1] + [v];
  }

  lemma EvictEvolves(c: Dcache, g: Ledger)
    requires Ok(c, g) && c.lruSize > 0
    requires c.lru != [] && c.lru[|c.lru| - 1] in c.parent && c.parent[c.lru[|c.lru| - 1]] in c.children
    ensures Evolves(c, g, Evicted(c), EvictedLedger(g, c.lru[|c.lru| - 1], c.parent[c.lru[|c.lru| - 1]]))
  {
    var v := c.lru[|c.lru| - 1];
    var g' := EvictedLedger(g, v, c.parent[v]);
    EvictAges(c.lru, Gone(Evicted(c), g'));
    hide Ages, Ok;
  }

  lemma EvictAges(l: seq<Id>, gone: iset<Id>)
    requires l != [] && l[|l| - 1] in gone
    ensures Ages(l, l[..|l| - 1], gone)
  {
    assert AgesTo(l, l[..|l| - 1], |l| - 1, gone);
  }

  /** Unlink an entry from its parent, whose reference goes to the caller. */
  function Detached(c: Dcache, d: Id): Dcache
    requires d in c.parent && c.parent[d] in c.children
  {
    c.(parent := c.parent - {d}, children := c.children[c.parent[d] := Without(c.children[c.parent[d]], d)])
  }

  function HandleAdded(g: Ledger, p: Id): Ledger { g.(handles := g.handles + multiset{p}) }

  lemma DetachOk(c: Dcache, g: Ledger, d: Id)
    requires Ok(c, g) && d in c.parent && d !in g.onLru
    ensures c.parent[d] in c.children && Ok(Detached(c, d), HandleAdded(g, c.parent[d]))
  {
    DetachInv(c.ref, c.parent, c.children, g.onLru, g.handles, g.limbo, c.unlinked, d);
  }

  /** Link an orphan below p; a reference the caller holds on p goes to it. */
  function Attached(c: Dcache, p: Id, d: Id): Dcache
    requires p in c.children
  {
    c.(parent := c.parent[d := p], children := c.children[p := [d] + c.children[p]])
  }

  function HandleGiven(g: Ledger, p: Id): Ledger { g.(handles := g.handles - multiset{p}) }

  lemma AttachOk(c: Dcache, g: Ledger, p: Id, d: Id)
    requires Ok(c, g) && p in g.handles && d in g.handles && p != d && d !in c.parent && d != c.root && d != c.unlinked
    requires p in {c.root, c.unlinked} ==> g.handles[p] >= 2
    ensures p in c.children && Ok(Attached(c, p, d), HandleGiven(g, p))
  {
    AttachInv(c.ref, c.parent, c.children, g.onLru, g.handles, g.limbo, c.unlinked, p, d);
  }

  /** Registration: one reference on the parent, which goes to the child. */
  lemma RegisterOk(c: Dcache, g: Ledger, p: Id, d: Id)
    requires Ok(c, g) && p in g.handles && d in g.handles && p != d && d !in c.parent && d != c.root && d != c.unlinked
    ensures p in c.ref && p in c.children && Ok(Attached(Got(c, p), p, d), g)
    ensures Attached(Got(c, p), p, d).lruSize <= c.lruSize
  {
    hide Ok, Without;
    OkFacts(c, g);
    HeldIsOffLru(c, g, p);
    GetOk(c, g, p);
    var c1, g1 := Got(c, p), GotLedger(g, p);
    AttachOk(c1, g1, p, d);
    assert HandleGiven(g1, p) == g by {
      assert g.onLru - {p} == g.onLru;
      assert g.handles + multiset{p} - multiset{p} == g.handles;
    }
  }

  /** A fresh orphan with one reference, the caller's. */
  function Allocated(c: Dcache, name: string, ip: Option<Inode>): Dcache {
    var d := c.nextId;
    c.(ref := c.ref[d := 1], children := c.children[d := []], name := c.name[d := name], ip := c.ip[d := ip],
       nextId := d + 1)
  }

  predicate IsUnlinked(c: Dcache, d: Id) {
    d in c.parent && c.parent[d] == c.unlinked
  }

  /** The last put of an unlinked entry: gone from below the unlinked root, whose count falls with it. */
  ghost predicate UnlinkedFreed(c: Dcache, d: Id, c': Dcache)
    requires d in c.ref && c.ref[d] > 0 && IsUnlinked(c, d) && c.unlinked in c.children
  {
    && c.unlinked in c.ref && c.ref[c.unlinked] > 0 && c.unlinked != d
    && c' == Freed(Dropped(Detached(Dropped(c, d), d), c.unlinked), d)
  }

  lemma AllocOk(c: Dcache, g: Ledger, name: string, ip: Option<Inode>)
    requires Ok(c, g)
    ensures c.nextId !in c.ref && Ok(Allocated(c, name, ip), HandleAdded(g, c.nextId))
  {
    hide Inv;
    AllocInv(c.ref, c.parent, c.children, g.onLru, g.handles, g.limbo, c.unlinked, c.nextId);
  }

  // ----- how the updates compose -----

  lemma DropEvolves(c: Dcache, g: Ledger, d: Id, last: bool)
    requires d in c.ref && c.ref[d] > 0
    ensures Evolves(c, g, Dropped(c, d), DroppedLedger(g, d, last))
  {
    AgesStays(c.lru, Gone(Dropped(c, d), DroppedLedger(g, d, last)));
  }

  /** The last put of a linked entry: count to 0 and onto the list. */
  lemma RetireEvolves(c: Dcache, g: Ledger, d: Id)
    requires d in c.ref && c.ref[d] > 0 && d !in g.limbo
    ensures Evolves(c, g, Pushed(Dropped(c, d), d), PushedLedger(DroppedLedger(g, d, true), d))
  {
    var c', g' := Pushed(Dropped(c, d), d), PushedLedger(DroppedLedger(g, d, true), d);
    assert AgesTo(c.lru, c'.lru, |c.lru|, Gone(c', g'));
  }

  lemma DetachEvolves(c: Dcache, g: Ledger, d: Id)
    requires d in c.parent && c.parent[d] in c.children && d in g.limbo
    ensures Evolves(c, g, Detached(c, d), HandleAdded(g, c.parent[d]))
  {
    AgesStays(c.lru, Gone(Detached(c, d), HandleAdded(g, c.parent[d])));
  }

  lemma StaysEvolves(c: Dcache, g: Ledger)
    ensures Evolves(c, g, c, g)
  {
    AgesStays(c.lru, Gone(c, g));
  }

  lemma EvolvesFacts(c: Dcache, g: Ledger, c': Dcache, g': Ledger)
    requires Evolves(c, g, c', g')
    ensures SameCache(c, c') && c'.parent.Keys <= c.parent.Keys
  {
  }

  lemma OkFacts(c: Dcache, g: Ledger)
    requires Ok(c, g)
    ensures c.lruSize == |c.lru| && c.root in g.handles && c.unlinked in g.handles
    ensures c.ref.Keys == c.children.Keys == c.name.Keys == c.ip.Keys
    ensures forall d :: d in g.limbo ==> d in c.ref
    ensures forall d :: d in g.handles ==> d in c.ref && d !in g.limbo
    ensures forall d :: d in c.parent ==> c.parent[d] in c.children && d in c.ref
  {
  }

  lemma NextOf(handles: multiset<Id>, limbo: set<Id>, parents: seq<Id>, toFree: seq<Id>, i: nat)
    requires i < |parents| == |toFree| && NoDup(toFree) && limbo !! Elements(toFree)
    ensures var h, l := handles + multiset(parents[i..]), limbo + Elements(toFree[i..]);
      && parents[i] in h && (parents[i] in handles ==> h[parents[i]] >= 2) && toFree[i] in l
      && h - multiset{parents[i]} == handles + multiset(parents[i + 1..])
      && l - {toFree[i]} == limbo + Elements(toFree[i + 1..])
  {
    assert parents[i..] == [parents[i]] + parents[i + 1..];
    assert toFree[i..] == [toFree[i]] + toFree[i + 1..];
    assert toFree[i] in Elements(toFree) && toFree[i] !in Elements(toFree[i + 1..]);
  }

  lemma NoneLeft(handles: multiset<Id>, limbo: set<Id>, parents: seq<Id>, toFree: seq<Id>)
    requires parents == toFree == []
    ensures handles + multiset(parents) == handles && limbo + Elements(toFree) == limbo
  {
  }

  /** A root and a root for unlinked entries, each held by the cache. */
  function InitialCache(rootIp: Inode): Dcache {
    var noParent: map<Id, Id> := map[];
    Dcache(map[0 := 1, 1 := 1], noParent, map[0 := [], 1 := []], map[0 := "/", 1 := "(unlinked)"],
           map[0 := Some(rootIp), 1 := None], [], 0, 16, 2, 0, 1)
  }

  ghost function InitialLedger(): Ledger { Ledger({}, multiset{0, 1}, {}, []) }

  lemma InitialOk(rootIp: Inode)
    ensures Ok(InitialCache(rootIp), InitialLedger())
  {
    var c, g := InitialCache(rootIp), InitialLedger();
    assert Links(c.ref.Keys, c.parent, c.children) && Counts(c.ref, c.children, g.handles);
  }

  /** How many entries one batch of a drain takes. */
  function BatchSize(lruSize: nat, target: nat): nat {
    if lruSize <= target then 0 else Min(DRAIN_BATCH_SIZE, lruSize - target)
  }

  class Cache {
    var c: Dcache
    ghost var g: Ledger

    ghost predicate Valid()
      reads this
    {
      Ok(c, g)
    }

    /** Between two calls nothing is in limbo and the LRU list respects its limit. */
    ghost predicate Quiet()
      reads this
    {
      Valid() && g.limbo == {} && c.lruSize <= c.maxLru
    }

    /** May the caller put this reference?  The cache keeps one on each of its roots. */
    ghost predicate Puttable(d: Id)
      reads this
    {
      d in g.handles && (d in {c.root, c.unlinked} ==> g.handles[d] >= 2)
    }

    /** dentry_cache_init */
    constructor (rootIp: Inode)
      ensures Quiet() && c == InitialCache(rootIp) && g == InitialLedger() && NamesUnique(c)
    {
      hide Ok;
      InitialOk(rootIp);
      c := InitialCache(rootIp);
      g := InitialLedger();
    }

    /** dentry_get */
    method Get(d: Id)
      requires Valid() && d in c.ref && d !in g.limbo
      modifies this
      ensures Valid() && c == Got(old(c), d) && g == GotLedger(old(g), d) && c.lruSize <= old(c.lruSize)
    {
      hide Ok;
      GetOk(c, g, d);
      var previous := c.ref[d];
      c := c.(ref := c.ref[d := previous + 1]);
      if previous == 0 {
        if d in c.lru {
          c := c.(lru := Without(c.lru, d), lruSize := c.lruSize - 1);
        }
      }
      g := GotLedger(g, d);
    }

    /** dentry_free */
    method Free(d: Id)
      requires Valid() && d in g.limbo && d !in c.parent
      modifies this
      ensures Valid() && c == Freed(old(c), d) && g == FreedLedger(old(g), d)
      ensures Evolves(old(c), old(g), c, g)
    {
      hide Ok, Evolves;
      FreeOk(c, g, d);
      FreeEvolves(c, g, d);
      c := Freed(c, d);
      g := FreedLedger(g, d);
    }

    /** dentry_put */
    method Put(d: Id)
      requires Valid() && Puttable(d)
      modifies this
      ensures Valid() && Evolves(old(c), old(g), c, g)
      ensures g.handles == old(g.handles) - multiset{d} && g.limbo == old(g.limbo)
      ensures c.lruSize == old(c.lruSize) || c.lruSize == Min(old(c.lruSize) + 1, c.maxLru)
      ensures d in old(c.ref) && old(c.ref[d]) > 0
      ensures old(c.ref[d]) > 1 ==> c == Dropped(old(c), d) && g == DroppedLedger(old(g), d, false)
      // the last reference: an orphan is freed, an unlinked entry detached and freed, any other retired to the LRU list
      ensures old(c.ref[d]) == 1 && d !in old(c.parent) ==>
        c == Freed(Dropped(old(c), d), d) && g.freed == old(g.freed) + [d]
      ensures old(c.ref[d]) == 1 && old(IsUnlinked(c, d)) ==>
        old(c.unlinked in c.children) && UnlinkedFreed(old(c), d, c)
      ensures old(c.ref[d]) == 1 && d in old(c.parent) && !old(IsUnlinked(c, d)) ==>
        && c.lruSize == Min(old(c.lruSize) + 1, c.maxLru)
        && Evolves(Pushed(Dropped(old(c), d), d), PushedLedger(DroppedLedger(old(g), d, true), d), c, g)
      decreases c.parent.Keys, 3, 1
    {
      hide Ok, Evolves;
      DropOk(c, g, d);
      DropEvolves(c, g, d, c.ref[d] == 1);
      var last := c.ref[d] == 1;
      c := c.(ref := c.ref[d := c.ref[d] - 1]);
      g := DroppedLedger(g, d, last);
      if last {
        RetireOrFree(d, old(c), old(g));
      }
    }

    /** What becomes of an entry that has just lost its last reference. */
    method RetireOrFree(d: Id, ghost c0: Dcache, ghost g0: Ledger)
      requires Valid() && d in c0.ref && c0.ref[d] == 1 && c == Dropped(c0, d) && g == DroppedLedger(g0, d, true)
      requires d !in g0.limbo && d !in g0.onLru
      requires Evolves(c0, g0, c, g)
      modifies this
      ensures Valid() && Evolves(c0, g0, c, g) && g.handles == g0.handles - multiset{d} && g.limbo == g0.limbo
      ensures c.lruSize == c0.lruSize || c.lruSize == Min(c0.lruSize + 1, c.maxLru)
      ensures d !in c0.parent ==> c == Freed(Dropped(c0, d), d) && g.freed == g0.freed + [d]
      ensures IsUnlinked(c0, d) ==> c0.unlinked in c0.children && UnlinkedFreed(c0, d, c)
      ensures d in c0.parent && !IsUnlinked(c0, d) ==>
        && c.lruSize == Min(c0.lruSize + 1, c.maxLru)
        && Evolves(Pushed(Dropped(c0, d), d), PushedLedger(DroppedLedger(g0, d, true), d), c, g)
      decreases c.parent.Keys, 3, 0
    {
      hide Ok, Evolves;
      if d in c.parent && c.parent[d] == c.unlinked {
        FreeUnlinked(d, c0, g0);
      } else if d in c.parent {
        RetireEvolves(c0, g0, d);
        ghost var c1, g1 := Pushed(c, d), PushedLedger(g, d);
        MoveToLru(d);
        EvolvesTrans(c0, g0, c1, g1, c, g);
        assert g.limbo == g0.limbo;
      } else {
        ghost var c1, g1 := c, g;
        Free(d);
        EvolvesTrans(c0, g0, c1, g1, c, g);
        assert g.limbo == g0.limbo;
      }
    }

    /** An unlinked entry leaves the unlinked root and is freed. */
    method FreeUnlinked(d: Id, ghost c0: Dcache, ghost g0: Ledger)
      requires Valid() && IsUnlinked(c, d) && d in g.limbo && d !in g.onLru && d in c.ref && Evolves(c0, g0, c, g)
      modifies this
      ensures Valid() && Evolves(c0, g0, c, g) && g.handles == old(g.handles) && g.limbo == old(g.limbo) - {d}
      ensures old(c.unlinked in c.children) && old(c.unlinked in c.ref) && old(c.ref[c.unlinked]) > 0
      ensures old(c.unlinked) != d
      ensures c == Freed(Dropped(Detached(old(c), d), old(c.unlinked)), d)
      decreases c.parent.Keys, 2, 1
    {
      hide Ok, Evolves;
      OkFacts(c, g);
      HeldTwice(c, g, d);
      DetachOk(c, g, d);
      DetachEvolves(c, g, d);
      ghost var c1, g1 := Detached(c, d), HandleAdded(g, c.parent[d]);
      EvolvesTrans(c0, g0, c, g, c1, g1);
      RemoveFromUnlinked(d);
      EvolvesTrans(c0, g0, c1, g1, c, g);
      ghost var c2, g2 := c, g;
      Free(d);
      EvolvesTrans(c0, g0, c2, g2, c, g);
    }

    /** dentry_cache_remove_from_unlinked */
    method RemoveFromUnlinked(d: Id)
      requires Valid() && d !in g.onLru
      modifies this
      ensures Valid() && d !in c.parent
      ensures if d !in old(c.parent) then c == old(c) && g == old(g)
              else old(c.parent[d]) in old(c.children) &&
                   Evolves(Detached(old(c), d), HandleAdded(old(g), old(c.parent[d])), c, g)
      ensures g.handles == old(g.handles) && g.limbo == old(g.limbo)
      ensures c.lruSize == old(c.lruSize) || c.lruSize == Min(old(c.lruSize) + 1, c.maxLru)
      ensures d in old(c.parent) && old(c.parent[d]) in old(c.ref) && old(c.ref[c.parent[d]]) > 1 ==>
        c == Dropped(Detached(old(c), d), old(c.parent[d]))
      decreases c.parent.Keys, 2, 0
    {
      hide Ok, Evolves;
      if d in c.parent {
        DetachOk(c, g, d);
        OkFacts(c, g);
        var parentToPut := c.parent[d];
        c := Detached(c, d);
        g := HandleAdded(g, parentToPut);
        ghost var c1, g1 := c, g;
        assert c1.parent.Keys < old(c.parent.Keys) by { assert d !in c1.parent; }
        Put(parentToPut);
        EvolvesFacts(c1, g1, c, g);
        assert g.handles == old(g.handles);
      }
    }

    /** dentry_cache_move_to_lru */
    method MoveToLru(d: Id)
      requires Valid() && d in g.limbo && d in c.parent && c.parent[d] != c.unlinked
      modifies this
      ensures Valid() && Evolves(Pushed(old(c), d), PushedLedger(old(g), d), c, g)
      ensures g.handles == old(g.handles) && g.limbo == old(g.limbo) - {d}
      ensures c.lruSize == Min(old(c.lruSize) + 1, c.maxLru)
      decreases c.parent.Keys, 2
    {
      hide Ok, Evolves;
      PushOk(c, g, d);
      if d !in c.lru {
        c := c.(lru := [d] + c.lru, lruSize := c.lruSize + 1);
        g := PushedLedger(g, d);
      }
      ghost var c1, g1 := c, g;
      DrainLru(c.maxLru);
      EvolvesFacts(c1, g1, c, g);
    }

    /**
     dentry_cache_drain_lru: terminates in spite of the cascade, frees what it takes and
     ends exactly at the target, oldest entries first.  With a target above the limit the
     drains nested in its puts may go on down to the limit, and no further.
    */
    method DrainLru(target: nat)
      requires Valid()
      modifies this
      ensures Valid() && Evolves(old(c), old(g), c, g)
      ensures g.handles == old(g.handles) && g.limbo == old(g.limbo)
      ensures old(c.lruSize) <= target ==> c == old(c) && g == old(g)
      ensures old(c.lruSize) > target ==> Min(target, c.maxLru) <= c.lruSize <= target
      decreases c.parent.Keys, 1
    {
      hide Ok, Evolves;
      StaysEvolves(c, g);
      ghost var floor := Min(target, c.maxLru);
      while c.lruSize > target
        invariant Valid() && Evolves(old(c), old(g), c, g)
        invariant g.handles == old(g.handles) && g.limbo == old(g.limbo)
        invariant c.maxLru == old(c.maxLru) && c.parent.Keys <= old(c.parent.Keys)
        invariant old(c.lruSize) <= target ==> c == old(c) && g == old(g)
        invariant old(c.lruSize) > target ==> floor <= c.lruSize
        decreases c.parent.Keys
      {
        ghost var c1, g1 := c, g;
        OkFacts(c, g);
        var toFree, parents := DetachBatch(target);
        if |toFree| == 0 {
          break;
        }
        EvolvesTrans(old(c), old(g), c1, g1, c, g);
        EvolvesFacts(c1, g1, c, g);
        ghost var c2, g2 := c, g;
        PutAndFree(toFree, parents, g1.handles, g1.limbo, floor);
        EvolvesTrans(old(c), old(g), c2, g2, c, g);
        EvolvesFacts(old(c), old(g), c, g);
        EvolvesFacts(c2, g2, c, g);
      }
    }

    /** The locked half of one round: detach up to a batch of the oldest entries. */
    method DetachBatch(target: nat) returns (toFree: seq<Id>, parents: seq<Id>)
      requires Valid() && c.lruSize > target
      modifies this
      ensures Valid() && Evolves(old(c), old(g), c, g)
      ensures |toFree| == |parents| == BatchSize(old(c.lruSize), target) > 0 && c.lruSize == old(c.lruSize) - |toFree|
      ensures g.handles == old(g.handles) + multiset(parents) && g.limbo == old(g.limbo) + Elements(toFree)
      ensures NoDup(toFree) && Elements(toFree) !! old(g.limbo)
      ensures c.maxLru == old(c.maxLru) && c.parent.Keys < old(c.parent.Keys)
      ensures forall k :: 0 <= k < |toFree| ==> toFree[k] !in c.parent
    {
      hide Ok, Evolves;
      StaysEvolves(c, g);
      toFree, parents := [], [];
      while |toFree| < DRAIN_BATCH_SIZE && c.lruSize > target
        invariant Valid() && Evolves(old(c), old(g), c, g)
        invariant |toFree| == |parents| <= DRAIN_BATCH_SIZE && c.lruSize == old(c.lruSize) - |toFree| >= target
        invariant g.handles == old(g.handles) + multiset(parents) && g.limbo == old(g.limbo) + Elements(toFree)
        invariant NoDup(toFree) && Elements(toFree) !! old(g.limbo)
        invariant c.maxLru == old(c.maxLru) && c.parent.Keys <= old(c.parent.Keys)
        invariant forall k :: 0 <= k < |toFree| ==> toFree[k] in old(c.parent) && toFree[k] !in c.parent
        decreases c.lruSize
      {
        ghost var c1, g1 := c, g;
        OldestFacts(c, g);
        if c.ref[c.lru[|c.lru| - 1]] != 0 {
          break;
        }
        var victim, parent := EvictOne();
        EvolvesTrans(old(c), old(g), c1, g1, c, g);
        toFree, parents := toFree + [victim], parents + [parent];
      }
      assert toFree[0] in old(c.parent) && toFree[0] !in c.parent;
    }

    /** Take the oldest entry off the list and out of its parent's child list. */
    method EvictOne() returns (victim: Id, parent: Id)
      requires Valid() && c.lruSize > 0
      modifies this
      ensures Valid() && Evolves(old(c), old(g), c, g)
      ensures victim !in old(g.limbo) && c.parent.Keys == old(c.parent.Keys) - {victim} && victim in old(c.parent)
      ensures g.handles == old(g.handles) + multiset{parent} && g.limbo == old(g.limbo) + {victim}
      ensures c.lruSize == old(c.lruSize) - 1 && c.maxLru == old(c.maxLru)
    {
      hide Ok, Evolves;
      OldestFacts(c, g);
      EvictOk(c, g);
      EvictEvolves(c, g);
      victim := c.lru[|c.lru| - 1];
      parent := c.parent[victim];
      c := Evicted(c);
      g := EvictedLedger(g, victim, parent);
    }

    /** The unlocked half: put every parent and free every victim. */
    method PutAndFree(toFree: seq<Id>, parents: seq<Id>, ghost handles: multiset<Id>, ghost limbo: set<Id>,
                      ghost floor: nat)
      requires Valid() && |toFree| == |parents| && NoDup(toFree)
      requires g.handles == handles + multiset(parents) && c.root in handles && c.unlinked in handles
      requires g.limbo == limbo + Elements(toFree) && limbo !! Elements(toFree)
      requires forall k :: 0 <= k < |toFree| ==> toFree[k] !in c.parent
      requires floor <= c.lruSize && floor <= c.maxLru
      modifies this
      ensures Valid() && Evolves(old(c), old(g), c, g)
      ensures g.handles == handles && g.limbo == limbo && floor <= c.lruSize
      decreases c.parent.Keys, 5
    {
      hide Ok, Evolves, Elements, NoDup;
      StaysEvolves(c, g);
      var i := 0;
      assert parents[0..] == parents && toFree[0..] == toFree;
      while i < |toFree|
        invariant 0 <= i <= |toFree|
        invariant Valid() && Evolves(old(c), old(g), c, g)
        invariant g.handles == handles + multiset(parents[i..]) && g.limbo == limbo + Elements(toFree[i..])
        invariant SameCache(old(c), c) && c.parent.Keys <= old(c.parent.Keys) && floor <= c.lruSize
      {
        ghost var c1, g1 := c, g;
        NextOf(handles, limbo, parents, toFree, i);
        FinishOne(toFree[i], parents[i], floor);
        EvolvesTrans(old(c), old(g), c1, g1, c, g);
        i := i + 1;
      }
      NoneLeft(handles, limbo, parents[i..], toFree[i..]);
    }

    method FinishOne(victim: Id, parent: Id, ghost floor: nat)
      requires Valid() && Puttable(parent) && victim in g.limbo && victim !in c.parent
      requires floor <= c.lruSize && floor <= c.maxLru
      modifies this
      ensures Valid() && Evolves(old(c), old(g), c, g)
      ensures g.handles == old(g.handles) - multiset{parent} && g.limbo == old(g.limbo) - {victim}
      ensures SameCache(old(c), c) && c.parent.Keys <= old(c.parent.Keys) && floor <= c.lruSize
      decreases c.parent.Keys, 4
    {
      hide Ok, Evolves;
      Put(parent);
      EvolvesFacts(old(c), old(g), c, g);
      ghost var c1, g1 := c, g;
      Free(victim);
      EvolvesTrans(old(c), old(g), c1, g1, c, g);
    }

    // ----- allocation and the shape of the tree -----

    /** dentry_alloc_init_orphan */
    method AllocOrphan(name: string, ip: Option<Inode>) returns (d: Id)
      requires Valid()
      modifies this
      ensures Valid() && d == old(c.nextId) && d !in old(c.ref)
      ensures c == Allocated(old(c), name, ip) && g == HandleAdded(old(g), d)
    {
      hide Ok;
      AllocOk(c, g, name, ip);
      d := c.nextId;
      c := Allocated(c, name, ip);
      g := HandleAdded(g, d);
    }

    /** dentry_register_with_parent, by a caller holding both */
    method Register(p: Id, d: Id)
      requires Valid() && p in g.handles && d in g.handles && p != d && d !in c.parent && d != c.root && d != c.unlinked
      modifies this
      ensures Valid() && p in old(c.ref) && p in old(c.children) && c == Attached(Got(old(c), p), p, d) && g == old(g)
      ensures c.lruSize <= old(c.lruSize)
    {
      hide Ok, Without;
      OkFacts(c, g);
      HeldIsOffLru(c, g, p);
      RegisterOk(c, g, p, d);
      Get(p);
      c := c.(parent := c.parent[d := p], children := c.children[p := [d] + c.children[p]]);
      g := old(g);
    }

    /** dentry_unregister_from_parent, by a caller holding the entry and its parent */
    method Unregister(d: Id)
      requires Valid() && d in g.handles && (d in c.parent ==> c.parent[d] in g.handles)
      modifies this
      ensures Valid() && g == old(g)
      ensures if d !in old(c.parent) then c == old(c)
              else old(c.parent[d]) in old(c.children) && old(c.parent[d]) in old(c.ref) &&
                   old(c.ref[c.parent[d]]) > 0 &&
                   c == Dropped(Detached(old(c), d), old(c.parent[d]))
    {
      hide Ok, Evolves;
      if d !in c.parent {
        return;
      }
      HeldIsOffLru(c, g, d);
      DetachOk(c, g, d);
      OkFacts(c, g);
      HeldTwice(c, g, d);
      var p := c.parent[d];
      c := Detached(c, d);
      g := HandleAdded(g, p);
      Put(p);
      assert g.handles == old(g.handles);
    }

    /** dentry_switch_children: the new entry takes the old one's place and its hold on the parent. */
    method SwitchChildren(oldDp: Id, newDp: Id)
      requires Valid() && oldDp in g.handles && newDp in g.handles && oldDp != newDp
      requires oldDp in c.parent && newDp !in c.parent && newDp != c.root && newDp != c.unlinked
      requires newDp != c.parent[oldDp]
      modifies this
      ensures Valid() && g == old(g) && old(c.parent[oldDp]) in old(c.children)
      ensures c == Attached(Detached(old(c), oldDp), old(c.parent[oldDp]), newDp)
    {
      hide Ok;
      HeldIsOffLru(c, g, oldDp);
      DetachOk(c, g, oldDp);
      OkFacts(c, g);
      var p := c.parent[oldDp];
      c := Detached(c, oldDp);
      g := HandleAdded(g, p);
      AttachOk(c, g, p, newDp);
      c := Attached(c, p, newDp);
      g := HandleGiven(g, p);
      assert g.handles == old(g.handles);
    }

    /** dentry_cache_lookup_tree_locked: the first child of that name, with one more reference. */
    method Lookup(p: Id, name: string) returns (r: Option<Id>)
      requires Valid() && p in c.children && g.limbo == {}
      modifies this
      ensures Valid()
      ensures r.None? ==> c == old(c) && g == old(g)
      ensures r.None? ==>
        forall k :: 0 <= k < |c.children[p]| ==> c.children[p][k] in c.name && c.name[c.children[p][k]] != name
      ensures r.Some? ==> r.value in old(c.children[p]) && r.value in old(c.name) && old(c.name[r.value]) == name
      ensures r.Some? ==> r.value in old(c.ref) && c == Got(old(c), r.value) && g == GotLedger(old(g), r.value)
      ensures c.lruSize <= old(c.lruSize)
    {
      hide Ok;
      ChildFacts(c, g, p);
      var k := 0;
      while k < |c.children[p]|
        invariant 0 <= k <= |c.children[p]| && Valid() && c == old(c) && g == old(g)
        invariant forall j :: 0 <= j < k ==> c.children[p][j] in c.name && c.name[c.children[p][j]] != name
      {
        var child := c.children[p][k];
        if c.name[child] == name {
          Get(child);
          return Some(child);
        }
        k := k + 1;
      }
      return None;
    }

    /** Register an entry after a search under the same lock found no other of its name. */
    method RegisterNew(p: Id, d: Id)
      requires Valid() && p in g.handles && d in g.handles && p != d && d !in c.parent && d != c.root && d != c.unlinked
      requires NamesUnique(c) && p in c.children && d in c.name
      requires forall k ::
        0 <= k < |c.children[p]| ==> c.children[p][k] in c.name && c.name[c.children[p][k]] != c.name[d]
      modifies this
      ensures Valid() && NamesUnique(c) && g == old(g) && c.lruSize <= old(c.lruSize)
      ensures p in old(c.ref) && c == Attached(Got(old(c), p), p, d)
      ensures forall e ::
        e in old(c.parent) && old(c.parent[e]) == p ==> e in old(c.name) && old(c.name[e]) != old(c.name[d])
    {
      hide Ok, NamesUnique;
      NoChildNamed(c, g, p, c.name[d]);
      Register(p, d);
      UniqueAttach(old(c), c, p, d);
    }

    /** kref_put and dentry_free of an entry that never was in the tree. */
    method Discard(d: Id)
      requires Valid() && Puttable(d) && d in c.ref && c.ref[d] == 1 && d !in c.parent
      modifies this
      ensures Valid() && c == Freed(Dropped(old(c), d), d)
      ensures g.handles == old(g.handles) - multiset{d} && g.limbo == old(g.limbo) && g.onLru == old(g.onLru)
      ensures g.freed == old(g.freed) + [d]
    {
      hide Ok, Evolves;
      DropOk(c, g, d);
      c := Dropped(c, d);
      g := DroppedLedger(g, d, true);
      Free(d);
      assert g.limbo == old(g.limbo);
    }

    /** The locked half of dentry_cache_add: use the entry already there, else register the new one. */
    method AddLocked(p: Id, new_: Id) returns (d: Id)
      requires Quiet() && NamesUnique(c) && p in g.handles && p != c.unlinked && p != new_
      requires Puttable(new_) && new_ in c.ref && c.ref[new_] == 1 && new_ !in c.parent && new_ != c.root
      requires new_ != c.unlinked
      modifies this
      ensures Quiet() && NamesUnique(c) && g.handles == old(g.handles) - multiset{new_} + multiset{d}
      ensures d in c.parent && c.parent[d] == p && d in c.name && c.name[d] == old(c.name)[new_]
      ensures d == new_ <==>
        forall e :: e in old(c.parent) && old(c.parent[e]) == p ==>
          e in old(c.name) && old(c.name[e]) != old(c.name[new_])
      ensures d == new_ ==> c.name == old(c.name) && c.ip == old(c.ip)
      ensures d != new_ ==> c.name == old(c.name) - {new_} && c.ip == old(c.ip) - {new_} && d in old(c.parent)
    {
      hide Ok, Evolves, NamesUnique;
      OkFacts(c, g);
      var tmp := Lookup(p, c.name[new_]);
      if tmp.Some? {
        d := tmp.value;
        LinkFacts(old(c), old(g), p, d);
        Discard(new_);
        UniqueSame(old(c), c);
        assert g.handles == old(g.handles) - multiset{new_} + multiset{d};
      } else {
        d := new_;
        RegisterNew(p, d);
        assert g.handles == old(g.handles) - multiset{new_} + multiset{d};
      }
    }

    /** dentry_cache_add: an entry of that name below p, the one already there if any. */
    method Add(p: Id, name: string, ip: Option<Inode>) returns (d: Id)
      requires Quiet() && p in g.handles && p != c.unlinked && NamesUnique(c)
      modifies this
      ensures Quiet() && NamesUnique(c) && g.handles == old(g.handles) + multiset{d}
      ensures d in c.parent && c.parent[d] == p && d in c.name && c.name[d] == name
      ensures d !in old(c.ref) <==>
        forall e :: e in old(c.parent) && old(c.parent[e]) == p ==> e in old(c.name) && old(c.name[e]) != name
      ensures d !in old(c.ref) ==> c.ip == old(c.ip)[d := ip]
    {
      hide Ok, Evolves, NamesUnique;
      OkFacts(c, g);
      var newDentry := AllocOrphan(name, ip);
      UniqueSame(old(c), c);
      d := AddLocked(p, newDentry);
      assert g.handles == old(g.handles) + multiset{d};
    }

    /** dentry_cache_set_max_lru */
    method SetMaxLru(max: nat)
      requires Quiet()
      modifies this
      ensures Quiet() && c.maxLru == max && c.lruSize == Min(old(c.lruSize), max)
      ensures g.handles == old(g.handles) && Evolves(old(c).(maxLru := max), old(g), c, g)
    {
      MaxOk(c, g, max);
      hide Ok, Evolves;
      c := c.(maxLru := max);
      ghost var c1, g1 := c, g;
      DrainLru(max);
      EvolvesFacts(c1, g1, c, g);
    }

    /** dentry_cache_clear_lru */
    method ClearLru()
      requires Quiet()
      modifies this
      ensures Quiet() && c.lruSize == 0 && g.handles == old(g.handles) && Evolves(old(c), old(g), c, g)
    {
      hide Ok, Evolves;
      DrainLru(0);
      EvolvesFacts(old(c), old(g), c, g);
    }
  }

  // ----- what the invariant means between calls -----

  /** Every count is handles plus children; a count of 0 is a leaf; the LRU list is exactly the idle linked entries. */
  lemma QuietMeans(c: Dcache, g: Ledger, d: Id)
    requires Ok(c, g) && g.limbo == {} && d in c.ref
    ensures d in c.children && c.ref[d] == g.handles[d] + |c.children[d]|
    ensures c.ref[d] == 0 ==> c.children[d] == [] && forall e :: e in c.parent ==> c.parent[e] != d
    ensures d in c.lru <==> c.ref[d] == 0 && d in c.parent && c.parent[d] != c.unlinked
    ensures d in c.parent ==> c.parent[d] in c.ref && d in c.children[c.parent[d]]
    ensures d !in g.freed
  {
    if c.ref[d] == 0 {
      CountZeroIsLeaf(c.ref, c.parent, c.children, g.handles, d);
      assert d in g.onLru;
    }
    assert d in c.lru <==> d in g.onLru;
  }

  lemma HeldIsOffLru(c: Dcache, g: Ledger, d: Id)
    requires Ok(c, g) && d in g.handles
    ensures d in c.ref && c.ref[d] > 0 && d !in g.onLru && d !in g.limbo && d !in c.lru
  {
    assert d in c.lru <==> d in g.onLru;
  }

  /** A parent that is also held by a handle survives the loss of a child. */
  lemma HeldTwice(c: Dcache, g: Ledger, d: Id)
    requires Ok(c, g) && d in c.parent && c.parent[d] in g.handles
    ensures c.parent[d] in c.ref && c.ref[c.parent[d]] >= 2
  {
    assert d in c.children[c.parent[d]];
  }

  lemma ChildFacts(c: Dcache, g: Ledger, p: Id)
    requires Ok(c, g) && p in c.children
    ensures p in c.ref && forall k :: 0 <= k < |c.children[p]| ==>
      c.children[p][k] in c.ref && c.children[p][k] in c.name
  {
    forall k | 0 <= k < |c.children[p]|
      ensures c.children[p][k] in c.ref
    {
      assert c.children[p][k] in c.children[p];
    }
  }

  lemma LinkFacts(c: Dcache, g: Ledger, p: Id, d: Id)
    requires Ok(c, g) && p in c.children && d in c.children[p]
    ensures d in c.parent && c.parent[d] == p && d in c.ref && d in c.name
  {
  }

  lemma NoChildNamed(c: Dcache, g: Ledger, p: Id, name: string)
    requires Ok(c, g) && p in c.children
    requires forall k :: 0 <= k < |c.children[p]| ==> c.children[p][k] in c.name && c.name[c.children[p][k]] != name
    ensures forall e :: e in c.parent && c.parent[e] == p ==> e in c.name && c.name[e] != name
  {
    forall e | e in c.parent && c.parent[e] == p
      ensures e in c.name && c.name[e] != name
    {
      assert e in c.children[p];
    }
  }

  lemma UniqueSame(c: Dcache, c': Dcache)
    requires NamesUnique(c) && c'.parent == c.parent && c'.unlinked == c.unlinked
    requires forall d :: d in c.parent ==> d in c.name && d in c'.name && c'.name[d] == c.name[d]
    ensures NamesUnique(c')
  {
  }

  lemma UniqueAttach(c: Dcache, c': Dcache, p: Id, d: Id)
    requires NamesUnique(c) && c'.parent == c.parent[d := p] && c'.unlinked == c.unlinked && c'.name == c.name
    requires d in c.name
    requires forall e :: e in c.parent && c.parent[e] == p ==> e in c.name && c.name[e] != c.name[d]
    ensures NamesUnique(c')
  {
  }

  /** Eviction never makes two names clash. */
  lemma UniqueShrinks(c: Dcache, g: Ledger, c': Dcache, g': Ledger)
    requires NamesUnique(c) && Evolves(c, g, c', g') && Ok(c', g')
    ensures NamesUnique(c')
  {
  }

  lemma MaxOk(c: Dcache, g: Ledger, max: nat)
    requires Ok(c, g)
    ensures Ok(c.(maxLru := max), g)
  {
  }
}
