/**
 The block buffer cache (bio.c, buf.c): one list of buffers, a reference count per buffer,
 and two counters.  The list's unused buffers, read from the front, are a queue: the
 cache recycles its first element and a release appends to it.
*/
module BioCache {
  import opened Common

  type Id = nat
  datatype Key = Key(dev: nat, blockno: nat)
  datatype Result = Success | EINVAL

  /** What placeholder buffers are for: device 0 is no device. */
  const NO_BLOCK := Key(0, 0)

  /** struct bio_cache with the fields of its buffers that the cache itself uses. */
  datatype Bcache = Bcache(list: seq<Id>, key: map<Id, Key>, ref: map<Id, nat>, num: nat, free: nat,
                           minBuffers: nat, maxFree: nat, nextId: Id)

  /** The unused buffers in list order. */
  function Unused(list: seq<Id>, ref: map<Id, nat>): (r: seq<Id>)
    ensures forall b :: b in r <==> b in list && b in ref && ref[b] == 0
    ensures |r| <= |list|
  {
    if list == [] then []
    else if list[0] in ref && ref[list[0]] == 0 then [list[0]] + Unused(list[1..], ref)
    else Unused(list[1..], ref)
  }

  // ----- the invariant -----

  ghost predicate Shape(list: seq<Id>, key: map<Id, Key>, ref: map<Id, nat>, nextId: Id) {
    && NoDup(list) && ref.Keys == key.Keys
    && (forall b :: b in list <==> b in ref)
    && (forall b :: b in ref ==> b < nextId)
  }

  /** No two buffers for one block, placeholders aside. */
  ghost predicate KeysUnique(key: map<Id, Key>) {
    forall a, b {:trigger key[a], key[b]} :: a in key && b in key && a != b && key[a] == key[b] ==> key[a] == NO_BLOCK
  }

  ghost predicate Counted(c: Bcache) {
    c.num == |c.list| && c.free == |Unused(c.list, c.ref)|
  }

  ghost predicate Bounded(c: Bcache) {
    c.num >= c.minBuffers && (c.num == c.minBuffers || c.free <= c.maxFree + 1)
  }

  ghost predicate Ok(c: Bcache) {
    Shape(c.list, c.key, c.ref, c.nextId) && KeysUnique(c.key) && Counted(c) && Bounded(c)
  }

  predicate TooMany(c: Bcache) {
    c.num > c.minBuffers && c.free > c.maxFree
  }

  // ----- operations as functions -----

  /** The first buffer of the list for that block. */
  function Find(list: seq<Id>, key: map<Id, Key>, k: Key): (r: Option<Id>)
    ensures r.Some? ==> r.value in list && r.value in key && key[r.value] == k
    ensures r.None? ==> forall b :: b in list && b in key ==> key[b] != k
  {
    if list == [] then None
    else if list[0] in key && key[list[0]] == k then Some(list[0])
    else Find(list[1..], key, k)
  }

  function Hit(c: Bcache, b: Id): Bcache
    requires b in c.ref && (c.ref[b] == 0 ==> c.free > 0)
  {
    c.(ref := c.ref[b := c.ref[b] + 1], free := if c.ref[b] == 0 then c.free - 1 else c.free)
  }

  function Recycled(c: Bcache, b: Id, k: Key): Bcache
    requires c.free > 0
  {
    c.(key := c.key[b := k], ref := c.ref[b := 1], free := c.free - 1)
  }

  /** A new buffer at the head of the list with that count. */
  function Grown(c: Bcache, k: Key, count: nat): Bcache {
    c.(list := [c.nextId] + c.list, key := c.key[c.nextId := k], ref := c.ref[c.nextId := count],
       num := c.num + 1, nextId := c.nextId + 1, free := if count == 0 then c.free + 1 else c.free)
  }

  function Removed(c: Bcache, b: Id): Bcache
    requires c.num > 0
  {
    c.(list := Without(c.list, b), key := c.key - {b}, ref := c.ref - {b}, num := c.num - 1)
  }

  /** bio_get_from_cache up to the sleep lock: which buffer, and what becomes of the cache. */
  function Chosen(c: Bcache, k: Key): Id {
    var hit := Find(c.list, c.key, k);
    var unused := Unused(c.list, c.ref);
    if hit.Some? then hit.value else if unused != [] then unused[0] else c.nextId
  }

  function Acquired(c: Bcache, k: Key): Bcache
    requires Shape(c.list, c.key, c.ref, c.nextId) && Counted(c)
  {
    var hit := Find(c.list, c.key, k);
    var unused := Unused(c.list, c.ref);
    if hit.Some? then Hit(c, hit.value) else if unused != [] then Recycled(c, unused[0], k) else Grown(c, k, 1)
  }

  /** bio_release behind the sleep lock. */
  function Released(c: Bcache, b: Id): Bcache
    requires b in c.ref && c.ref[b] > 0 && c.num > 0
  {
    if c.ref[b] > 1 then c.(ref := c.ref[b := c.ref[b] - 1])
    else if TooMany(c) then Removed(c, b)
    else c.(ref := c.ref[b := 0], list := Without(c.list, b) + [b], free := c.free + 1)
  }

  /** bio_get, bio_put: only the count. */
  function Counter(c: Bcache, b: Id, count: nat): Bcache {
    c.(ref := c.ref[b := count])
  }

  // ----- facts about the queue of unused buffers -----

  lemma UnusedCons(b: Id, list: seq<Id>, ref: map<Id, nat>)
    ensures Unused([b] + list, ref) == if b in ref && ref[b] == 0 then [b] + Unused(list, ref) else Unused(list, ref)
  {
    assert ([b] + list)[1..] == list;
  }

  lemma {:induction false} UnusedSplit(a: seq<Id>, b: seq<Id>, ref: map<Id, nat>)
    ensures Unused(a + b, ref) == Unused(a, ref) + Unused(b, ref)
  {
    if a == [] {
      assert a + b == b;
    } else {
      UnusedSplit(a[1..], b, ref);
      TailOfConcat(a, b);
      Assoc(a[0], Unused(a[1..], ref), Unused(b, ref));
    }
  }

  lemma TailOfConcat(a: seq<Id>, b: seq<Id>)
    requires a != []
    ensures a + b != [] && (a + b)[0] == a[0] && (a + b)[1..] == a[1..] + b
  {
  }

  lemma Assoc(x: Id, u: seq<Id>, v: seq<Id>)
    ensures [x] + (u + v) == ([x] + u) + v
  {
  }

  /** A buffer outside the list, or that stays used, does not matter. */
  lemma {:induction false} UnusedSame(list: seq<Id>, ref: map<Id, nat>, ref': map<Id, nat>)
    requires forall b :: b in list ==> ((b in ref && ref[b] == 0) <==> (b in ref' && ref'[b] == 0))
    ensures Unused(list, ref') == Unused(list, ref)
  {
    if list != [] {
      UnusedSame(list[1..], ref, ref');
    }
  }

  ghost predicate SameElsewhere(ref: map<Id, nat>, ref': map<Id, nat>, list: seq<Id>, x: Id) {
    forall b :: b in list && b != x ==> ((b in ref && ref[b] == 0) <==> (b in ref' && ref'[b] == 0))
  }

  /** x leaves the queue when it is taken into use. */
  lemma {:induction false} UnusedTaken(list: seq<Id>, ref: map<Id, nat>, ref': map<Id, nat>, x: Id)
    requires SameElsewhere(ref, ref', list, x) && (x !in ref' || ref'[x] != 0)
    ensures Unused(list, ref') == Without(Unused(list, ref), x)
  {
    if list != [] {
      UnusedTaken(list[1..], ref, ref', x);
      WithoutCons(list[0], Unused(list[1..], ref), x);
    }
  }

  lemma {:induction false} UnusedRemoved(list: seq<Id>, ref: map<Id, nat>, x: Id)
    ensures Unused(Without(list, x), ref) == Without(Unused(list, ref), x)
  {
    if list != [] {
      UnusedRemoved(list[1..], ref, x);
      WithoutCons(list[0], Unused(list[1..], ref), x);
      if list[0] != x {
        assert ([list[0]] + Without(list[1..], x))[1..] == Without(list[1..], x);
      }
    }
  }

  lemma {:induction false} UnusedNoDup(list: seq<Id>, ref: map<Id, nat>)
    requires NoDup(list)
    ensures NoDup(Unused(list, ref))
  {
    if list != [] {
      UnusedNoDup(list[1..], ref);
      var r := Unused(list[1..], ref);
      assert list[0] !in list[1..];
      assert list[0] !in r;
      assert forall j :: 0 <= j < |r| ==> r[j] != list[0];
    }
  }

  // ----- each operation keeps the counters exact, and what it does to the queue -----

  ghost predicate Basic(c: Bcache) {
    Shape(c.list, c.key, c.ref, c.nextId) && KeysUnique(c.key) && Counted(c)
  }

  ghost function Queue(c: Bcache): seq<Id> {
    Unused(c.list, c.ref)
  }

  lemma UsedIsTaken(c: Bcache, b: Id, count: nat)
    requires Basic(c) && b in c.ref && count > 0
    ensures Unused(c.list, c.ref[b := count]) == Without(Queue(c), b)
    ensures |Without(Queue(c), b)| == if c.ref[b] == 0 then c.free - 1 else c.free
    ensures c.ref[b] == 0 ==> c.free > 0
  {
    UnusedTaken(c.list, c.ref, c.ref[b := count], b);
    UnusedNoDup(c.list, c.ref);
  }

  /** A buffer taken into use, or used once more. */
  lemma TakenOk(c: Bcache, c': Bcache, b: Id, n: nat)
    requires Basic(c) && b in c.ref && n > 0
    requires c' == c.(ref := c.ref[b := n], free := c'.free) && c'.free == if c.ref[b] == 0 then c.free - 1 else c.free
    ensures Basic(c') && Queue(c') == Without(Queue(c), b)
  {
    hide Unused, Without, KeysUnique, NoDup, Shape;
    UsedIsTaken(c, b, n);
    UsedShape(c, b, n);
  }

  lemma HitOk(c: Bcache, b: Id)
    requires Basic(c) && b in c.ref
    ensures (c.ref[b] == 0 ==> c.free > 0) && Basic(Hit(c, b)) && Queue(Hit(c, b)) == Without(Queue(c), b)
  {
    hide Basic, Queue, Without;
    UsedIsTaken(c, b, 1);
    TakenOk(c, Hit(c, b), b, c.ref[b] + 1);
  }

  lemma UsedShape(c: Bcache, b: Id, count: nat)
    requires Shape(c.list, c.key, c.ref, c.nextId) && b in c.ref
    ensures Shape(c.list, c.key, c.ref[b := count], c.nextId)
  {
    assert c.ref[b := count].Keys == c.ref.Keys;
  }

  lemma RecycleOk(c: Bcache, k: Key)
    requires Basic(c) && Queue(c) != [] && forall b :: b in c.list && b in c.key ==> c.key[b] != k
    ensures c.free > 0 && Basic(Recycled(c, Queue(c)[0], k)) && Queue(Recycled(c, Queue(c)[0], k)) == Queue(c)[1..]
  {
    hide Unused, Without, KeysUnique, NoDup;
    var b := Queue(c)[0];
    FirstIsUnused(c);
    WithoutFirst(c);
    GrowKeys(c.key, b, k);
    var c1 := c.(ref := c.ref[b := 1], free := c.free - 1);
    TakenOk(c, c1, b, 1);
    assert c.key[b := k].Keys == c.key.Keys;
    assert Recycled(c, b, k) == c1.(key := c.key[b := k]);
  }

  lemma FirstIsUnused(c: Bcache)
    requires Basic(c) && Queue(c) != []
    ensures Queue(c)[0] in c.ref && c.ref[Queue(c)[0]] == 0 && c.free > 0
  {
    assert Queue(c)[0] in Queue(c);
  }

  lemma WithoutFirst(c: Bcache)
    requires NoDup(c.list) && Queue(c) != []
    ensures Without(Queue(c), Queue(c)[0]) == Queue(c)[1..]
  {
    var q := Queue(c);
    UnusedNoDup(c.list, c.ref);
    assert q == [q[0]] + q[1..];
    WithoutCons(q[0], q[1..], q[0]);
    assert q[0] !in q[1..];
  }

  lemma GrowOk(c: Bcache, k: Key, count: nat)
    requires Basic(c) && (k == NO_BLOCK || forall b :: b in c.list && b in c.key ==> c.key[b] != k)
    ensures Basic(Grown(c, k, count))
    ensures Queue(Grown(c, k, count)) == if count == 0 then [c.nextId] + Queue(c) else Queue(c)
  {
    hide Unused, Without, KeysUnique, NoDup;
    var c' := Grown(c, k, count);
    assert c.nextId !in c.list;
    UnusedSame(c.list, c.ref, c'.ref);
    UnusedCons(c.nextId, c.list, c'.ref);
    assert c'.ref.Keys == c.ref.Keys + {c.nextId} && c'.key.Keys == c.key.Keys + {c.nextId};
    GrowList(c.list, c.nextId);
    GrowKeys(c.key, c.nextId, k);
  }

  lemma GrowKeys(key: map<Id, Key>, b: Id, k: Key)
    requires KeysUnique(key) && (k == NO_BLOCK || forall a :: a in key ==> key[a] != k)
    ensures KeysUnique(key[b := k])
  {
  }

  lemma GrowList(list: seq<Id>, b: Id)
    requires NoDup(list) && b !in list
    ensures NoDup([b] + list)
  {
  }

  lemma RemoveOk(c: Bcache, b: Id)
    requires Basic(c) && b in c.ref
    ensures c.num > 0
    ensures var c' := Removed(c, b);
      Shape(c'.list, c'.key, c'.ref, c'.nextId) && KeysUnique(c'.key) && c'.num == |c'.list|
    ensures Queue(Removed(c, b)) == Without(Queue(c), b)
    ensures |Without(Queue(c), b)| == if c.ref[b] == 0 then c.free - 1 else c.free
    ensures c.ref[b] == 0 ==> c.free > 0
  {
    var c' := Removed(c, b);
    UnusedTaken(c.list, c.ref, c'.ref, b);
    UnusedRemoved(c.list, c'.ref, b);
    WithoutSame(Queue(c), b);
    UsedIsTaken(c, b, 1);
  }

  lemma WithoutSame(s: seq<Id>, x: Id)
    ensures Without(Without(s, x), x) == Without(s, x)
  {
  }

  /** The last release of a buffer the cache keeps: to the end of the list and of the queue. */
  lemma KeepOk(c: Bcache, b: Id)
    requires Basic(c) && b in c.ref && c.ref[b] == 1
    ensures var c' := c.(ref := c.ref[b := 0], list := Without(c.list, b) + [b], free := c.free + 1);
      Basic(c') && Queue(c') == Queue(c) + [b]
  {
    hide Unused, Without, NoDup, Shape, KeysUnique;
    KeepShape(c, b);
    KeepQueue(c, b);
  }

  lemma KeepShape(c: Bcache, b: Id)
    requires Shape(c.list, c.key, c.ref, c.nextId) && b in c.ref
    ensures Shape(Without(c.list, b) + [b], c.key, c.ref[b := 0], c.nextId) && |Without(c.list, b) + [b]| == |c.list|
  {
    hide Without, NoDup;
    AppendList(Without(c.list, b), b);
    KeepMembers(Without(c.list, b), b);
    UsedShape(c, b, 0);
  }

  lemma KeepMembers(l: seq<Id>, b: Id)
    ensures forall x :: x in l + [b] <==> x in l || x == b
  {
  }

  lemma KeepQueue(c: Bcache, b: Id)
    requires Shape(c.list, c.key, c.ref, c.nextId) && b in c.ref && c.ref[b] == 1
    ensures Unused(Without(c.list, b) + [b], c.ref[b := 0]) == Queue(c) + [b]
  {
    var l := Without(c.list, b);
    var ref' := c.ref[b := 0];
    UnusedSame(l, c.ref, ref');
    UnusedRemoved(c.list, c.ref, b);
    assert b !in Queue(c);
    UnusedSplit(l, [b], ref');
    assert [b][1..] == [];
    assert Unused([b], ref') == [b];
  }

  lemma AppendList(list: seq<Id>, b: Id)
    requires NoDup(list) && b !in list
    ensures NoDup(list + [b])
  {
  }

  // ----- the invariant -----

  lemma OkBasic(c: Bcache)
    requires Ok(c)
    ensures Basic(c) && c.ref.Keys == c.key.Keys
  {
  }

  /** b is the buffer for block k, with one more reference; nobody's buffer changed its block. */
  ghost predicate Acquires(c: Bcache, k: Key, b: Id, c': Bcache) {
    && c.ref.Keys == c.key.Keys && c'.ref.Keys == c'.key.Keys == c.ref.Keys + {b}
    && c'.key[b] == k && c'.ref[b] == (if b in c.ref then c.ref[b] else 0) + 1
    && (forall a :: a in c.ref && a != b ==> c'.ref[a] == c.ref[a] && c'.key[a] == c.key[a])
    && (b in c.ref && c.ref[b] > 0 ==> c.key[b] == k)
    && (b in c.ref && c.key[b] == k <==> Find(c.list, c.key, k).Some?)
    && (b in c.ref && c.key[b] != k ==> forall a :: a in c.key ==> c.key[a] != k)
  }

  /** b has one reference less; only without any can it disappear. */
  ghost predicate Releases(c: Bcache, b: Id, c': Bcache) {
    && c.ref.Keys == c.key.Keys && c'.ref.Keys == c'.key.Keys && b in c.ref && c.ref[b] > 0
    && (c'.ref.Keys == c.ref.Keys || (c'.ref.Keys == c.ref.Keys - {b} && c.ref[b] == 1))
    && (b in c'.ref ==> c'.ref[b] == c.ref[b] - 1 && c'.key[b] == c.key[b])
    && (forall a :: a in c.ref && a != b ==> c'.ref[a] == c.ref[a] && c'.key[a] == c.key[a])
  }

  /** The buffer found or made is for the block asked for, and the counters stay exact. */
  lemma AcquireOk(c: Bcache, k: Key)
    requires Ok(c)
    ensures Ok(Acquired(c, k)) && Acquires(c, k, Chosen(c, k), Acquired(c, k))
  {
    hide Acquires, Unused, KeysUnique, NoDup;
    var hit := Find(c.list, c.key, k);
    ChosenFacts(c, k);
    AcquireOneOf(c, k, Chosen(c, k));
    if hit.Some? {
      HitOk(c, hit.value);
    } else if Queue(c) != [] {
      RecycleOk(c, k);
    } else {
      GrowOk(c, k, 1);
    }
  }

  lemma ChosenFacts(c: Bcache, k: Key)
    requires Ok(c)
    ensures var hit, b := Find(c.list, c.key, k), Chosen(c, k);
      && (hit.Some? ==> b == hit.value && b in c.ref && c.key[b] == k)
      && (hit.None? ==> forall a :: a in c.key ==> c.key[a] != k)
      && (hit.None? && Queue(c) != [] ==> b == Queue(c)[0] && b in c.ref && c.ref[b] == 0)
      && (hit.None? && Queue(c) == [] ==> b == c.nextId && b !in c.ref)
  {
    if Queue(c) != [] {
      assert Queue(c)[0] in Queue(c);
    }
  }

  lemma AcquireOneOf(c: Bcache, k: Key, b: Id)
    requires Shape(c.list, c.key, c.ref, c.nextId)
    ensures Find(c.list, c.key, k) == Some(b) && (c.ref[b] == 0 ==> c.free > 0) ==> Acquires(c, k, b, Hit(c, b))
    ensures Find(c.list, c.key, k) == None && b in c.ref && c.ref[b] == 0 && c.free > 0 ==>
      Acquires(c, k, b, Recycled(c, b, k))
    ensures Find(c.list, c.key, k) == None && b == c.nextId ==> Acquires(c, k, b, Grown(c, k, 1))
  {
  }

  lemma ReleaseOk(c: Bcache, b: Id)
    requires Ok(c) && b in c.ref && c.ref[b] > 0
    ensures c.num > 0 && Ok(Released(c, b)) && Releases(c, b, Released(c, b))
  {
    RemoveOk(c, b);
    if c.ref[b] > 1 {
      CounterOk(c, b, c.ref[b] - 1);
    } else if TooMany(c) {
      assert Basic(Removed(c, b));
    } else {
      KeepOk(c, b);
    }
  }

  lemma CounterOk(c: Bcache, b: Id, count: nat)
    requires Ok(c) && b in c.ref && c.ref[b] > 0 && count > 0
    ensures Ok(Counter(c, b, count)) && Queue(Counter(c, b, count)) == Queue(c)
  {
    UsedIsTaken(c, b, count);
    UnusedSame(c.list, c.ref, c.ref[b := count]);
    assert c.ref[b := count].Keys == c.ref.Keys;
  }

  /** What a release does to the queue. */
  lemma ReleaseQueue(c: Bcache, b: Id)
    requires Ok(c) && b in c.ref && c.ref[b] > 0 && c.num > 0
    ensures Queue(Released(c, b)) ==
      if c.ref[b] == 1 && (c.num == c.minBuffers || c.free <= c.maxFree) then Queue(c) + [b] else Queue(c)
    ensures b !in Released(c, b).ref <==> c.ref[b] == 1 && c.num > c.minBuffers && c.free > c.maxFree
  {
    hide Unused, KeysUnique, NoDup, Without;
    UsedNotQueued(c, b);
    RemoveOk(c, b);
    if c.ref[b] > 1 {
      CounterOk(c, b, c.ref[b] - 1);
    } else if !TooMany(c) {
      KeepOk(c, b);
    }
  }

  lemma UsedNotQueued(c: Bcache, b: Id)
    requires b in c.ref && c.ref[b] > 0
    ensures b !in Queue(c) && Without(Queue(c), b) == Queue(c)
  {
  }

  lemma AcquireQueue(c: Bcache, k: Key)
    requires Ok(c)
    ensures Queue(Acquired(c, k)) == Without(Queue(c), Chosen(c, k))
    ensures Find(c.list, c.key, k).None? && Queue(c) != [] ==>
      Chosen(c, k) == Queue(c)[0] && Queue(Acquired(c, k)) == Queue(c)[1..]
  {
    var hit := Find(c.list, c.key, k);
    if hit.Some? {
      HitOk(c, hit.value);
    } else if Queue(c) != [] {
      RecycleOk(c, k);
      WithoutFirst(c);
    } else {
      GrowOk(c, k, 1);
    }
  }

  // ----- resizing -----

  function DropUnused(c: Bcache, b: Id): Bcache
    requires c.num > 0 && c.free > 0
  {
    Removed(c, b).(free := c.free - 1)
  }

  lemma DropOk(c: Bcache, b: Id)
    requires Basic(c) && b in c.ref && c.ref[b] == 0
    ensures c.num > 0 && c.free > 0 && Basic(DropUnused(c, b)) && Queue(DropUnused(c, b)) == Without(Queue(c), b)
  {
    RemoveOk(c, b);
  }

  lemma DropFirst(c: Bcache)
    requires Basic(c) && Queue(c) != []
    ensures c.num > 0 && c.free > 0 && Queue(c)[0] in c.ref && c.ref[Queue(c)[0]] == 0
    ensures Basic(DropUnused(c, Queue(c)[0])) && Queue(DropUnused(c, Queue(c)[0])) == Queue(c)[1..]
  {
    hide Without;
    FirstIsUnused(c);
    DropOk(c, Queue(c)[0]);
    WithoutFirst(c);
  }

  /** Free unused buffers, oldest first, as long as there are too many. */
  ghost function Trimmed(c: Bcache): Bcache
    requires Basic(c)
    decreases c.num
  {
    if TooMany(c) && Queue(c) != [] then
      DropFirst(c);
      Trimmed(DropUnused(c, Queue(c)[0]))
    else c
  }

  lemma {:induction false} TrimOk(c: Bcache) returns (n: nat)
    requires Basic(c) && c.num >= c.minBuffers
    ensures var t := Trimmed(c);
      && Ok(t) && (t.num == t.minBuffers || t.free <= t.maxFree) && t.minBuffers == c.minBuffers
      && t.maxFree == c.maxFree
      && n <= |Queue(c)| && Queue(t) == Queue(c)[n..] && (n > 0 ==> t.free >= t.maxFree)
      && (forall b :: b in t.ref ==> b in c.ref && t.ref[b] == c.ref[b] && t.key[b] == c.key[b])
      && (forall b :: b in c.ref && c.ref[b] > 0 ==> b in t.ref)
    decreases c.num
  {
    if TooMany(c) && Queue(c) != [] {
      DropFirst(c);
      var m := TrimOk(DropUnused(c, Queue(c)[0]));
      n := m + 1;
      assert Queue(c)[1..][m..] == Queue(c)[n..];
    } else {
      n := 0;
    }
  }

  ghost function WithPlaceholders(c: Bcache, target: nat): (r: Bcache)
    requires Basic(c)
    ensures Basic(r)
    decreases target - c.num
  {
    if c.num >= target then c else
      GrowOk(c, NO_BLOCK, 0);
      WithPlaceholders(Grown(c, NO_BLOCK, 0), target)
  }

  /** Old buffers are as before, new ones are unused placeholders. */
  ghost predicate Extends(c: Bcache, w: Bcache) {
    && w.minBuffers == c.minBuffers && w.maxFree == c.maxFree
    && (forall b :: b in c.ref ==> b in w.ref && w.ref[b] == c.ref[b])
    && (forall b :: b in c.key ==> b in w.key && w.key[b] == c.key[b])
    && (forall b :: b in w.ref ==> b in c.ref || (w.ref[b] == 0 && b in w.key && w.key[b] == NO_BLOCK))
  }

  lemma ExtendsTrans(a: Bcache, b: Bcache, c: Bcache)
    requires Extends(a, b) && Extends(b, c) && a.ref.Keys == a.key.Keys && b.ref.Keys == b.key.Keys
    ensures Extends(a, c)
  {
  }

  lemma {:induction false} PlaceholdersOk(c: Bcache, target: nat) returns (new_: seq<Id>)
    requires Basic(c)
    ensures var w := WithPlaceholders(c, target);
      && Extends(c, w) && w.num == (if c.num >= target then c.num else target)
      && Queue(w) == new_ + Queue(c)
    ensures c.nextId <= WithPlaceholders(c, target).nextId && forall b :: b in new_ ==> b >= c.nextId
    decreases target - c.num
  {
    hide Unused, NoDup, KeysUnique, Extends, Counted;
    if c.num >= target {
      new_ := [];
      ExtendsGrown(c);
    } else {
      var c1 := Grown(c, NO_BLOCK, 0);
      GrowOk(c, NO_BLOCK, 0);
      ExtendsGrown(c);
      var rest := PlaceholdersOk(c1, target);
      ExtendsTrans(c, c1, WithPlaceholders(c1, target));
      new_ := rest + [c.nextId];
      assert rest + ([c.nextId] + Queue(c)) == new_ + Queue(c);
    }
  }

  lemma ExtendsGrown(c: Bcache)
    requires Shape(c.list, c.key, c.ref, c.nextId)
    ensures Extends(c, c) && Extends(c, Grown(c, NO_BLOCK, 0))
  {
  }

  /** bio_cache_set_min_buffers and bio_cache_set_max_free_buffers with an accepted argument. */
  ghost function MinSet(c: Bcache, min: nat): Bcache
    requires Basic(c)
  {
    Trimmed(WithPlaceholders(c.(minBuffers := min), min))
  }

  ghost function MaxFreeSet(c: Bcache, max: nat): Bcache
    requires Basic(c)
  {
    Trimmed(c.(maxFree := max))
  }
}
