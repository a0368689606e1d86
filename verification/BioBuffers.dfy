/** bio.c in its own form: the cache object, its scanning loops, and the age of unused buffers. */
module BioBuffers {
  import opened Common
  import opened BioCache

  /** When a buffer was last released; 0 for one that never was. */
  function Age(stamp: map<Id, nat>, b: Id): nat {
    if b in stamp then stamp[b] else 0
  }

  ghost predicate ByAge(q: seq<Id>, stamp: map<Id, nat>) {
    forall i, j :: 0 <= i < j < |q| ==> Age(stamp, q[i]) <= Age(stamp, q[j])
  }

  ghost predicate AgedAt(c: Bcache, stamp: map<Id, nat>, now: nat) {
    ByAge(Queue(c), stamp) && forall b :: b in stamp ==> stamp[b] <= now && b < c.nextId
  }

  lemma {:induction false} ByAgeWithout(q: seq<Id>, stamp: map<Id, nat>, x: Id)
    requires ByAge(q, stamp)
    ensures ByAge(Without(q, x), stamp)
  {
    if q != [] {
      ByAgeWithout(q[1..], stamp, x);
      var r := Without(q[1..], x);
      forall i | 0 <= i < |r| ensures Age(stamp, q[0]) <= Age(stamp, r[i]) {
        assert r[i] in q[1..];
        var k :| 0 <= k < |q[1..]| && q[1..][k] == r[i];
        assert q[k + 1] == r[i];
      }
    }
  }

  lemma ByAgeAppend(q: seq<Id>, stamp: map<Id, nat>, b: Id, now: nat)
    requires ByAge(q, stamp) && b !in q && forall a :: a in stamp ==> stamp[a] <= now
    ensures ByAge(q + [b], stamp[b := now + 1])
  {
    var q', s' := q + [b], stamp[b := now + 1];
    assert forall i :: 0 <= i < |q| ==> q'[i] == q[i] && q[i] in q && Age(s', q'[i]) == Age(stamp, q[i]) <= now;
  }

  lemma ByAgeNew(new_: seq<Id>, q: seq<Id>, stamp: map<Id, nat>)
    requires ByAge(q, stamp) && forall b :: b in new_ ==> b !in stamp
    ensures ByAge(new_ + q, stamp)
  {
    forall i, j | 0 <= i < j < |new_ + q| ensures Age(stamp, (new_ + q)[i]) <= Age(stamp, (new_ + q)[j]) {
      if i < |new_| {
        assert new_[i] in new_;
      } else {
        assert (new_ + q)[i] == q[i - |new_|] && (new_ + q)[j] == q[j - |new_|];
      }
    }
  }

  class BufferCache {
    var c: Bcache
    ghost var stamp: map<Id, nat>
    ghost var now: nat

    /** Between two holds of the cache lock. */
    ghost predicate Valid()
      reads this
    {
      Ok(c) && Aged()
    }

    /** Unused buffers are listed by age. */
    ghost predicate Aged()
      reads this
    {
      AgedAt(c, stamp, now)
    }

    /** bio_init */
    constructor ()
      ensures Valid() && c.num == 16 && c.minBuffers == 16 && c.maxFree == 16 && c.free == 16
      ensures forall b :: b in c.ref ==> b in c.key && c.key[b] == NO_BLOCK && c.ref[b] == 0
    {
      c := Bcache([], map[], map[], 0, 0, 0, 16, 0);
      stamp, now := map[], 0;
      new;
      InitialSize(c, 16);
      var r := SetMinBuffers(16);
    }

    /** bio_get_from_cache up to its sleep_lock */
    method GetFromCache(k: Key) returns (b: Id)
      requires Valid()
      modifies this
      ensures Valid() && c == Acquired(old(c), k) && b == Chosen(old(c), k) && stamp == old(stamp)
      ensures b in old(c.ref) && Find(old(c.list), old(c.key), k).None? ==>
        old(c.ref[b]) == 0 && forall a :: a in old(c.ref) && old(c.ref[a]) == 0 ==> Age(stamp, b) <= Age(stamp, a)
      ensures b !in old(c.ref) ==> forall a :: a in old(c.ref) ==> old(c.ref[a]) > 0
    {
      hide Ok, AgedAt, Acquired, Chosen;
      AcquireOk(c, k);
      AcquireAged(c, stamp, now, k);
      var freeBuffer, buffer := None, None;
      var i := 0;
      ScanStart(c, k);
      while i < |c.list| && buffer.None?
        invariant i <= |c.list| && c == old(c) && stamp == old(stamp) && now == old(now)
        invariant buffer.None? ==> Scanned(c, k, i, freeBuffer)
        invariant buffer.Some? ==> Find(c.list, c.key, k) == buffer
        decreases |c.list| - i, buffer.None?
      {
        var b := c.list[i];
        ScanStep(c, k, i, freeBuffer);
        if c.key[b] == k {
          buffer := Some(b);
        } else {
          if freeBuffer.None? && c.ref[b] == 0 {
            freeBuffer := Some(b);
          }
          i := i + 1;
        }
      }
      b := Take(k, buffer, freeBuffer);
    }

    /** The three outcomes of the search. */
    method Take(k: Key, buffer: Option<Id>, freeBuffer: Option<Id>) returns (b: Id)
      requires Ok(c)
      requires buffer.Some? ==> Find(c.list, c.key, k) == buffer
      requires buffer.None? ==> Scanned(c, k, |c.list|, freeBuffer)
      modifies this`c
      ensures c == Acquired(old(c), k) && b == Chosen(old(c), k)
    {
      hide Ok, Scanned, Unused, Find;
      OkBasic(c);
      hide Basic;
      if buffer.Some? {
        b := buffer.value;
        HitOk(c, b);
        if c.ref[b] == 0 {
          c := c.(free := c.free - 1);
        }
        c := c.(ref := c.ref[b := c.ref[b] + 1]);
      } else {
        ScanEnd(c, k, freeBuffer);
        if freeBuffer.None? {
          b := c.nextId;
          c := Grown(c, k, 1);
        } else {
          b := freeBuffer.value;
          RecycleOk(c, k);
          c := c.(key := c.key[b := k], ref := c.ref[b := 1]);
          c := c.(free := c.free - 1);
        }
      }
    }

    /** bio_release behind its sleep_unlock, with bio_might_free */
    method Release(b: Id)
      requires Valid() && b in c.ref && c.ref[b] > 0
      modifies this
      ensures Valid() && old(c.num) > 0 && c == Released(old(c), b)
      ensures stamp == if old(c.ref[b]) == 1 then old(stamp)[b := old(now) + 1] else old(stamp)
    {
      hide Ok, AgedAt;
      ReleaseOk(c, b);
      ReleaseAged(c, stamp, now, b);
      if c.ref[b] == 1 {
        if TooMany(c) {
          c := Removed(c, b);
        } else {
          c := c.(list := Without(c.list, b) + [b], free := c.free + 1);
          c := c.(ref := c.ref[b := 0]);
        }
        stamp, now := stamp[b := now + 1], now + 1;
      } else {
        c := c.(ref := c.ref[b := c.ref[b] - 1]);
      }
    }

    /** bio_get, by a holder of the buffer */
    method Get(b: Id)
      requires Valid() && b in c.ref && c.ref[b] > 0
      modifies this`c
      ensures Valid() && c == Counter(old(c), b, old(c.ref[b]) + 1)
    {
      CounterOk(c, b, c.ref[b] + 1);
      c := c.(ref := c.ref[b := c.ref[b] + 1]);
    }

    /** bio_put, by a holder who keeps another reference */
    method Put(b: Id)
      requires Valid() && b in c.ref && c.ref[b] > 1
      modifies this`c
      ensures Valid() && c == Counter(old(c), b, old(c.ref[b]) - 1)
    {
      CounterOk(c, b, c.ref[b] - 1);
      c := c.(ref := c.ref[b := c.ref[b] - 1]);
    }

    /** bio_cache_free_extra_buffers: afterwards there are not too many, and the oldest went first. */
    method FreeExtraBuffers()
      requires Basic(c) && c.num >= c.minBuffers && Aged()
      modifies this`c
      ensures Valid() && c == Trimmed(old(c)) && !TooMany(c)
    {
      hide Ok, AgedAt, Basic, Trimmed, Unused;
      ghost var n := TrimOk(c);
      TrimAged(c, stamp, now);
      var order := c.list;
      ghost var done: seq<Id> := [];
      var i := 0;
      assert order[0..] == order;
      while i < |order|
        invariant i <= |order| && Basic(c) && c.list == done + order[i..]
        invariant TooMany(c) ==> Unused(done, c.ref) == []
        invariant Trimmed(c) == Trimmed(old(c))
      {
        assert order[i..] == [order[i]] + order[i + 1..];
        done := TrimOne(order[i], done, order[i + 1..]);
        i := i + 1;
      }
      assert order[i..] == [];
      TrimEnd(c, done);
    }

    /** The body of that loop. */
    method TrimOne(b: Id, ghost done: seq<Id>, ghost rest: seq<Id>) returns (ghost done': seq<Id>)
      requires Basic(c) && c.list == done + ([b] + rest) && (TooMany(c) ==> Unused(done, c.ref) == [])
      modifies this`c
      ensures Basic(c) && c.list == done' + rest && (TooMany(c) ==> Unused(done', c.ref) == [])
      ensures Trimmed(c) == Trimmed(old(c))
    {
      hide Basic, Trimmed, Unused, Without;
      assert done + ([b] + rest) == done + [b] + rest;
      TrimStep(c, done, b, rest);
      done' := done + [b];
      if c.ref[b] == 0 && TooMany(c) {
        c := c.(free := c.free - 1);
        c := Removed(c, b);
        assert c == DropUnused(old(c), b);
        done' := done;
      }
    }

    /** bio_cache_set_min_buffers */
    method SetMinBuffers(min: int) returns (r: Result)
      requires Basic(c) && Aged()
      requires min >= 3 || Bounded(c)
      modifies this`c
      ensures r == (if min < 3 then EINVAL else Success) && Valid()
      ensures c == if min < 3 then old(c) else MinSet(old(c), min)
    {
      if min < 3 {
        return EINVAL;
      }
      hide Ok, AgedAt, Basic, Trimmed, Unused;
      c := c.(minBuffers := min);
      SizesMatter(old(c), c, stamp, now);
      AddPlaceholders(min);
      FreeExtraBuffers();
      return Success;
    }

    /** The allocating loop of that setter. */
    method AddPlaceholders(min: nat)
      requires Basic(c) && Aged()
      modifies this`c
      ensures Basic(c) && c == WithPlaceholders(old(c), min) && Aged() && c.num >= min
      ensures c.minBuffers == old(c.minBuffers)
    {
      hide Ok, AgedAt, Basic;
      PlaceholdersAged(c, stamp, now, min);
      var i := c.num;
      while i < min
        invariant Basic(c) && WithPlaceholders(c, min) == WithPlaceholders(old(c), min) && i == c.num
      {
        GrowOk(c, NO_BLOCK, 0);
        var b := c.nextId;
        ghost var grown := Grown(c, NO_BLOCK, 0);
        c := Grown(c, NO_BLOCK, 1);
        c := c.(ref := c.ref[b := 0], free := c.free + 1);
        assert c.ref == grown.ref;
        i := i + 1;
      }
    }

    /** bio_cache_set_max_free_buffers */
    method SetMaxFreeBuffers(max: int) returns (r: Result)
      requires Valid()
      modifies this`c
      ensures r == (if max < 0 then EINVAL else Success) && Valid()
      ensures c == if max < 0 then old(c) else MaxFreeSet(old(c), max)
    {
      if max < 0 {
        return EINVAL;
      }
      c := c.(maxFree := max);
      FreeExtraBuffers();
      return Success;
    }
  }

  // ----- the search -----

  /** What the search knows after i buffers without a hit. */
  ghost predicate Scanned(c: Bcache, k: Key, i: nat, freeBuffer: Option<Id>) {
    && i <= |c.list|
    && Find(c.list, c.key, k) == Find(c.list[i..], c.key, k)
    && (freeBuffer.None? ==> Unused(c.list, c.ref) == Unused(c.list[i..], c.ref))
    && (freeBuffer.Some? ==> Unused(c.list, c.ref) != [] && Unused(c.list, c.ref)[0] == freeBuffer.value)
  }

  lemma ScanStart(c: Bcache, k: Key)
    ensures Scanned(c, k, 0, None)
  {
    assert c.list[0..] == c.list;
  }

  lemma ScanStep(c: Bcache, k: Key, i: nat, freeBuffer: Option<Id>)
    requires Ok(c) && i < |c.list| && Scanned(c, k, i, freeBuffer)
    ensures c.list[i] in c.key && c.list[i] in c.ref
    ensures c.key[c.list[i]] == k ==> Find(c.list, c.key, k) == Some(c.list[i])
    ensures c.key[c.list[i]] != k ==>
      Scanned(c, k, i + 1, if freeBuffer.None? && c.ref[c.list[i]] == 0 then Some(c.list[i]) else freeBuffer)
  {
    assert c.list[i] in c.list;
    assert c.list[i..][1..] == c.list[i + 1..];
  }

  lemma ScanEnd(c: Bcache, k: Key, freeBuffer: Option<Id>)
    requires Scanned(c, k, |c.list|, freeBuffer)
    ensures Find(c.list, c.key, k).None?
    ensures freeBuffer.None? <==> Queue(c) == []
    ensures freeBuffer.Some? ==> freeBuffer.value == Queue(c)[0]
  {
    assert c.list[|c.list|..] == [];
  }

  /** Recycling takes an unused buffer no younger than any other; only without one does the cache grow. */
  lemma OldestFirst(c: Bcache, stamp: map<Id, nat>, k: Key)
    requires Ok(c) && ByAge(Queue(c), stamp)
    ensures var b := Chosen(c, k);
      && (b in c.ref && Find(c.list, c.key, k).None? ==>
          c.ref[b] == 0 && forall a :: a in c.ref && c.ref[a] == 0 ==> Age(stamp, b) <= Age(stamp, a))
      && (b !in c.ref ==> forall a :: a in c.ref ==> c.ref[a] > 0)
  {
    var b, q := Chosen(c, k), Queue(c);
    if q != [] {
      assert q[0] in q;
      forall a | a in c.ref && c.ref[a] == 0 ensures Age(stamp, q[0]) <= Age(stamp, a) {
        assert a in q;
        var i :| 0 <= i < |q| && q[i] == a;
      }
    }
  }

  lemma {:induction false} AllUnused(list: seq<Id>, ref: map<Id, nat>)
    requires forall b :: b in list ==> b in ref && ref[b] == 0
    ensures |Unused(list, ref)| == |list|
  {
    if list != [] {
      AllUnused(list[1..], ref);
    }
  }

  /** What the setter makes of an empty cache. */
  lemma InitialSize(c: Bcache, min: nat)
    requires c.list == [] && c.key == map[] && c.ref == map[] && c.num == c.free == c.minBuffers == 0
    ensures Basic(c) && AgedAt(c, map[], 0)
    ensures var w := MinSet(c, min);
      && w.num == w.free == w.minBuffers == min && w.maxFree == c.maxFree
      && forall b :: b in w.ref ==> b in w.key && w.key[b] == NO_BLOCK && w.ref[b] == 0
  {
    var start := c.(minBuffers := min);
    assert Basic(start);
    var new_ := PlaceholdersOk(start, min);
    var w := WithPlaceholders(start, min);
    assert !TooMany(w);
    AllUnused(w.list, w.ref);
  }

  // ----- ages -----

  lemma AcquireAged(c: Bcache, stamp: map<Id, nat>, now: nat, k: Key)
    requires Ok(c) && AgedAt(c, stamp, now)
    ensures AgedAt(Acquired(c, k), stamp, now)
    ensures var b := Chosen(c, k);
      && (b in c.ref && Find(c.list, c.key, k).None? ==>
          c.ref[b] == 0 && forall a :: a in c.ref && c.ref[a] == 0 ==> Age(stamp, b) <= Age(stamp, a))
      && (b !in c.ref ==> forall a :: a in c.ref ==> c.ref[a] > 0)
  {
    AcquireQueue(c, k);
    ByAgeWithout(Queue(c), stamp, Chosen(c, k));
    OldestFirst(c, stamp, k);
  }

  lemma ReleaseAged(c: Bcache, stamp: map<Id, nat>, now: nat, b: Id)
    requires Ok(c) && b in c.ref && c.ref[b] > 0 && c.num > 0 && AgedAt(c, stamp, now)
    ensures if c.ref[b] == 1 then AgedAt(Released(c, b), stamp[b := now + 1], now + 1)
            else AgedAt(Released(c, b), stamp, now)
  {
    hide Unused, Without;
    ReleaseQueue(c, b);
    var q := Queue(c);
    assert b !in q;
    ByAgeAppend(q, stamp, b, now);
    assert forall i :: 0 <= i < |q| ==> (q + [b])[i] == q[i];
    assert ByAge(q, stamp[b := now + 1]);
  }

  lemma {:induction false} TrimAged(c: Bcache, stamp: map<Id, nat>, now: nat)
    requires Basic(c) && AgedAt(c, stamp, now)
    ensures AgedAt(Trimmed(c), stamp, now)
    decreases c.num
  {
    if TooMany(c) && Queue(c) != [] {
      DropFirst(c);
      TrimAged(DropUnused(c, Queue(c)[0]), stamp, now);
    }
  }

  lemma PlaceholdersAged(c: Bcache, stamp: map<Id, nat>, now: nat, min: nat)
    requires Basic(c) && AgedAt(c, stamp, now)
    ensures AgedAt(WithPlaceholders(c, min), stamp, now)
    ensures WithPlaceholders(c, min).num >= min && WithPlaceholders(c, min).minBuffers == c.minBuffers
  {
    var new_ := PlaceholdersOk(c, min);
    ByAgeNew(new_, Queue(c), stamp);
  }

  // ----- the trimming loop -----

  lemma SizesMatter(c: Bcache, c': Bcache, stamp: map<Id, nat>, now: nat)
    requires Basic(c) && c' == c.(minBuffers := c'.minBuffers, maxFree := c'.maxFree) && AgedAt(c, stamp, now)
    ensures Basic(c') && Queue(c') == Queue(c) && AgedAt(c', stamp, now)
  {
  }

  /** One buffer of the scan: removing it is the next step of Trimmed, or it stays. */
  lemma TrimStep(c: Bcache, done: seq<Id>, b: Id, rest: seq<Id>)
    requires Basic(c) && c.list == done + [b] + rest && (TooMany(c) ==> Unused(done, c.ref) == [])
    ensures b in c.ref
    ensures c.ref[b] == 0 && TooMany(c) ==>
      c.free > 0 && c.num > 0 && Basic(DropUnused(c, b)) && Trimmed(DropUnused(c, b)) == Trimmed(c) &&
      DropUnused(c, b).list == done + rest && Unused(done, DropUnused(c, b).ref) == []
    ensures !(c.ref[b] == 0 && TooMany(c)) && TooMany(c) ==> Unused(done + [b], c.ref) == []
  {
    assert b == c.list[|done|] && b in c.list;
    UnusedSplit(done, [b], c.ref);
    assert [b][1..] == [];
    if c.ref[b] == 0 && TooMany(c) {
      UnusedSplit(done + [b], rest, c.ref);
      assert Queue(c)[0] == b;
      DropFirst(c);
      WithoutMiddle(done, b, rest);
      UnusedSame(done, c.ref, c.ref - {b});
    }
  }

  lemma {:induction false} WithoutMiddle(a: seq<Id>, b: Id, rest: seq<Id>)
    requires NoDup(a + [b] + rest)
    ensures Without(a + [b] + rest, b) == a + rest && b !in a
  {
    var l := a + [b] + rest;
    if a == [] {
      assert l == [b] + rest;
      WithoutCons(b, rest, b);
      assert forall i :: 0 <= i < |rest| ==> l[i + 1] == rest[i] && l[0] != l[i + 1];
      assert a + rest == rest;
    } else {
      assert l[1..] == a[1..] + [b] + rest;
      assert l[0] == a[0] && l[|a|] == b;
      WithoutMiddle(a[1..], b, rest);
      assert [a[0]] + (a[1..] + rest) == a + rest;
    }
  }

  lemma TrimEnd(c: Bcache, done: seq<Id>)
    requires Basic(c) && c.list == done + [] && (TooMany(c) ==> Unused(done, c.ref) == [])
    ensures Trimmed(c) == c
  {
    assert done + [] == done;
    UnusedSplit(done, [], c.ref);
  }
}
