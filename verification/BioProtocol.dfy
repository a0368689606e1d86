/**
 Any number of clients using the buffer cache at once: the cache, the sleep lock of each
 buffer and the disk behave, for clients that keep to the contract of bio.h, like one
 array of blocks.
*/
module BioProtocol {
  import opened Common
  import opened BioCache

  type Client = nat
  type Data = seq<bv8>

  /** Where a client is in bio_read ... bio_release. */
  datatype Pc =
    | Idle
    | Waiting(b: Id, k: Key)    // has its reference, not yet the sleep lock
    | Locked(b: Id, k: Key)     // inside bio_read
    | Holding(b: Id, k: Key)    // bio_read has returned
    | Unlocked(b: Id, k: Key)   // bio_release gave up the sleep lock, not yet the reference

  /**
   `latest` is what the block store should contain, `dirty` says which blocks have been
   changed in a buffer and not written since.
  */
  datatype State = State(c: Bcache, pcs: map<Client, Pc>, lock: map<Id, Client>, pins: multiset<Id>,
                         valid: set<Id>, data: map<Id, Data>, disk: Key -> Data, latest: Key -> Data,
                         dirty: map<Key, Id>)

  function Upd(f: Key -> Data, k: Key, v: Data): Key -> Data {
    x => if x == k then v else f(x)
  }

  predicate Uses(pc: Pc, b: Id) {
    !pc.Idle? && pc.b == b
  }

  /** The clients that own a reference to b. */
  function Users(pcs: map<Client, Pc>, b: Id): set<Client> {
    set p | p in pcs && Uses(pcs[p], b)
  }

  predicate Owns(pc: Pc) {
    pc.Locked? || pc.Holding?
  }

  // ----- the invariant -----

  /** Each count is references of clients plus pins; a client's buffer is for the block it asked for. */
  ghost predicate Referenced(c: Bcache, pcs: map<Client, Pc>, pins: multiset<Id>) {
    && (forall b :: b in c.ref ==> c.ref[b] == |Users(pcs, b)| + pins[b])
    && (forall b :: b in pins ==> b in c.ref)
    && (forall p :: p in pcs && !pcs[p].Idle? ==>
          pcs[p].b in c.ref && pcs[p].b in c.key && c.key[pcs[p].b] == pcs[p].k && pcs[p].k.dev != 0)
  }

  ghost predicate LocksHeld(pcs: map<Client, Pc>, lock: map<Id, Client>) {
    && (forall p :: p in pcs && Owns(pcs[p]) ==> pcs[p].b in lock && lock[pcs[p].b] == p)
    && (forall b :: b in lock ==> lock[b] in pcs && Owns(pcs[lock[b]]) && pcs[lock[b]].b == b)
  }

  /** A valid buffer has the latest contents of its block. */
  ghost predicate Coherent(key: map<Id, Key>, valid: set<Id>, data: map<Id, Data>, latest: Key -> Data) {
    forall b :: b in valid ==> b in key && b in data && key[b].dev != 0 && data[b] == latest(key[b])
  }

  ghost predicate HoldersValid(pcs: map<Client, Pc>, valid: set<Id>) {
    forall p :: p in pcs && pcs[p].Holding? ==> pcs[p].b in valid
  }

  /** The disk lags behind only where a changed buffer is locked by its changer or pinned. */
  ghost predicate Written(key: map<Id, Key>, disk: Key -> Data, latest: Key -> Data, dirty: map<Key, Id>) {
    && (forall k :: k !in dirty ==> disk(k) == latest(k))
    && (forall k :: k in dirty ==> dirty[k] in key && key[dirty[k]] == k)
  }

  ghost predicate DirtyKept(pcs: map<Client, Pc>, lock: map<Id, Client>, pins: multiset<Id>, valid: set<Id>,
                            dirty: map<Key, Id>) {
    && (forall k :: k in dirty ==> dirty[k] in valid)
    && (forall k :: k in dirty && dirty[k] !in pins ==>
          dirty[k] in lock && lock[dirty[k]] in pcs && pcs[lock[dirty[k]]].Holding?)
  }

  ghost predicate Inv(s: State) {
    && Ok(s.c)
    && Referenced(s.c, s.pcs, s.pins)
    && LocksHeld(s.pcs, s.lock)
    && Coherent(s.c.key, s.valid, s.data, s.latest)
    && HoldersValid(s.pcs, s.valid)
    && Written(s.c.key, s.disk, s.latest, s.dirty)
    && DirtyKept(s.pcs, s.lock, s.pins, s.valid, s.dirty)
  }

  // ----- the steps -----

  datatype Step =
    | Acquire(p: Client, k: Key)     // bio_get_from_cache under the cache lock
    | Lock(p: Client)                // its sleep_lock
    | ReadDisk(p: Client)            // bio_read of a buffer without contents
    | UseCached(p: Client)           // bio_read of a buffer with contents
    | Overwrite(p: Client, v: Data)  // a client of bio_get_from_cache sets the contents without reading them
    | Change(p: Client, v: Data)     // the client changes the contents
    | WriteDisk(p: Client)           // bio_write
    | Pin(p: Client)                 // bio_get
    | Unpin(p: Client)               // bio_put
    | Unlock(p: Client)              // bio_release: sleep_unlock
    | Drop(p: Client)                // bio_release: the rest
    | SetMin(min: nat)
    | SetMaxFree(max: nat)

  /**
   When a step can happen.  The clients' contract: a pin is given back only by a client
   that has the buffer, and the lock is given up only when the data is on disk or pinned.
  */
  ghost predicate Enabled(s: State, e: Step) {
    match e
    case Acquire(p, k) => p in s.pcs && s.pcs[p].Idle? && k.dev != 0
    case Lock(p) => p in s.pcs && s.pcs[p].Waiting? && s.pcs[p].b !in s.lock
    case ReadDisk(p) => p in s.pcs && s.pcs[p].Locked? && s.pcs[p].b !in s.valid && s.pcs[p].b in s.c.key
    case UseCached(p) => p in s.pcs && s.pcs[p].Locked? && s.pcs[p].b in s.valid
    case Overwrite(p, v) => p in s.pcs && s.pcs[p].Locked?
    case Change(p, v) => p in s.pcs && s.pcs[p].Holding?
    case WriteDisk(p) => p in s.pcs && s.pcs[p].Holding? && s.pcs[p].b in s.c.key && s.pcs[p].b in s.data
    case Pin(p) => p in s.pcs && s.pcs[p].Holding? && s.pcs[p].b in s.c.ref
    case Unpin(p) =>
      && p in s.pcs && s.pcs[p].Holding? && s.pcs[p].b in s.c.ref && s.pcs[p].b in s.pins
      && s.c.ref[s.pcs[p].b] > 0
    case Unlock(p) => p in s.pcs && s.pcs[p].Holding? && (s.pcs[p].k !in s.dirty || s.pcs[p].b in s.pins)
    case Drop(p) => p in s.pcs && s.pcs[p].Unlocked? && s.pcs[p].b in s.c.ref && s.c.ref[s.pcs[p].b] > 0 && s.c.num > 0
    case SetMin(min) => min >= 3
    case SetMaxFree(max) => true
  }

  /** Contents go with a freed buffer. */
  function Remaining(valid: set<Id>, c': Bcache): set<Id> {
    set b | b in valid && b in c'.ref
  }

  /** A buffer taken for another block loses its contents. */
  function StillValid(c: Bcache, valid: set<Id>, k: Key, b: Id): set<Id>
    requires Basic(c)
  {
    if Find(c.list, c.key, k).Some? then valid else valid - {b}
  }

  ghost function Apply(s: State, e: Step): State
    requires Enabled(s, e) && Basic(s.c)
  {
    match e
    case Acquire(p, k) =>
      var b, c' := Chosen(s.c, k), Acquired(s.c, k);
      s.(c := c', pcs := s.pcs[p := Waiting(b, k)], valid := StillValid(s.c, s.valid, k, b))
    case Lock(p) => s.(pcs := s.pcs[p := Locked(s.pcs[p].b, s.pcs[p].k)], lock := s.lock[s.pcs[p].b := p])
    case ReadDisk(p) =>
      var b := s.pcs[p].b;
      s.(pcs := s.pcs[p := Holding(b, s.pcs[p].k)], valid := s.valid + {b}, data := s.data[b := s.disk(s.c.key[b])])
    case UseCached(p) => s.(pcs := s.pcs[p := Holding(s.pcs[p].b, s.pcs[p].k)])
    case Overwrite(p, v) =>
      var b, k := s.pcs[p].b, s.pcs[p].k;
      s.(pcs := s.pcs[p := Holding(b, k)], valid := s.valid + {b}, data := s.data[b := v],
         latest := Upd(s.latest, k, v), dirty := s.dirty[k := b])
    case Change(p, v) =>
      var b, k := s.pcs[p].b, s.pcs[p].k;
      s.(data := s.data[b := v], latest := Upd(s.latest, k, v), dirty := s.dirty[k := b])
    case WriteDisk(p) =>
      var b := s.pcs[p].b;
      var k := s.c.key[b];
      s.(disk := Upd(s.disk, k, s.data[b]), dirty := s.dirty - {k})
    case Pin(p) =>
      var b := s.pcs[p].b;
      s.(c := Counter(s.c, b, s.c.ref[b] + 1), pins := s.pins + multiset{b})
    case Unpin(p) =>
      var b := s.pcs[p].b;
      s.(c := Counter(s.c, b, s.c.ref[b] - 1), pins := s.pins - multiset{b})
    case Unlock(p) => s.(pcs := s.pcs[p := Unlocked(s.pcs[p].b, s.pcs[p].k)], lock := s.lock - {s.pcs[p].b})
    case Drop(p) =>
      var c' := Released(s.c, s.pcs[p].b);
      s.(c := c', pcs := s.pcs[p := Idle], valid := Remaining(s.valid, c'))
    case SetMin(min) => s.(c := MinSet(s.c, min), valid := Remaining(s.valid, MinSet(s.c, min)))
    case SetMaxFree(max) => s.(c := MaxFreeSet(s.c, max), valid := Remaining(s.valid, MaxFreeSet(s.c, max)))
  }

  // ----- counting references -----

  lemma UsersMove(pcs: map<Client, Pc>, p: Client, pc: Pc, b: Id)
    requires p in pcs
    ensures |Users(pcs[p := pc], b)| + (if Uses(pcs[p], b) then 1 else 0) ==
            |Users(pcs, b)| + (if Uses(pc, b) then 1 else 0)
  {
    var others := Users(pcs, b) - {p};
    assert Users(pcs[p := pc], b) == if Uses(pc, b) then others + {p} else others;
    assert Users(pcs, b) == if Uses(pcs[p], b) then others + {p} else others;
  }

  /** Whoever uses or pins a buffer keeps it in the cache under its key. */
  lemma UserCounts(c: Bcache, pcs: map<Client, Pc>, pins: multiset<Id>, p: Client)
    requires Referenced(c, pcs, pins) && p in pcs && !pcs[p].Idle?
    ensures c.ref[pcs[p].b] >= 1 + pins[pcs[p].b]
  {
    assert p in Users(pcs, pcs[p].b);
  }

  /** A client that moves within its use of one buffer. */
  lemma SameUse(c: Bcache, pcs: map<Client, Pc>, pins: multiset<Id>, p: Client, pc: Pc)
    requires Referenced(c, pcs, pins) && p in pcs && !pcs[p].Idle? && !pc.Idle? && pc.b == pcs[p].b && pc.k == pcs[p].k
    ensures Referenced(c, pcs[p := pc], pins)
  {
    forall b | b in c.ref ensures c.ref[b] == |Users(pcs[p := pc], b)| + pins[b] {
      UsersMove(pcs, p, pc, b);
    }
  }

  lemma AcquireReferenced(c: Bcache, c': Bcache, pcs: map<Client, Pc>, pins: multiset<Id>, p: Client, b0: Id, k: Key)
    requires Acquires(c, k, b0, c') && Referenced(c, pcs, pins) && p in pcs && pcs[p].Idle? && k.dev != 0
    ensures Referenced(c', pcs[p := Waiting(b0, k)], pins)
  {
    hide Users;
    var pcs' := pcs[p := Waiting(b0, k)];
    NoUsers(c, pcs, pins, b0);
    forall b | b in c'.ref ensures c'.ref[b] == |Users(pcs', b)| + pins[b] {
      UsersMove(pcs, p, Waiting(b0, k), b);
    }
    AcquireKeepsKeys(c, c', pcs, pins, b0, k);
  }

  lemma NoUsers(c: Bcache, pcs: map<Client, Pc>, pins: multiset<Id>, b: Id)
    requires Referenced(c, pcs, pins)
    ensures b !in c.ref ==> |Users(pcs, b)| == 0 && pins[b] == 0
  {
    assert b !in c.ref ==> Users(pcs, b) == {};
  }

  /** Nobody's buffer is recycled: a referenced buffer keeps its block. */
  lemma AcquireKeepsKeys(c: Bcache, c': Bcache, pcs: map<Client, Pc>, pins: multiset<Id>, b0: Id, k: Key)
    requires Acquires(c, k, b0, c') && Referenced(c, pcs, pins)
    ensures forall q ::
      q in pcs && !pcs[q].Idle? ==> pcs[q].b in c'.ref && pcs[q].b in c'.key && c'.key[pcs[q].b] == pcs[q].k
  {
    forall q | q in pcs && !pcs[q].Idle?
      ensures pcs[q].b in c'.ref && pcs[q].b in c'.key && c'.key[pcs[q].b] == pcs[q].k
    {
      UserCounts(c, pcs, pins, q);
    }
  }

  lemma DropReferenced(c: Bcache, c': Bcache, pcs: map<Client, Pc>, pins: multiset<Id>, p: Client)
    requires p in pcs && !pcs[p].Idle? && Releases(c, pcs[p].b, c') && Referenced(c, pcs, pins)
    ensures Referenced(c', pcs[p := Idle], pins)
  {
    hide Users;
    UserCounts(c, pcs, pins, p);
    forall b | b in c'.ref ensures c'.ref[b] == |Users(pcs[p := Idle], b)| + pins[b] {
      UsersMove(pcs, p, Idle, b);
    }
    DropKeepsUsed(c, c', pcs, pins, p);
  }

  lemma DropKeepsUsed(c: Bcache, c': Bcache, pcs: map<Client, Pc>, pins: multiset<Id>, p: Client)
    requires p in pcs && !pcs[p].Idle? && Releases(c, pcs[p].b, c') && Referenced(c, pcs, pins)
    ensures forall q :: q in pcs && q != p && !pcs[q].Idle? ==>
      pcs[q].b in c'.ref && pcs[q].b in c'.key && c'.key[pcs[q].b] == pcs[q].k
    ensures forall b :: b in pins ==> b in c'.ref
  {
    UserCounts(c, pcs, pins, p);
    forall q | q in pcs && q != p && !pcs[q].Idle?
      ensures pcs[q].b in c'.ref && pcs[q].b in c'.key && c'.key[pcs[q].b] == pcs[q].k
    {
      if pcs[q].b == pcs[p].b {
        UsersMove(pcs, p, Idle, pcs[p].b);
        assert q in Users(pcs[p := Idle], pcs[p].b);
      }
    }
  }

  lemma PinReferenced(c: Bcache, pcs: map<Client, Pc>, pins: multiset<Id>, pins': multiset<Id>, b: Id, n: nat)
    requires Referenced(c, pcs, pins) && b in c.ref && c.ref.Keys == c.key.Keys && n == c.ref[b] - pins[b] + pins'[b]
    requires forall a :: a != b ==> pins'[a] == pins[a]
    ensures Referenced(Counter(c, b, n), pcs, pins')
  {
  }

  /** Resizing removes unused buffers and adds placeholders. */
  lemma ResizeReferenced(c: Bcache, c': Bcache, pcs: map<Client, Pc>, pins: multiset<Id>)
    requires Referenced(c, pcs, pins) && Resized(c, c')
    ensures Referenced(c', pcs, pins)
  {
    forall q | q in pcs && !pcs[q].Idle?
      ensures pcs[q].b in c'.ref && pcs[q].b in c'.key && c'.key[pcs[q].b] == pcs[q].k
    {
      UserCounts(c, pcs, pins, q);
    }
    forall b | b in c'.ref ensures c'.ref[b] == |Users(pcs, b)| + pins[b] {
      if b !in c.ref {
        assert Users(pcs, b) == {};
      }
    }
  }

  ghost predicate Resized(c: Bcache, c': Bcache) {
    && c.ref.Keys == c.key.Keys && c'.ref.Keys == c'.key.Keys
    && (forall b :: b in c'.ref ==>
          if b in c.ref then c'.ref[b] == c.ref[b] && c'.key[b] == c.key[b]
          else c'.ref[b] == 0 && c'.key[b] == NO_BLOCK)
    && (forall b :: b in c.ref && c.ref[b] > 0 ==> b in c'.ref)
  }

  lemma MinResized(c: Bcache, min: nat)
    requires Basic(c)
    ensures Ok(MinSet(c, min)) && Resized(c, MinSet(c, min))
  {
    hide Unused, NoDup, KeysUnique;
    var start := c.(minBuffers := min);
    assert Basic(start);
    var new_ := PlaceholdersOk(start, min);
    var n := TrimOk(WithPlaceholders(start, min));
  }

  lemma MaxFreeResized(c: Bcache, max: nat)
    requires Ok(c)
    ensures Ok(MaxFreeSet(c, max)) && Resized(c, MaxFreeSet(c, max))
  {
    var start := c.(maxFree := max);
    assert Basic(start);
    var n := TrimOk(start);
  }

  // ----- contents -----

  /** A changed block not yet on disk sits in a referenced buffer. */
  lemma DirtyUsed(s: State, k: Key)
    requires Inv(s) && k in s.dirty
    ensures s.dirty[k] in s.c.ref && s.c.ref[s.dirty[k]] > 0
  {
    hide Ok, Users;
    var b := s.dirty[k];
    if b !in s.pins {
      UserCounts(s.c, s.pcs, s.pins, s.lock[b]);
    }
  }

  /** What is left to show once references and locks are accounted for. */
  ghost predicate Contents(s: State) {
    && Coherent(s.c.key, s.valid, s.data, s.latest)
    && HoldersValid(s.pcs, s.valid)
    && Written(s.c.key, s.disk, s.latest, s.dirty)
    && DirtyKept(s.pcs, s.lock, s.pins, s.valid, s.dirty)
  }

  lemma HeldValid(s: State, p: Client)
    requires Inv(s) && p in s.pcs && !s.pcs[p].Idle?
    ensures s.pcs[p].b in s.c.ref && s.c.ref[s.pcs[p].b] > 0 && s.pcs[p].k.dev != 0
    ensures s.pcs[p].b in s.c.key && s.c.key[s.pcs[p].b] == s.pcs[p].k
  {
    hide Ok, Users;
    UserCounts(s.c, s.pcs, s.pins, p);
  }

  lemma AcquireContents(s: State, s': State, p: Client, k: Key, b: Id)
    requires Inv(s) && p in s.pcs && s.pcs[p].Idle? && Acquires(s.c, k, b, s'.c)
    requires Basic(s.c)
    requires s' == s.(c := s'.c, pcs := s.pcs[p := Waiting(b, k)], valid := StillValid(s.c, s.valid, k, b))
    ensures Contents(s')
  {
    hide Ok, Users, Written, DirtyKept;
    forall q | q in s.pcs && s.pcs[q].Holding? ensures s.pcs[q].b in s'.valid { HeldValid(s, q); }
    AcquireDirty(s, s', p, k, b);
  }

  lemma AcquireDirty(s: State, s': State, p: Client, k: Key, b: Id)
    requires Inv(s) && p in s.pcs && s.pcs[p].Idle? && Acquires(s.c, k, b, s'.c)
    requires Basic(s.c)
    requires s' == s.(c := s'.c, pcs := s.pcs[p := Waiting(b, k)], valid := StillValid(s.c, s.valid, k, b))
    ensures Written(s'.c.key, s'.disk, s'.latest, s'.dirty) && DirtyKept(s'.pcs, s'.lock, s'.pins, s'.valid, s'.dirty)
  {
    hide *;
    forall k' | k' in s.dirty ensures s.dirty[k'] in s.c.ref && s.c.ref[s.dirty[k']] > 0 { DirtyUsed(s, k'); }
    InvFacts(s);
    AcquireWritten(s.c, s'.c, k, b, s.disk, s.latest, s.dirty);
    AcquireKept(s.c, s'.c, k, b, s.pcs, p, s.lock, s.pins, s.valid, s.dirty);
  }

  lemma InvFacts(s: State)
    requires Inv(s)
    ensures Contents(s) && LocksHeld(s.pcs, s.lock) && Referenced(s.c, s.pcs, s.pins) && Ok(s.c)
    ensures Written(s.c.key, s.disk, s.latest, s.dirty) && DirtyKept(s.pcs, s.lock, s.pins, s.valid, s.dirty)
    ensures HoldersValid(s.pcs, s.valid) && Coherent(s.c.key, s.valid, s.data, s.latest)
    ensures s.c.ref.Keys == s.c.key.Keys
  {
  }

  lemma AcquireWritten(c: Bcache, c': Bcache, k: Key, b: Id, disk: Key -> Data, latest: Key -> Data,
                       dirty: map<Key, Id>)
    requires Acquires(c, k, b, c') && Written(c.key, disk, latest, dirty)
    requires forall k' :: k' in dirty ==> dirty[k'] in c.ref && c.ref[dirty[k']] > 0
    ensures Written(c'.key, disk, latest, dirty)
  {
    hide Find;
  }

  lemma AcquireKept(c: Bcache, c': Bcache, k: Key, b: Id, pcs: map<Client, Pc>, p: Client, lock: map<Id, Client>,
                    pins: multiset<Id>,
                    valid: set<Id>, dirty: map<Key, Id>)
    requires Acquires(c, k, b, c') && DirtyKept(pcs, lock, pins, valid, dirty) && p in pcs && pcs[p].Idle?
    requires forall k' :: k' in dirty ==> dirty[k'] in c.ref && c.ref[dirty[k']] > 0
    requires Basic(c)
    ensures DirtyKept(pcs[p := Waiting(b, k)], lock, pins, StillValid(c, valid, k, b), dirty)
  {
    hide Find;
  }

  lemma DropContents(s: State, s': State, p: Client)
    requires Inv(s) && p in s.pcs && s.pcs[p].Unlocked? && Releases(s.c, s.pcs[p].b, s'.c)
    requires Referenced(s'.c, s'.pcs, s'.pins)
    requires s' == s.(c := s'.c, pcs := s.pcs[p := Idle], valid := Remaining(s.valid, s'.c))
    ensures Contents(s')
  {
    hide Ok, Users, Written, DirtyKept;
    DropDirty(s, s', p);
  }

  lemma DropDirty(s: State, s': State, p: Client)
    requires Inv(s) && p in s.pcs && s.pcs[p].Unlocked? && Releases(s.c, s.pcs[p].b, s'.c)
    requires Referenced(s'.c, s'.pcs, s'.pins)
    requires s' == s.(c := s'.c, pcs := s.pcs[p := Idle], valid := Remaining(s.valid, s'.c))
    ensures Written(s'.c.key, s'.disk, s'.latest, s'.dirty) && DirtyKept(s'.pcs, s'.lock, s'.pins, s'.valid, s'.dirty)
  {
    hide Ok, Users, Coherent, HoldersValid;
    forall k | k in s.dirty ensures s.dirty[k] in s'.c.ref {
      if s.dirty[k] !in s.pins {
        assert s'.pcs[s.lock[s.dirty[k]]].b == s.dirty[k];
      }
    }
  }

  lemma ResizeContents(s: State, s': State)
    requires Inv(s) && Resized(s.c, s'.c) && Referenced(s'.c, s'.pcs, s'.pins)
    requires s' == s.(c := s'.c, valid := Remaining(s.valid, s'.c))
    ensures Contents(s')
  {
    hide Ok, Users, Written, DirtyKept;
    ResizeDirty(s, s');
  }

  lemma ResizeDirty(s: State, s': State)
    requires Inv(s) && Resized(s.c, s'.c) && s' == s.(c := s'.c, valid := Remaining(s.valid, s'.c))
    ensures Written(s'.c.key, s'.disk, s'.latest, s'.dirty) && DirtyKept(s'.pcs, s'.lock, s'.pins, s'.valid, s'.dirty)
  {
    hide Ok, Users, Coherent, HoldersValid, Referenced, LocksHeld;
    forall k' | k' in s.dirty ensures s.dirty[k'] in s.c.ref && s.c.ref[s.dirty[k']] > 0 { DirtyUsed(s, k'); }
  }

  lemma LockContents(s: State, p: Client)
    requires Inv(s) && Enabled(s, Lock(p))
    ensures Contents(Apply(s, Lock(p))) && LocksHeld(Apply(s, Lock(p)).pcs, Apply(s, Lock(p)).lock)
  {
    hide Ok, Users, Referenced;
  }

  lemma UnlockContents(s: State, p: Client)
    requires Inv(s) && Enabled(s, Unlock(p))
    ensures Contents(Apply(s, Unlock(p))) && LocksHeld(Apply(s, Unlock(p)).pcs, Apply(s, Unlock(p)).lock)
  {
    hide Ok, Users;
    var b := s.pcs[p].b;
    assert forall k :: k in s.dirty && s.dirty[k] == b ==> k == s.pcs[p].k;
  }

  lemma ReadContents(s: State, p: Client)
    requires Inv(s) && Enabled(s, ReadDisk(p))
    ensures Contents(Apply(s, ReadDisk(p))) && LocksHeld(Apply(s, ReadDisk(p)).pcs, s.lock)
  {
    hide Ok, Users;
    var b, k := s.pcs[p].b, s.pcs[p].k;
    assert s.c.key[b] == k;
    NotDirty(s, p);
  }

  /** A block whose buffer has no contents is not dirty: its buffer is the only one. */
  lemma NotDirty(s: State, p: Client)
    requires Inv(s) && p in s.pcs && !s.pcs[p].Idle? && s.pcs[p].b !in s.valid
    ensures s.pcs[p].k !in s.dirty
  {
    hide Users, Counted, Shape;
    HeldValid(s, p);
  }

  lemma UseContents(s: State, p: Client)
    requires Inv(s) && Enabled(s, UseCached(p))
    ensures Contents(Apply(s, UseCached(p))) && LocksHeld(Apply(s, UseCached(p)).pcs, s.lock)
  {
    hide Ok, Users, Referenced;
  }

  lemma OverwriteContents(s: State, p: Client, v: Data)
    requires Inv(s) && Enabled(s, Overwrite(p, v))
    ensures Contents(Apply(s, Overwrite(p, v))) && LocksHeld(Apply(s, Overwrite(p, v)).pcs, s.lock)
  {
    hide Users, Counted, Shape, Bounded, Referenced, Written, DirtyKept;
    HeldValid(s, p);
    OverwriteDirty(s, p, v);
  }

  lemma OverwriteDirty(s: State, p: Client, v: Data)
    requires Inv(s) && Enabled(s, Overwrite(p, v))
    ensures var s' := Apply(s, Overwrite(p, v));
      Written(s'.c.key, s'.disk, s'.latest, s'.dirty) && DirtyKept(s'.pcs, s'.lock, s'.pins, s'.valid, s'.dirty)
  {
    hide Ok, Users, Referenced, Coherent, HoldersValid;
    HeldValid(s, p);
  }

  lemma ChangeContents(s: State, p: Client, v: Data)
    requires Inv(s) && Enabled(s, Change(p, v))
    ensures Contents(Apply(s, Change(p, v)))
  {
    hide Users, Counted, Shape, Bounded, Referenced;
    HeldValid(s, p);
  }

  lemma WriteContents(s: State, p: Client)
    requires Inv(s) && Enabled(s, WriteDisk(p))
    ensures Contents(Apply(s, WriteDisk(p)))
  {
    hide Ok, Users;
  }

  lemma PinContents(s: State, p: Client)
    requires Inv(s) && Enabled(s, Pin(p))
    ensures Contents(Apply(s, Pin(p)))
  {
    hide Ok, Users;
  }

  lemma UnpinContents(s: State, p: Client)
    requires Inv(s) && Enabled(s, Unpin(p))
    ensures Contents(Apply(s, Unpin(p)))
  {
    hide Users, Counted, Shape, Bounded;
    HeldValid(s, p);
  }

  // ----- every step, every run -----

  /** The steps that change the cache's list, keys or counts. */
  predicate OnCache(e: Step) {
    e.Acquire? || e.Drop? || e.SetMin? || e.SetMaxFree?
  }

  lemma CacheStepInv(s: State, e: Step)
    requires Inv(s) && Enabled(s, e) && Basic(s.c) && OnCache(e)
    ensures Inv(Apply(s, e)) && Basic(Apply(s, e).c)
  {
    hide Ok, Basic, Referenced, LocksHeld, Contents, Coherent, HoldersValid, Written, DirtyKept, Acquired, Released,
      MinSet, MaxFreeSet, Chosen;
    InvFacts(s);
    var s' := Apply(s, e);
    if e.Acquire? {
      AcquireOk(s.c, e.k);
      AcquireReferenced(s.c, s'.c, s.pcs, s.pins, e.p, Chosen(s.c, e.k), e.k);
      AcquireContents(s, s', e.p, e.k, Chosen(s.c, e.k));
      IdleLocks(s.pcs, s.lock, e.p, Waiting(Chosen(s.c, e.k), e.k));
    } else if e.Drop? {
      ReleaseOk(s.c, s.pcs[e.p].b);
      DropReferenced(s.c, s'.c, s.pcs, s.pins, e.p);
      DropContents(s, s', e.p);
      IdleLocks(s.pcs, s.lock, e.p, Idle);
    } else {
      if e.SetMin? {
        MinResized(s.c, e.min);
      } else {
        MaxFreeResized(s.c, e.max);
      }
      ResizeReferenced(s.c, s'.c, s.pcs, s.pins);
      ResizeContents(s, s');
    }
    FromContents(s');
  }

  lemma ClientStepInv(s: State, e: Step)
    requires Inv(s) && Enabled(s, e) && Basic(s.c) && !OnCache(e)
    ensures Inv(Apply(s, e)) && Basic(Apply(s, e).c)
  {
    hide Ok, Basic, Referenced, LocksHeld, Contents, Coherent, HoldersValid, Written, DirtyKept;
    InvFacts(s);
    var s', p := Apply(s, e), e.p;
    if e.Change? {
      ChangeContents(s, p, e.v);
    } else if e.WriteDisk? {
      WriteContents(s, p);
    } else if e.Pin? {
      PinStep(s, p);
    } else if e.Unpin? {
      UnpinStep(s, p);
    } else {
      SameUse(s.c, s.pcs, s.pins, p, s'.pcs[p]);
      if e.Lock? {
        LockContents(s, p);
      } else if e.ReadDisk? {
        ReadContents(s, p);
      } else if e.UseCached? {
        UseContents(s, p);
      } else if e.Overwrite? {
        OverwriteContents(s, p, e.v);
      } else {
        UnlockContents(s, p);
      }
    }
    FromContents(s');
  }

  lemma StepInv(s: State, e: Step)
    requires Inv(s) && Enabled(s, e) && Basic(s.c)
    ensures Inv(Apply(s, e)) && Basic(Apply(s, e).c)
  {
    hide Inv, Enabled, Apply, Basic;
    if OnCache(e) {
      CacheStepInv(s, e);
    } else {
      ClientStepInv(s, e);
    }
  }

  lemma FromContents(s: State)
    requires Ok(s.c) && Referenced(s.c, s.pcs, s.pins) && LocksHeld(s.pcs, s.lock) && Contents(s)
    ensures Inv(s) && Basic(s.c)
  {
  }

  lemma IdleLocks(pcs: map<Client, Pc>, lock: map<Id, Client>, p: Client, pc: Pc)
    requires LocksHeld(pcs, lock) && p in pcs && !Owns(pcs[p]) && !Owns(pc)
    ensures LocksHeld(pcs[p := pc], lock)
  {
  }

  lemma PinStep(s: State, p: Client)
    requires Inv(s) && Enabled(s, Pin(p)) && Basic(s.c)
    ensures var s' := Apply(s, Pin(p)); Ok(s'.c) && Referenced(s'.c, s'.pcs, s'.pins) && Contents(s')
  {
    hide Ok, Basic, Users, Contents, Referenced, LocksHeld, Coherent, HoldersValid, Written, DirtyKept, Queue;
    InvFacts(s);
    var b := s.pcs[p].b;
    HeldValid(s, p);
    CounterOk(s.c, b, s.c.ref[b] + 1);
    PinReferenced(s.c, s.pcs, s.pins, s.pins + multiset{b}, b, s.c.ref[b] + 1);
    PinContents(s, p);
  }

  lemma UnpinStep(s: State, p: Client)
    requires Inv(s) && Enabled(s, Unpin(p)) && Basic(s.c)
    ensures var s' := Apply(s, Unpin(p)); Ok(s'.c) && Referenced(s'.c, s'.pcs, s'.pins) && Contents(s')
  {
    hide Ok, Basic, Users, Contents, Referenced, LocksHeld, Coherent, HoldersValid, Written, DirtyKept, Queue;
    InvFacts(s);
    var b := s.pcs[p].b;
    HeldValid(s, p);
    UserCounts(s.c, s.pcs, s.pins, p);
    CounterOk(s.c, b, s.c.ref[b] - 1);
    PinReferenced(s.c, s.pcs, s.pins, s.pins - multiset{b}, b, s.c.ref[b] - 1);
    UnpinContents(s, p);
  }

  /** All clients idle, nothing pinned or cached, and a disk. */
  ghost predicate Initial(s: State) {
    && Ok(s.c) && (forall b :: b in s.c.ref ==> s.c.ref[b] == 0)
    && (forall p :: p in s.pcs ==> s.pcs[p].Idle?)
    && s.lock == map[] && s.pins == multiset{} && s.valid == {} && s.dirty == map[]
    && (forall k :: s.disk(k) == s.latest(k))
  }

  lemma InitialInv(s: State)
    requires Initial(s)
    ensures Inv(s) && Basic(s.c)
  {
    assert forall b :: Users(s.pcs, b) == {};
  }

  /** (That the counters are exact, which Apply asks for, is no restriction: RunInv.) */
  ghost predicate Run(states: seq<State>, steps: seq<Step>) {
    && |states| == |steps| + 1 && Initial(states[0])
    && forall i :: 0 <= i < |steps| ==>
         Enabled(states[i], steps[i]) && Basic(states[i].c) && states[i + 1] == Apply(states[i], steps[i])
  }

  lemma {:induction false} RunInv(states: seq<State>, steps: seq<Step>, n: nat)
    requires Run(states, steps) && n <= |steps|
    ensures Inv(states[n]) && Basic(states[n].c)
  {
    if n == 0 {
      InitialInv(states[0]);
    } else {
      RunInv(states, steps, n - 1);
      StepInv(states[n - 1], steps[n - 1]);
    }
  }

  // ----- what a run shows its clients -----

  /** A client between bio_read and bio_release sees the latest contents of the block it asked for, alone. */
  lemma ReadsLatest(states: seq<State>, steps: seq<Step>, n: nat, p: Client)
    requires Run(states, steps) && n <= |steps| && p in states[n].pcs && states[n].pcs[p].Holding?
    ensures var s := states[n]; var b, k := s.pcs[p].b, s.pcs[p].k;
      && b in s.data && s.data[b] == s.latest(k)
      && (forall q :: q in s.pcs && q != p && s.pcs[q].Holding? ==> s.pcs[q].b != b && s.pcs[q].k != k)
  {
    RunInv(states, steps, n);
    OneHolder(states[n], p);
  }

  lemma OneHolder(s: State, p: Client)
    requires Inv(s) && p in s.pcs && s.pcs[p].Holding?
    ensures s.pcs[p].b in s.data && s.data[s.pcs[p].b] == s.latest(s.pcs[p].k)
    ensures forall q ::
      q in s.pcs && q != p && s.pcs[q].Holding? ==> s.pcs[q].b != s.pcs[p].b && s.pcs[q].k != s.pcs[p].k
  {
    hide Users, Counted, Shape, Bounded, Written, DirtyKept;
    forall q | q in s.pcs && q != p && s.pcs[q].Holding? ensures s.pcs[q].b != s.pcs[p].b && s.pcs[q].k != s.pcs[p].k {
      assert s.lock[s.pcs[q].b] == q && s.lock[s.pcs[p].b] == p;
      assert s.c.key[s.pcs[q].b] == s.pcs[q].k && s.c.key[s.pcs[p].b] == s.pcs[p].k;
    }
  }

  /** The steps' definedness conditions block nobody. */
  lemma StepsDefined(s: State, p: Client)
    requires Inv(s) && p in s.pcs && !s.pcs[p].Idle?
    ensures s.pcs[p].b in s.c.key && s.pcs[p].b in s.c.ref && s.c.ref[s.pcs[p].b] > 0 && s.c.num > 0
    ensures s.pcs[p].Holding? ==> s.pcs[p].b in s.data
  {
    HeldValid(s, p);
    assert s.pcs[p].b in s.c.list;
  }

  /** From its reference to its release a client's buffer stays in the cache, for the block it asked for. */
  lemma KeyStable(states: seq<State>, steps: seq<Step>, n: nat, p: Client)
    requires Run(states, steps) && n <= |steps| && p in states[n].pcs && !states[n].pcs[p].Idle?
    ensures var s := states[n];
      s.pcs[p].b in s.c.key && s.c.key[s.pcs[p].b] == s.pcs[p].k && s.pcs[p].b in s.c.ref && s.c.ref[s.pcs[p].b] > 0
  {
    RunInv(states, steps, n);
    HeldValid(states[n], p);
  }

  /** A buffer with the contents of block k. */
  ghost predicate Caches(s: State, b: Id, k: Key) {
    b in s.valid && b in s.c.key && s.c.key[b] == k && b in s.data
  }

  /** What cache and disk together store for a block: the buffer's contents, if there is one, else the disk's. */
  ghost function Stored(s: State, k: Key): Data {
    if b :| Caches(s, b, k) then s.data[b] else s.disk(k)
  }

  lemma StoredIsLatest(s: State, k: Key)
    requires Inv(s)
    ensures Stored(s, k) == s.latest(k)
  {
    hide Ok, Users, Referenced, LocksHeld;
    if k in s.dirty {
      assert Caches(s, s.dirty[k], k);
    }
  }

  predicate Writes(e: Step) {
    e.Change? || e.Overwrite?
  }

  /** Only a client's write changes what is stored: every other step, recycling included, leaves every block alone. */
  lemma StoreStep(s: State, e: Step, k: Key)
    requires Inv(s) && Enabled(s, e) && Basic(s.c)
    ensures Stored(Apply(s, e), k) == if Writes(e) && s.pcs[e.p].k == k then e.v else Stored(s, k)
  {
    hide Inv, Basic, Stored;
    StepInv(s, e);
    StoredIsLatest(s, k);
    StoredIsLatest(Apply(s, e), k);
  }

  /** With every client idle and nothing pinned the disk has all of it. */
  lemma NothingLost(states: seq<State>, steps: seq<Step>, n: nat, k: Key)
    requires Run(states, steps) && n <= |steps|
    requires states[n].pins == multiset{} && forall p :: p in states[n].pcs ==> states[n].pcs[p].Idle?
    ensures states[n].disk(k) == states[n].latest(k)
  {
    RunInv(states, steps, n);
  }
}
