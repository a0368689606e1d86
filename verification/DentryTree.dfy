/**
 The tree of directory entries as values: one map per field of struct dentry.  `parent`
 holds no entry for a dentry whose parent pointer is NULL.  Below are the invariants of the
 cache and the small updates it is built from.
*/
module DentryTree {
  import opened Common

  type Id = nat

  // ----- invariants -----

  /** Parent pointers and child lists agree, and no entry is its own parent. */
  ghost predicate Links(live: set<Id>, parent: map<Id, Id>, children: map<Id, seq<Id>>) {
    && children.Keys == live && parent.Keys <= live
    && (forall c :: c in parent ==> parent[c] != c && parent[c] in children && c in children[parent[c]])
    && (forall p, c {:trigger c in children[p]} :: p in children && c in children[p] ==> c in parent && parent[c] == p)
    && (forall p :: p in children ==> NoDup(children[p]))
  }

  /** A count is the handles given out plus one for every child. */
  ghost predicate Counts(ref: map<Id, nat>, children: map<Id, seq<Id>>, handles: multiset<Id>) {
    && (forall d :: d in ref ==> d in children && ref[d] == handles[d] + |children[d]|)
    && (forall d :: d in handles ==> d in ref)
  }

  /**
   Entries with count 0 are those on the LRU list and those that running code has just
   taken off it or is about to put on it (`limbo`).
  */
  ghost predicate Zeros(ref: map<Id, nat>, parent: map<Id, Id>, lru: set<Id>, limbo: set<Id>, unlinked: Id) {
    && lru !! limbo
    && (forall d :: d in lru ==> d in ref && ref[d] == 0 && d in parent && parent[d] != unlinked)
    && (forall d :: d in limbo ==> d in ref && ref[d] == 0)
    && (forall d {:trigger d in lru} {:trigger d in limbo} :: d in ref && ref[d] == 0 ==> d in lru || d in limbo)
  }

  ghost predicate Inv(ref: map<Id, nat>, parent: map<Id, Id>, children: map<Id, seq<Id>>, lru: set<Id>,
                      handles: multiset<Id>, limbo: set<Id>, unlinked: Id) {
    Links(ref.Keys, parent, children) && Counts(ref, children, handles) && Zeros(ref, parent, lru, limbo, unlinked)
  }

  lemma CountZeroIsLeaf(ref: map<Id, nat>, parent: map<Id, Id>, children: map<Id, seq<Id>>, handles: multiset<Id>,
                        d: Id)
    requires Links(ref.Keys, parent, children) && Counts(ref, children, handles) && d in ref && ref[d] == 0
    ensures children[d] == [] && handles[d] == 0
    ensures forall c :: c in parent ==> parent[c] != d
  {
    assert forall c :: c in parent && parent[c] == d ==> c in children[d];
  }

  // ----- updates -----

  lemma GetInv(ref: map<Id, nat>, parent: map<Id, Id>, children: map<Id, seq<Id>>, lru: set<Id>,
               handles: multiset<Id>, limbo: set<Id>, u: Id, d: Id)
    requires Inv(ref, parent, children, lru, handles, limbo, u) && d in ref && d !in limbo
    ensures Inv(ref[d := ref[d] + 1], parent, children, lru - {d}, handles + multiset{d}, limbo, u)
  {
    assert ref[d := ref[d] + 1].Keys == ref.Keys;
  }

  /** Dropping a handle; the last one leaves the entry in limbo. */
  lemma DropInv(ref: map<Id, nat>, parent: map<Id, Id>, children: map<Id, seq<Id>>, lru: set<Id>,
                handles: multiset<Id>, limbo: set<Id>, u: Id, d: Id)
    requires Inv(ref, parent, children, lru, handles, limbo, u) && d in handles
    ensures d in ref && ref[d] > 0 && d !in lru && d !in limbo
    ensures Inv(ref[d := ref[d] - 1], parent, children, lru, handles - multiset{d},
                if ref[d] == 1 then limbo + {d} else limbo, u)
  {
    assert ref[d := ref[d] - 1].Keys == ref.Keys;
  }

  lemma ToLruInv(ref: map<Id, nat>, parent: map<Id, Id>, children: map<Id, seq<Id>>, lru: set<Id>,
                 handles: multiset<Id>, limbo: set<Id>, u: Id, d: Id)
    requires Inv(ref, parent, children, lru, handles, limbo, u) && d in limbo && d in parent && parent[d] != u
    ensures Inv(ref, parent, children, lru + {d}, handles, limbo - {d}, u)
  {
  }

  lemma FromLruInv(ref: map<Id, nat>, parent: map<Id, Id>, children: map<Id, seq<Id>>, lru: set<Id>,
                   handles: multiset<Id>, limbo: set<Id>, u: Id, d: Id)
    requires Inv(ref, parent, children, lru, handles, limbo, u) && d in lru
    ensures Inv(ref, parent, children, lru - {d}, handles, limbo + {d}, u)
  {
  }

  /** list_del from the parent's child list: the child's hold on its parent becomes the caller's. */
  lemma DetachInv(ref: map<Id, nat>, parent: map<Id, Id>, children: map<Id, seq<Id>>, lru: set<Id>,
                  handles: multiset<Id>, limbo: set<Id>, u: Id, c: Id)
    requires Inv(ref, parent, children, lru, handles, limbo, u) && c in parent && c !in lru
    ensures parent[c] in children
    ensures Inv(ref, parent - {c}, children[parent[c] := Without(children[parent[c]], c)], lru,
                handles + multiset{parent[c]}, limbo, u)
  {
    DetachLinks(ref.Keys, parent, children, c);
    DetachCounts(ref, parent, children, handles, c);
  }

  lemma DetachCounts(ref: map<Id, nat>, parent: map<Id, Id>, children: map<Id, seq<Id>>, handles: multiset<Id>, c: Id)
    requires Links(ref.Keys, parent, children) && Counts(ref, children, handles) && c in parent
    ensures Counts(ref, children[parent[c] := Without(children[parent[c]], c)], handles + multiset{parent[c]})
  {
    assert c in children[parent[c]];
  }

  lemma DetachLinks(live: set<Id>, parent: map<Id, Id>, children: map<Id, seq<Id>>, c: Id)
    requires Links(live, parent, children) && c in parent
    ensures Links(live, parent - {c}, children[parent[c] := Without(children[parent[c]], c)])
  {
  }

  /** list_add to p's child list: the caller's handle on the parent goes to the new child. */
  lemma AttachInv(ref: map<Id, nat>, parent: map<Id, Id>, children: map<Id, seq<Id>>, lru: set<Id>,
                  handles: multiset<Id>, limbo: set<Id>, u: Id, p: Id, c: Id)
    requires Inv(ref, parent, children, lru, handles, limbo, u)
    requires p in handles && c in ref && p != c && c !in parent && ref[c] > 0
    ensures Inv(ref, parent[c := p], children[p := [c] + children[p]], lru, handles - multiset{p}, limbo, u)
  {
    AttachLinks(ref.Keys, parent, children, p, c);
  }

  lemma AttachLinks(live: set<Id>, parent: map<Id, Id>, children: map<Id, seq<Id>>, p: Id, c: Id)
    requires Links(live, parent, children) && p in live && c in live && p != c && c !in parent
    ensures Links(live, parent[c := p], children[p := [c] + children[p]])
  {
    NoDupCons(c, children[p]);
  }

  /** dentry_free: nothing else refers to an entry without count, parent or children. */
  lemma FreeInv(ref: map<Id, nat>, parent: map<Id, Id>, children: map<Id, seq<Id>>, lru: set<Id>,
                handles: multiset<Id>, limbo: set<Id>, u: Id, d: Id)
    requires Inv(ref, parent, children, lru, handles, limbo, u) && d in limbo && d !in parent
    ensures Inv(ref - {d}, parent, children - {d}, lru, handles, limbo - {d}, u)
  {
    CountZeroIsLeaf(ref, parent, children, handles, d);
  }

  lemma AllocLinks(live: set<Id>, parent: map<Id, Id>, children: map<Id, seq<Id>>, d: Id)
    requires Links(live, parent, children) && d !in live
    ensures Links(live + {d}, parent, children[d := []])
  {
  }

  /** A fresh orphan, held once by whoever allocated it. */
  lemma AllocInv(ref: map<Id, nat>, parent: map<Id, Id>, children: map<Id, seq<Id>>, lru: set<Id>,
                 handles: multiset<Id>, limbo: set<Id>, u: Id, d: Id)
    requires Inv(ref, parent, children, lru, handles, limbo, u) && d !in ref
    ensures Inv(ref[d := 1], parent, children[d := []], lru, handles + multiset{d}, limbo, u)
  {
    AllocLinks(ref.Keys, parent, children, d);
    assert ref[d := 1].Keys == ref.Keys + {d};
    CountZeroHandles(ref, children, handles, d);
  }

  lemma CountZeroHandles(ref: map<Id, nat>, children: map<Id, seq<Id>>, handles: multiset<Id>, d: Id)
    requires Counts(ref, children, handles) && d !in ref
    ensures Counts(ref[d := 1], children[d := []], handles + multiset{d})
  {
    assert d !in handles;
  }
}
