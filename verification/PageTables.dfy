/**
 A multi-level page table in physical pages, as the RISC-V privileged architecture has it
 (sections 4.3 and 4.4: Sv32 with 2 levels of 1024 entries, Sv39 with 3 levels of 512), and
 what the two writes of the early page-table builder do to the translation.
*/
module PageTables {
  import opened Common

  datatype Flag = V | R | W | X | U | G | A | D
  /** A page-table entry: physical page number and flags. */
  datatype Pte = Pte(ppn: nat, flags: set<Flag>)

  type Page = nat
  /** Page contents, and the bump allocator: next free page and how many are left. */
  datatype Tables = Tables(mem: map<Page, seq<Pte>>, nextFree: Page, free: nat)

  /** How many entries a table has, how many levels there are, and the root's page. */
  datatype Format = Format(fan: nat, levels: nat, root: Page)

  const ZERO := Pte(0, {})

  /** Indices from the root down, one for each level. */
  type Path = seq<nat>

  /** Follow table entries. */
  ghost function Descend(mem: map<Page, seq<Pte>>, p: Page, ix: Path): Option<Page>
    decreases |ix|
  {
    if ix == [] then Some(p)
    else if p in mem && ix[0] < |mem[p]| && V in mem[p][ix[0]].flags then Descend(mem, mem[p][ix[0]].ppn, ix[1..])
    else None
  }

  /** What the hardware finds. */
  ghost function Translate(mem: map<Page, seq<Pte>>, root: Page, ix: Path): Option<Pte>
    requires ix != []
  {
    var leaf, last := Descend(mem, root, ix[..|ix| - 1]), ix[|ix| - 1];
    if leaf.Some? && leaf.value in mem && last < |mem[leaf.value]| && V in mem[leaf.value][last].flags
    then Some(mem[leaf.value][last]) else None
  }

  // ----- the invariant -----

  /** path: where in the tree each table page is; every page in use has its own place. */
  ghost predicate Pages(t: Tables, f: Format, path: map<Page, Path>) {
    && f.levels > 0 && f.fan > 0
    && (forall p :: p in path <==> f.root <= p < t.nextFree)
    && f.root in path && path[f.root] == []
    && (forall p :: f.root <= p < t.nextFree + t.free ==> p in t.mem && |t.mem[p]| == f.fan)
    && (forall p, i :: t.nextFree <= p < t.nextFree + t.free && p in t.mem && 0 <= i < |t.mem[p]| ==>
          t.mem[p][i] == ZERO)
    && (forall p :: p in path ==> |path[p]| < f.levels)
  }

  ghost predicate Unshared(path: map<Page, Path>) {
    forall p, q {:trigger path[p], path[q]} :: p in path && q in path && path[p] == path[q] ==> p == q
  }

  /** A valid entry of an inner table leads to the table below it. */
  ghost predicate Inner(mem: map<Page, seq<Pte>>, levels: nat, path: map<Page, Path>) {
    forall p, i {:trigger mem[p][i]} ::
      p in path && p in mem && |path[p]| + 1 < levels && 0 <= i < |mem[p]| && V in mem[p][i].flags ==>
      mem[p][i].ppn in path && path[mem[p][i].ppn] == path[p] + [i]
  }

  /** Every page in use is reached from the root. */
  ghost predicate Reached(mem: map<Page, seq<Pte>>, root: Page, path: map<Page, Path>) {
    forall p :: p in path ==> Descend(mem, root, path[p]) == Some(p)
  }

  ghost predicate Inv(t: Tables, f: Format, path: map<Page, Path>) {
    Pages(t, f, path) && Unshared(path) && Inner(t.mem, f.levels, path) && Reached(t.mem, f.root, path)
  }

  /** The walk arrives at the page whose place is the indices followed. */
  lemma {:induction false} DescendPlace(t: Tables, f: Format, path: map<Page, Path>, p: Page, ix: Path)
    requires Inv(t, f, path) && p in path && |path[p]| + |ix| < f.levels
    ensures var r := Descend(t.mem, p, ix); r.Some? ==> r.value in path && path[r.value] == path[p] + ix
    decreases |ix|
  {
    if ix == [] {
      assert path[p] + ix == path[p];
    } else if p in t.mem && ix[0] < |t.mem[p]| && V in t.mem[p][ix[0]].flags {
      DescendPlace(t, f, path, t.mem[p][ix[0]].ppn, ix[1..]);
      assert path[p] + [ix[0]] + ix[1..] == path[p] + ix;
    }
  }

  lemma {:induction false} DescendSnoc(mem: map<Page, seq<Pte>>, p: Page, ix: Path, i: nat)
    ensures var r := Descend(mem, p, ix);
      Descend(mem, p, ix + [i]) ==
      if r.Some? && r.value in mem && i < |mem[r.value]| && V in mem[r.value][i].flags then Some(mem[r.value][i].ppn)
      else None
    decreases |ix|
  {
    if ix == [] {
      assert ix + [i] == [i] && [i][1..] == [];
    } else {
      assert (ix + [i])[1..] == ix[1..] + [i] && (ix + [i])[0] == ix[0];
      if p in mem && ix[0] < |mem[p]| && V in mem[p][ix[0]].flags {
        DescendSnoc(mem, mem[p][ix[0]].ppn, ix[1..], i);
      }
    }
  }

  // ----- a new table -----

  function Created(t: Tables, p: Page, i: nat): Tables
    requires p in t.mem && i < |t.mem[p]| && t.free > 0
  {
    t.(mem := t.mem[p := t.mem[p][i := Pte(t.nextFree, {V})]], nextFree := t.nextFree + 1, free := t.free - 1)
  }

  ghost predicate CanCreate(t: Tables, f: Format, path: map<Page, Path>, p: Page, i: nat) {
    p in path && p in t.mem && i < |t.mem[p]| && |path[p]| + 1 < f.levels && V !in t.mem[p][i].flags && t.free > 0
  }

  /** No page has the place of a missing table. */
  lemma PlaceIsFree(t: Tables, f: Format, path: map<Page, Path>, p: Page, i: nat)
    requires Inv(t, f, path) && CanCreate(t, f, path, p, i)
    ensures forall q :: q in path ==> path[q] != path[p] + [i]
  {
    DescendSnoc(t.mem, f.root, path[p], i);
  }

  lemma CreatedInv(t: Tables, f: Format, path: map<Page, Path>, p: Page, i: nat)
    requires Inv(t, f, path) && CanCreate(t, f, path, p, i)
    ensures Inv(Created(t, p, i), f, path[t.nextFree := path[p] + [i]])
  {
    PlaceIsFree(t, f, path, p, i);
    CreatedInner(t, f, path, p, i);
    CreatedReached(t, f, path, p, i);
    CreatedPages(t, f, path, p, i);
  }

  lemma CreatedPages(t: Tables, f: Format, path: map<Page, Path>, p: Page, i: nat)
    requires Inv(t, f, path) && CanCreate(t, f, path, p, i)
    requires forall q :: q in path ==> path[q] != path[p] + [i]
    ensures Pages(Created(t, p, i), f, path[t.nextFree := path[p] + [i]]) && Unshared(path[t.nextFree := path[p] + [i]])
  {
    hide Inner, Reached;
    assert t.nextFree !in path;
  }

  lemma CreatedInner(t: Tables, f: Format, path: map<Page, Path>, p: Page, i: nat)
    requires Inv(t, f, path) && CanCreate(t, f, path, p, i)
    ensures Inner(Created(t, p, i).mem, f.levels, path[t.nextFree := path[p] + [i]])
  {
    hide Reached, Unshared;
    assert t.nextFree !in path;
  }

  /** Filling in an invalid entry redirects no walk. */
  lemma {:induction false} SameWalk(mem: map<Page, seq<Pte>>, p: Page, i: nat, e: Pte, q: Page, ix: Path)
    requires p in mem && i < |mem[p]| && V !in mem[p][i].flags && Descend(mem, q, ix).Some?
    ensures Descend(mem[p := mem[p][i := e]], q, ix) == Descend(mem, q, ix)
    decreases |ix|
  {
    if ix != [] {
      SameWalk(mem, p, i, e, mem[q][ix[0]].ppn, ix[1..]);
    }
  }

  lemma CreatedReached(t: Tables, f: Format, path: map<Page, Path>, p: Page, i: nat)
    requires Inv(t, f, path) && CanCreate(t, f, path, p, i)
    ensures Reached(Created(t, p, i).mem, f.root, path[t.nextFree := path[p] + [i]])
  {
    hide Inner, Unshared;
    var t' := Created(t, p, i);
    forall q | q in path ensures Descend(t'.mem, f.root, path[q]) == Some(q) {
      SameWalk(t.mem, p, i, Pte(t.nextFree, {V}), f.root, path[q]);
    }
    DescendSnoc(t'.mem, f.root, path[p], i);
  }

  /** A walk of all but the last index ends at the page of that place. */
  lemma FrontPlace(t: Tables, f: Format, path: map<Page, Path>, front: Path)
    requires Inv(t, f, path) && |front| < f.levels
    ensures var r := Descend(t.mem, f.root, front); r.Some? ==> r.value in path && path[r.value] == front
  {
    hide Descend, Inner, Reached, Unshared;
    DescendPlace(t, f, path, f.root, front);
    assert [] + front == front;
  }

  /** An empty table changes no translation. */
  lemma CreatedTranslate(t: Tables, f: Format, path: map<Page, Path>, p: Page, i: nat, ix: Path)
    requires Inv(t, f, path) && CanCreate(t, f, path, p, i) && |ix| == f.levels
    ensures Translate(Created(t, p, i).mem, f.root, ix) == Translate(t.mem, f.root, ix)
  {
    hide Inv, Descend;
    var t', path' := Created(t, p, i), path[t.nextFree := path[p] + [i]];
    var front := ix[..|ix| - 1];
    CreatedInv(t, f, path, p, i);
    FrontPlace(t, f, path, front);
    FrontPlace(t', f, path', front);
    var was, now := Descend(t.mem, f.root, front), Descend(t'.mem, f.root, front);
    if was.Some? {
      SameWalk(t.mem, p, i, Pte(t.nextFree, {V}), f.root, front);
    } else if now.Some? {
      NewPageIsEmpty(t, f, path, p, i);
      OldPageReached(t, f, path, front);
    }
  }

  lemma OldPageReached(t: Tables, f: Format, path: map<Page, Path>, front: Path)
    requires Inv(t, f, path) && Descend(t.mem, f.root, front).None?
    ensures forall q :: q in path ==> path[q] != front
  {
  }

  lemma NewPageIsEmpty(t: Tables, f: Format, path: map<Page, Path>, p: Page, i: nat)
    requires Inv(t, f, path) && CanCreate(t, f, path, p, i)
    ensures t.nextFree in Created(t, p, i).mem && forall k :: 0 <= k < |Created(t, p, i).mem[t.nextFree]| ==>
      Created(t, p, i).mem[t.nextFree][k] == ZERO
  {
    assert t.nextFree !in path;
  }

  // ----- a leaf entry -----

  function Set(t: Tables, p: Page, i: nat, e: Pte): Tables
    requires p in t.mem && i < |t.mem[p]|
  {
    t.(mem := t.mem[p := t.mem[p][i := e]])
  }

  ghost predicate IsLeaf(t: Tables, f: Format, path: map<Page, Path>, p: Page, i: nat) {
    p in path && p in t.mem && i < |t.mem[p]| && |path[p]| + 1 == f.levels
  }

  lemma {:induction false} LeafWalk(t: Tables, f: Format, path: map<Page, Path>, p: Page, i: nat, e: Pte, q: Page,
                                    ix: Path)
    requires Inv(t, f, path) && IsLeaf(t, f, path, p, i) && q in path && |path[q]| + |ix| < f.levels
    ensures Descend(Set(t, p, i, e).mem, q, ix) == Descend(t.mem, q, ix)
    decreases |ix|
  {
    if ix != [] && q in t.mem && ix[0] < |t.mem[q]| && V in t.mem[q][ix[0]].flags {
      LeafWalk(t, f, path, p, i, e, t.mem[q][ix[0]].ppn, ix[1..]);
    }
  }

  lemma SetInv(t: Tables, f: Format, path: map<Page, Path>, p: Page, i: nat, e: Pte)
    requires Inv(t, f, path) && IsLeaf(t, f, path, p, i)
    ensures Inv(Set(t, p, i, e), f, path)
  {
    forall q | q in path ensures Descend(Set(t, p, i, e).mem, f.root, path[q]) == Some(q) {
      LeafWalk(t, f, path, p, i, e, f.root, path[q]);
    }
  }

  /** A leaf entry changes the translation of its own page and no other. */
  lemma SetTranslate(t: Tables, f: Format, path: map<Page, Path>, p: Page, i: nat, e: Pte, ix: Path)
    requires Inv(t, f, path) && IsLeaf(t, f, path, p, i) && V in e.flags && |ix| == f.levels
    ensures Translate(Set(t, p, i, e).mem, f.root, ix) ==
      if ix == path[p] + [i] then Some(e) else Translate(t.mem, f.root, ix)
  {
    var front := ix[..|ix| - 1];
    assert ix == front + [ix[|ix| - 1]];
    RootPlace(t, f, path);
    LeafWalk(t, f, path, p, i, e, f.root, front);
    FrontPlace(t, f, path, front);
    hide Descend, Inv;
  }

  lemma RootPlace(t: Tables, f: Format, path: map<Page, Path>)
    requires Inv(t, f, path)
    ensures f.root in path && path[f.root] == []
  {
  }
}
