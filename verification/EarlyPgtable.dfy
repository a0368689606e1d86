/** The early page-table builder (early_pgtable.c): a radix tree over a bump allocator that acts like a flat map. */
module EarlyPgtable {
  import opened Common
  import opened PageTables

  const PAGE_SIZE: nat := 4096

  // ----- addresses -----

  /** A page number shifted right by some levels' worth of index bits. */
  function Shift(fan: nat, vpn: nat, level: nat): nat
    requires fan > 0
  {
    if level == 0 then vpn else Shift(fan, vpn, level - 1) / fan
  }

  /** PAGE_TABLE_INDEX */
  function Index(fan: nat, vpn: nat, level: nat): (i: nat)
    requires fan > 0
    ensures i < fan
  {
    Shift(fan, vpn, level) % fan
  }

  /** The indices of a page number from the root level down. */
  function Indices(f: Format, vpn: nat): (ix: Path)
    requires f.fan > 0
    ensures |ix| == f.levels && forall k :: 0 <= k < f.levels ==> ix[k] == Index(f.fan, vpn, f.levels - 1 - k)
  {
    seq(f.levels, k requires 0 <= k < f.levels => Index(f.fan, vpn, f.levels - 1 - k))
  }

  function Pow(b: nat, e: nat): nat {
    if e == 0 then 1 else b * Pow(b, e - 1)
  }

  /** Equal lower indices: the pages differ by a multiple of the span of those levels. */
  lemma {:induction false} SameIndices(fan: nat, v: nat, w: nat, level: nat)
    requires fan > 0 && forall l :: 0 <= l < level ==> Index(fan, v, l) == Index(fan, w, l)
    ensures v - w == (Shift(fan, v, level) - Shift(fan, w, level)) * Pow(fan, level)
  {
    if level > 0 {
      SameIndices(fan, v, w, level - 1);
      var a, b := Shift(fan, v, level - 1), Shift(fan, w, level - 1);
      assert Index(fan, v, level - 1) == Index(fan, w, level - 1);
      Divided(a, fan);
      Divided(b, fan);
      Regroup(a, b, a / fan, b / fan, fan, Pow(fan, level - 1));
    }
  }

  lemma Divided(a: nat, d: nat)
    requires d > 0
    ensures a == (a / d) * d + a % d
  {
  }

  lemma Regroup(a: int, b: int, qa: int, qb: int, d: int, p: int)
    requires a - b == qa * d - qb * d
    ensures (a - b) * p == (qa - qb) * (d * p)
  {
    assert (qa - qb) * d == qa * d - qb * d;
    assert ((qa - qb) * d) * p == (qa - qb) * (d * p);
  }

  /** Two pages less than the whole space apart have different indices. */
  lemma IndicesInjective(f: Format, v: nat, w: nat)
    requires f.fan > 0 && Indices(f, v) == Indices(f, w) && v - w < Pow(f.fan, f.levels) && w - v < Pow(f.fan, f.levels)
    ensures v == w
  {
    hide Pow, Indices;
    IndicesIff(f, v, w);
    NearIsSame(v - w, Pow(f.fan, f.levels));
  }

  lemma Small(k: int, p: int)
    requires -p < k * p < p
    ensures k * p == 0
  {
    assert k >= 1 ==> (k - 1) * p >= 0 || p < 0;
    assert k <= -1 ==> (-k - 1) * p >= 0 || p < 0;
  }

  /** In numbers: the shifts and masks of Sv39 and of Sv32. */
  lemma FormatsAgree(vpn: nat)
    ensures Indices(Format(512, 3, 0), vpn) == [vpn / 0x4_0000 % 512, vpn / 512 % 512, vpn % 512]
    ensures Indices(Format(1024, 2, 0), vpn) == [vpn / 1024 % 1024, vpn % 1024]
  {
    assert Shift(512, vpn, 0) == vpn && Shift(512, vpn, 1) == vpn / 512 && Shift(512, vpn, 2) == vpn / 512 / 512;
    assert vpn / 512 / 512 == vpn / 0x4_0000;
    assert Shift(1024, vpn, 1) == vpn / 1024;
  }

  lemma PowStep(fan: nat, k: nat, e: nat)
    ensures k * Pow(fan, e + 1) == (k * Pow(fan, e)) * fan
  {
    Exchange(k, fan, Pow(fan, e));
  }

  lemma Exchange(k: nat, b: nat, p: nat)
    ensures k * (b * p) == (k * p) * b
  {
  }

  /** Only the index bits of an address count: pages a whole space apart share their entry. */
  lemma IndicesAlias(f: Format, v: nat, k: nat)
    requires f.fan > 0
    ensures Indices(f, v + k * Pow(f.fan, f.levels)) == Indices(f, v)
  {
    hide Shift, Pow;
    var w := v + k * Pow(f.fan, f.levels);
    forall j | 0 <= j < f.levels ensures Indices(f, w)[j] == Indices(f, v)[j] {
      IndexAlias(f, v, k, f.levels - 1 - j);
    }
  }

  lemma IndexAlias(f: Format, v: nat, k: nat, l: nat)
    requires f.fan > 0 && l < f.levels
    ensures Index(f.fan, v + k * Pow(f.fan, f.levels), l) == Index(f.fan, v, l)
  {
    hide Shift, Pow;
    ShiftMultiple(f, v, k, l);
    PowStep(f.fan, k, f.levels - l - 1);
    ModMultiple(Shift(f.fan, v, l), k * Pow(f.fan, f.levels - l - 1), f.fan);
  }

  lemma {:induction false} ShiftMultiple(f: Format, v: nat, k: nat, l: nat)
    requires f.fan > 0 && l <= f.levels
    ensures Shift(f.fan, v + k * Pow(f.fan, f.levels), l) == Shift(f.fan, v, l) + k * Pow(f.fan, f.levels - l)
  {
    hide Pow;
    if l > 0 {
      ShiftMultiple(f, v, k, l - 1);
      PowStep(f.fan, k, f.levels - l);
      ModMultiple(Shift(f.fan, v, l - 1), k * Pow(f.fan, f.levels - l), f.fan);
    }
  }

  lemma {:induction false} ModMultiple(x: nat, m: nat, d: nat)
    requires d > 0
    ensures (x + m * d) / d == x / d + m && (x + m * d) % d == x % d
  {
    if m > 0 {
      ModMultiple(x, m - 1, d);
      assert x + m * d == (x + (m - 1) * d) + d;
      OneMore(x + (m - 1) * d, d);
    }
  }

  lemma OneMore(y: nat, d: nat)
    requires d > 0
    ensures (y + d) / d == y / d + 1 && (y + d) % d == y % d
  {
    var q, r := y / d, y % d;
    Divided(y, d);
    Divided(y + d, d);
    var q', r' := (y + d) / d, (y + d) % d;
    assert (q' - q - 1) * d == r - r' by { assert (q' - q - 1) * d == q' * d - q * d - d; }
    Small(q' - q - 1, d);
    Zero(q' - q - 1, d);
  }

  lemma Zero(k: int, d: int)
    requires d > 0 && k * d == 0
    ensures k == 0
  {
  }

  lemma {:induction false} PowPositive(b: nat, e: nat)
    requires b > 0
    ensures Pow(b, e) > 0
  {
    if e > 0 {
      PowPositive(b, e - 1);
    }
  }

  lemma MultipleMod(k: int, p: int)
    requires p > 0
    ensures (k * p) % p == 0
  {
    var q, r := (k * p) / p, (k * p) % p;
    assert (k - q) * p == r by { assert (k - q) * p == k * p - q * p; }
    Small(k - q, p);
  }

  /** Two pages share their entry exactly when they are a multiple of the whole space apart. */
  lemma IndicesIff(f: Format, v: nat, w: nat)
    requires f.fan > 0
    ensures Pow(f.fan, f.levels) > 0
    ensures Indices(f, v) == Indices(f, w) <==> (v - w) % Pow(f.fan, f.levels) == 0
  {
    hide Shift, Pow;
    var p := Pow(f.fan, f.levels);
    PowPositive(f.fan, f.levels);
    if Indices(f, v) == Indices(f, w) {
      forall l | 0 <= l < f.levels ensures Index(f.fan, v, l) == Index(f.fan, w, l) {
        assert Indices(f, v)[f.levels - 1 - l] == Indices(f, w)[f.levels - 1 - l];
      }
      SameIndices(f.fan, v, w, f.levels);
      MultipleMod(Shift(f.fan, v, f.levels) - Shift(f.fan, w, f.levels), p);
    }
    if (v - w) % p == 0 {
      var q := Quotient(v - w, p);
      if q >= 0 {
        IndicesAlias(f, w, q);
      } else {
        IndicesAlias(f, v, -q);
      }
    }
  }

  lemma Quotient(d: int, p: int) returns (q: int)
    requires p > 0 && d % p == 0
    ensures d == q * p && -d == (-q) * p && (d >= 0 <==> q >= 0)
  {
    q := d / p;
    assert (-q) * p == -(q * p);
    assert q >= 0 ==> q * p >= 0;
  }

  // ----- the flat map -----

  type Flat = map<Path, Pte>

  function Lookup(flat: Flat, ix: Path): Option<Pte> {
    if ix in flat then Some(flat[ix]) else None
  }

  /** The table translates as the flat map does. */
  ghost predicate Refines(mem: map<Page, seq<Pte>>, f: Format, flat: Flat) {
    f.levels > 0 && forall ix: Path :: |ix| == f.levels ==> Translate(mem, f.root, ix) == Lookup(flat, ix)
  }

  /** PTE_BUILD with the flags every mapping gets. */
  function Entry(pa: nat, flags: set<Flag>): Pte {
    Pte(pa / PAGE_SIZE, flags + {V, A, D})
  }

  /** The first n pages of a region. */
  function MapPages(flat: Flat, f: Format, vpn: nat, pa: nat, n: nat, flags: set<Flag>): Flat
    requires f.fan > 0
  {
    if n == 0 then flat
    else MapPages(flat, f, vpn, pa, n - 1, flags)[Indices(f, vpn + n - 1) := Entry(pa + (n - 1) * PAGE_SIZE, flags)]
  }

  lemma CreatedRefines(t: Tables, f: Format, path: map<Page, Path>, flat: Flat, p: Page, i: nat)
    requires Inv(t, f, path) && CanCreate(t, f, path, p, i) && Refines(t.mem, f, flat)
    ensures Refines(Created(t, p, i).mem, f, flat)
  {
    forall ix: Path | |ix| == f.levels ensures Translate(Created(t, p, i).mem, f.root, ix) == Lookup(flat, ix) {
      CreatedTranslate(t, f, path, p, i, ix);
    }
  }

  lemma SetRefines(t: Tables, f: Format, path: map<Page, Path>, flat: Flat, p: Page, i: nat, e: Pte)
    requires Inv(t, f, path) && IsLeaf(t, f, path, p, i) && V in e.flags && Refines(t.mem, f, flat)
    ensures Refines(Set(t, p, i, e).mem, f, flat[path[p] + [i] := e])
  {
    forall ix: Path | |ix| == f.levels
      ensures Translate(Set(t, p, i, e).mem, f.root, ix) == Lookup(flat[path[p] + [i] := e], ix)
    {
      SetTranslate(t, f, path, p, i, e, ix);
    }
  }

  lemma PageFacts(t: Tables, f: Format, path: map<Page, Path>, p: Page)
    requires Inv(t, f, path) && p in path
    ensures f.fan > 0 && f.levels > 0 && p in t.mem && |t.mem[p]| == f.fan && |path[p]| < f.levels
    ensures forall i :: 0 <= i < f.fan && |path[p]| + 1 < f.levels && V in t.mem[p][i].flags ==>
      t.mem[p][i].ppn in path && path[t.mem[p][i].ppn] == path[p] + [i]
  {
  }

  lemma RootFacts(t: Tables, f: Format, path: map<Page, Path>)
    requires Inv(t, f, path)
    ensures f.fan > 0 && f.levels > 0 && f.root in path && path[f.root] == []
  {
  }

  // ----- the builder -----

  datatype Region = Region(va: nat, pa: nat, size: nat, flags: set<Flag>, reserved: bool)

  class Builder {
    const f: Format
    var t: Tables
    ghost var path: map<Page, Path>
    ghost var flat: Flat

    /** Tables unshared and reached from the root, and the translation that of the flat map. */
    ghost predicate Valid()
      reads this
    {
      Inv(t, f, path) && Refines(t.mem, f, flat)
    }

    /** An empty root table and `count` more zeroed pages behind it. */
    constructor (fan: nat, levels: nat, root: Page, count: nat)
      requires fan > 0 && levels > 0
      ensures Valid() && f == Format(fan, levels, root) && flat == map[] && t.nextFree == root + 1 && t.free == count
    {
      f := Format(fan, levels, root);
      t := Tables(ZeroPages(root, count + 1, fan), root + 1, count);
      path := map[root := []];
      flat := map[];
      new;
      EmptyTables(t, f, path);
    }

    /** early_vm_alloc_page, for the entry that will point to the page; None is early_panic. */
    method AllocPage() returns (r: Option<Page>)
      modifies this`t
      ensures r.None? <==> old(t.free) == 0
      ensures r.None? ==> t == old(t)
      ensures r.Some? ==>
        && r.value == old(t.nextFree) && t == old(t).(nextFree := old(t.nextFree) + 1, free := t.free)
        && t.free == old(t.free) - 1
    {
      if t.free == 0 {
        return None;
      }
      r := Some(t.nextFree);
      t := t.(nextFree := t.nextFree + 1);
      t := t.(free := t.free - 1);
    }

    /** early_vm_walk: the last-level table for a page, made if it was missing; None is early_panic. */
    method Walk(vpn: nat) returns (r: Option<Page>)
      requires Valid()
      modifies this
      ensures flat == old(flat) && t.nextFree + t.free == old(t.nextFree + t.free)
      ensures r.None? ==> t.free == 0
      ensures r.Some? ==> Valid() && f.fan > 0 && IsLeaf(t, f, path, r.value, Index(f.fan, vpn, 0))
      ensures r.Some? ==> path[r.value] + [Index(f.fan, vpn, 0)] == Indices(f, vpn)
    {
      hide Inv, Refines;
      RootFacts(t, f, path);
      ghost var ix := Indices(f, vpn);
      var pgtable := f.root;
      var level := f.levels - 1;
      while level > 0
        invariant 0 <= level < f.levels && Valid() && pgtable in path && path[pgtable] == ix[..f.levels - 1 - level]
        invariant flat == old(flat) && t.nextFree + t.free == old(t.nextFree + t.free)
        decreases level
      {
        var index := Index(f.fan, vpn, level);
        assert ix[..f.levels - level] == ix[..f.levels - 1 - level] + [index];
        var next := Step(pgtable, index);
        if next.None? {
          return None;
        }
        pgtable := next.value;
        level := level - 1;
      }
      PageFacts(t, f, path, pgtable);
      assert ix == ix[..f.levels - 1] + [Index(f.fan, vpn, 0)];
      return Some(pgtable);
    }

    /** One level down, through a new table if there was none. */
    method Step(pgtable: Page, index: nat) returns (r: Option<Page>)
      requires Valid() && pgtable in path && index < f.fan && |path[pgtable]| + 1 < f.levels
      modifies this
      ensures flat == old(flat) && t.nextFree + t.free == old(t.nextFree + t.free)
      ensures r.None? ==> t.free == 0
      ensures r.Some? ==> Valid() && r.value in path && path[r.value] == old(path[pgtable]) + [index]
    {
      hide Inv, Refines;
      PageFacts(t, f, path, pgtable);
      if V !in t.mem[pgtable][index].flags {
        if t.free > 0 {
          CreatedInv(t, f, path, pgtable, index);
          CreatedRefines(t, f, path, flat, pgtable, index);
        }
        ghost var before := t;
        var page := AllocPage();
        if page.None? {
          return None;
        }
        t := t.(mem := t.mem[pgtable := t.mem[pgtable][index := Pte(page.value, {V})]]);
        assert t == Created(before, pgtable, index);
        path := path[page.value := path[pgtable] + [index]];
      }
      r := Some(t.mem[pgtable][index].ppn);
      NextFacts(old(t), f, old(path), pgtable, index);
    }

    /** early_vm_map: false is early_panic. */
    method Map(va: nat, pa: nat, size: nat, flags: set<Flag>) returns (ok: bool)
      requires Valid()
      modifies this
      ensures t.nextFree + t.free == old(t.nextFree + t.free)
      ensures !ok ==> va % PAGE_SIZE != 0 || size % PAGE_SIZE != 0 || t.free == 0
      ensures ok ==> Valid() && va % PAGE_SIZE == 0 && size % PAGE_SIZE == 0 && f.fan > 0
      ensures ok ==> flat == MapPages(old(flat), f, va / PAGE_SIZE, pa, size / PAGE_SIZE, flags)
    {
      hide Inv, Refines;
      RootFacts(t, f, path);
      if va % PAGE_SIZE != 0 || size % PAGE_SIZE != 0 {
        return false;
      }
      var offset := 0;
      ghost var k := 0;
      while offset < size
        invariant offset == k * PAGE_SIZE && k <= size / PAGE_SIZE && Valid()
        invariant t.nextFree + t.free == old(t.nextFree + t.free)
        invariant flat == MapPages(old(flat), f, va / PAGE_SIZE, pa, k, flags)
      {
        assert (va + offset) / PAGE_SIZE == va / PAGE_SIZE + k;
        var done := MapOne((va + offset) / PAGE_SIZE, pa + offset, flags);
        if !done {
          return false;
        }
        offset := offset + PAGE_SIZE;
        k := k + 1;
      }
      return true;
    }

    /** The body of that loop. */
    method MapOne(vpn: nat, pa: nat, flags: set<Flag>) returns (ok: bool)
      requires Valid()
      modifies this
      ensures t.nextFree + t.free == old(t.nextFree + t.free)
      ensures !ok ==> t.free == 0
      ensures ok ==> Valid() && f.fan > 0 && flat == old(flat)[Indices(f, vpn) := Entry(pa, flags)]
    {
      hide Inv, Refines;
      var lastLevel := Walk(vpn);
      if lastLevel.None? {
        return false;
      }
      var p, index := lastLevel.value, Index(f.fan, vpn, 0);
      var e := Entry(pa, flags);
      SetInv(t, f, path, p, index, e);
      SetRefines(t, f, path, flat, p, index, e);
      t := Set(t, p, index, e);
      flat := flat[Indices(f, vpn) := e];
      return true;
    }

    /** The loop over the memory map: reserved regions and those without access are skipped. */
    method MapRegions(regions: seq<Region>) returns (ok: bool)
      requires Valid() && f.fan > 0
      modifies this
      ensures t.nextFree + t.free == old(t.nextFree + t.free)
      ensures ok ==> Valid() && flat == MapAll(old(flat), f, regions)
      ensures ok && Spread(f, regions) ==> Maps(t.mem, f, regions)
      ensures ok ==> forall ix: Path :: |ix| == f.levels && Outside(f, regions, ix) ==>
        Translate(t.mem, f.root, ix) == old(Translate(t.mem, f.root, ix))
      ensures !ok ==>
        t.free == 0 || exists r :: r in regions && Wanted(r) && (r.va % PAGE_SIZE != 0 || r.size % PAGE_SIZE != 0)
    {
      hide Inv, Refines;
      RootFacts(t, f, path);
      var i := 0;
      assert regions[..0] == [];
      while i < |regions|
        invariant i <= |regions| && Valid() && flat == MapAll(old(flat), f, regions[..i])
        invariant t.nextFree + t.free == old(t.nextFree + t.free)
      {
        var r := regions[i];
        assert regions[..i + 1][..i] == regions[..i];
        if Wanted(r) {
          ok := Map(r.va, r.pa, r.size, r.flags);
          if !ok {
            return false;
          }
        }
        i := i + 1;
      }
      assert regions[..i] == regions;
      if Spread(f, regions) {
        SpreadMaps(t.mem, f, old(flat), regions);
      }
      forall ix: Path | |ix| == f.levels && Outside(f, regions, ix)
        ensures Translate(t.mem, f.root, ix) == old(Translate(t.mem, f.root, ix))
      {
        OutsideTranslate(t.mem, old(t.mem), f, old(flat), regions, ix);
      }
      return true;
    }
  }

  function ZeroPages(first: Page, count: nat, fan: nat): (r: map<Page, seq<Pte>>)
    ensures forall p ::
      first <= p < first + count ==> p in r && |r[p]| == fan && forall i :: 0 <= i < fan ==> r[p][i] == ZERO
  {
    if count == 0 then map[] else ZeroPages(first, count - 1, fan)[first + count - 1 := seq(fan, i => ZERO)]
  }

  lemma EmptyTables(t: Tables, f: Format, path: map<Page, Path>)
    requires f.fan > 0 && f.levels > 0 && path == map[f.root := []] && t.nextFree == f.root + 1
    requires forall p :: f.root <= p < t.nextFree + t.free ==>
      p in t.mem && |t.mem[p]| == f.fan && forall i :: 0 <= i < f.fan ==> t.mem[p][i] == ZERO
    ensures Inv(t, f, path) && Refines(t.mem, f, map[])
  {
    assert Pages(t, f, path);
    forall ix: Path | |ix| == f.levels ensures Translate(t.mem, f.root, ix).None? {
      var front := ix[..|ix| - 1];
      assert front != [] ==> Descend(t.mem, f.root, front).None?;
    }
  }

  lemma NextFacts(t: Tables, f: Format, path: map<Page, Path>, p: Page, i: nat)
    requires Inv(t, f, path) && p in path && i < f.fan && |path[p]| + 1 < f.levels
    ensures p in t.mem && i < |t.mem[p]|
    ensures (V in t.mem[p][i].flags ==> t.mem[p][i].ppn in path && path[t.mem[p][i].ppn] == path[p] + [i])
    ensures p != t.nextFree
  {
  }

  // ----- lists of regions -----

  predicate Wanted(r: Region) {
    !r.reserved && r.flags != {}
  }

  function MapAll(flat: Flat, f: Format, regions: seq<Region>): Flat
    requires f.fan > 0
  {
    if regions == [] then flat else
    var r := regions[|regions| - 1];
    var before := MapAll(flat, f, regions[..|regions| - 1]);
    if Wanted(r) then MapPages(before, f, r.va / PAGE_SIZE, r.pa, r.size / PAGE_SIZE, r.flags) else before
  }

  /** Page k of a region. */
  ghost predicate IsPage(f: Format, r: Region, k: nat, ix: Path)
    requires f.fan > 0
  {
    Wanted(r) && k < r.size / PAGE_SIZE && ix == Indices(f, r.va / PAGE_SIZE + k)
  }

  /** No page of the space belongs to two pages of the regions. */
  ghost predicate Disjoint(f: Format, regions: seq<Region>)
    requires f.fan > 0
  {
    forall i, j, k: nat, m: nat, ix: Path {:trigger IsPage(f, regions[i], k, ix), IsPage(f, regions[j], m, ix)} ::
      0 <= i < |regions| && 0 <= j < |regions| && IsPage(f, regions[i], k, ix) && IsPage(f, regions[j], m, ix) ==>
      i == j && k == m
  }

  /** The same in numbers: no two pages of the regions are a multiple of the whole space apart. */
  ghost predicate Spread(f: Format, regions: seq<Region>)
    requires f.fan > 0
  {
    forall i, j, k: nat, m: nat {:trigger PageOf(regions[i], k), PageOf(regions[j], m)} ::
      0 <= i < |regions| && 0 <= j < |regions| && HasPage(regions[i], k) && HasPage(regions[j], m) ==>
      Together(f, PageOf(regions[i], k), PageOf(regions[j], m)) ==> i == j && k == m
  }

  ghost predicate Together(f: Format, v: nat, w: nat)
    requires f.fan > 0
  {
    Pow(f.fan, f.levels) > 0 && (v - w) % Pow(f.fan, f.levels) == 0
  }

  predicate HasPage(r: Region, k: nat) {
    Wanted(r) && k < r.size / PAGE_SIZE
  }

  function EntryOf(r: Region, k: nat): Pte {
    Entry(r.pa + k * PAGE_SIZE, r.flags)
  }

  function PageOf(r: Region, k: nat): nat {
    r.va / PAGE_SIZE + k
  }

  lemma TogetherIff(f: Format, v: nat, w: nat)
    requires f.fan > 0
    ensures Together(f, v, w) <==> Indices(f, v) == Indices(f, w)
  {
    hide Indices, Pow;
    IndicesIff(f, v, w);
  }

  lemma SpreadIsDisjoint(f: Format, regions: seq<Region>)
    requires f.fan > 0
    ensures Spread(f, regions) <==> Disjoint(f, regions)
  {
    hide Together, Indices;
    if Spread(f, regions) {
      forall i, j, k: nat, m: nat, ix: Path | 0 <= i < |regions| && 0 <= j < |regions|
        && IsPage(f, regions[i], k, ix) && IsPage(f, regions[j], m, ix)
        ensures i == j && k == m
      {
        TogetherIff(f, PageOf(regions[i], k), PageOf(regions[j], m));
      }
    }
    if Disjoint(f, regions) {
      forall i, j, k: nat, m: nat | 0 <= i < |regions| && 0 <= j < |regions|
        && HasPage(regions[i], k) && HasPage(regions[j], m) && Together(f, PageOf(regions[i], k), PageOf(regions[j], m))
        ensures i == j && k == m
      {
        TogetherIff(f, PageOf(regions[i], k), PageOf(regions[j], m));
        assert IsPage(f, regions[i], k, Indices(f, PageOf(regions[i], k)));
        assert IsPage(f, regions[j], m, Indices(f, PageOf(regions[i], k)));
      }
    }
  }

  /** Regions that lie in one window of the space and do not overlap in it are spread. */
  lemma WindowSpread(f: Format, regions: seq<Region>, base: nat)
    requires f.fan > 0
    requires forall i :: 0 <= i < |regions| && Wanted(regions[i]) ==> InWindow(f, regions[i], base)
    requires forall i, j :: 0 <= i < j < |regions| && Wanted(regions[i]) && Wanted(regions[j]) ==>
      Beside(regions[i], regions[j])
    ensures Spread(f, regions)
  {
    hide Pow;
    forall i, j, k: nat, m: nat | 0 <= i < |regions| && 0 <= j < |regions|
      && HasPage(regions[i], k) && HasPage(regions[j], m) && Together(f, PageOf(regions[i], k), PageOf(regions[j], m))
      ensures i == j && k == m
    {
      assert InWindow(f, regions[i], base) && InWindow(f, regions[j], base);
      NearIsSame(PageOf(regions[i], k) - PageOf(regions[j], m), Pow(f.fan, f.levels));
    }
  }

  ghost predicate InWindow(f: Format, r: Region, base: nat) {
    base <= PageOf(r, 0) && PageOf(r, r.size / PAGE_SIZE) <= base + Pow(f.fan, f.levels)
  }

  /** One ends before the other begins. */
  predicate Beside(r: Region, q: Region) {
    PageOf(r, r.size / PAGE_SIZE) <= PageOf(q, 0) || PageOf(q, q.size / PAGE_SIZE) <= PageOf(r, 0)
  }

  lemma NearIsSame(d: int, p: int)
    requires p > 0 && d % p == 0 && -p < d < p
    ensures d == 0
  {
    var q := Quotient(d, p);
    Small(q, p);
  }

  /** The tables translate every page of every region to its physical page and flags. */
  ghost predicate Maps(mem: map<Page, seq<Pte>>, f: Format, regions: seq<Region>)
    requires f.fan > 0
  {
    f.levels > 0 && forall i, k: nat {:trigger PageOf(regions[i], k)} ::
      0 <= i < |regions| && HasPage(regions[i], k) ==>
      Translate(mem, f.root, Indices(f, PageOf(regions[i], k))) == Some(EntryOf(regions[i], k))
  }

  ghost predicate Outside(f: Format, regions: seq<Region>, ix: Path)
    requires f.fan > 0
  {
    forall i, k: nat :: 0 <= i < |regions| ==> !IsPage(f, regions[i], k, ix)
  }

  lemma SpreadMaps(mem: map<Page, seq<Pte>>, f: Format, flat: Flat, regions: seq<Region>)
    requires f.fan > 0 && Spread(f, regions) && Refines(mem, f, MapAll(flat, f, regions))
    ensures Maps(mem, f, regions)
  {
    hide Spread, Disjoint, MapAll;
    SpreadIsDisjoint(f, regions);
    forall i, k: nat | 0 <= i < |regions| && HasPage(regions[i], k)
      ensures Translate(mem, f.root, Indices(f, PageOf(regions[i], k))) == Some(EntryOf(regions[i], k))
    {
      EveryPageMapped(flat, f, regions, i, k, Indices(f, PageOf(regions[i], k)));
    }
  }

  lemma OutsideTranslate(mem: map<Page, seq<Pte>>, mem0: map<Page, seq<Pte>>, f: Format, flat: Flat,
                         regions: seq<Region>, ix: Path)
    requires f.fan > 0 && Refines(mem0, f, flat) && Refines(mem, f, MapAll(flat, f, regions))
    requires |ix| == f.levels && Outside(f, regions, ix)
    ensures Translate(mem, f.root, ix) == Translate(mem0, f.root, ix)
  {
    hide MapAll;
    OutsideUnchanged(flat, f, regions, ix);
  }

  lemma {:induction false} MapPagesAt(flat: Flat, f: Format, r: Region, n: nat, ix: Path)
    requires f.fan > 0 && Wanted(r) && n <= r.size / PAGE_SIZE
    ensures (forall k: nat :: k < n ==> !IsPage(f, r, k, ix)) ==>
      Lookup(MapPages(flat, f, r.va / PAGE_SIZE, r.pa, n, r.flags), ix) == Lookup(flat, ix)
  {
    if n > 0 {
      MapPagesAt(flat, f, r, n - 1, ix);
      if forall k: nat :: k < n ==> !IsPage(f, r, k, ix) {
        assert !IsPage(f, r, n - 1, ix);
      }
    }
  }

  lemma {:induction false} MapPagesHit(flat: Flat, f: Format, r: Region, n: nat, k: nat, ix: Path)
    requires f.fan > 0 && n <= r.size / PAGE_SIZE && k < n && IsPage(f, r, k, ix)
    requires forall m: nat :: IsPage(f, r, m, ix) ==> m == k
    ensures Lookup(MapPages(flat, f, r.va / PAGE_SIZE, r.pa, n, r.flags), ix) == Some(EntryOf(r, k))
  {
    if k < n - 1 {
      MapPagesHit(flat, f, r, n - 1, k, ix);
      assert !IsPage(f, r, n - 1, ix);
    }
  }

  /** Pages outside all regions are as before. */
  lemma {:induction false} OutsideUnchanged(flat: Flat, f: Format, regions: seq<Region>, ix: Path)
    requires f.fan > 0 && Outside(f, regions, ix)
    ensures Lookup(MapAll(flat, f, regions), ix) == Lookup(flat, ix)
  {
    if regions != [] {
      var n := |regions| - 1;
      assert forall i :: 0 <= i < n ==> regions[..n][i] == regions[i];
      OutsideUnchanged(flat, f, regions[..n], ix);
      if Wanted(regions[n]) {
        MapPagesAt(MapAll(flat, f, regions[..n]), f, regions[n], regions[n].size / PAGE_SIZE, ix);
      }
    }
  }

  /** Every page of every region maps to exactly its region's physical page and flags, whatever was mapped after it. */
  lemma {:induction false} EveryPageMapped(flat: Flat, f: Format, regions: seq<Region>, i: nat, k: nat, ix: Path)
    requires f.fan > 0 && Disjoint(f, regions) && i < |regions| && IsPage(f, regions[i], k, ix)
    ensures Lookup(MapAll(flat, f, regions), ix) == Some(EntryOf(regions[i], k))
    decreases |regions|
  {
    var n := |regions| - 1;
    var before := MapAll(flat, f, regions[..n]);
    var r := regions[n];
    if i == n {
      forall m: nat | IsPage(f, r, m, ix) ensures m == k {
        assert IsPage(f, regions[n], m, ix) && IsPage(f, regions[i], k, ix);
      }
      MapPagesHit(before, f, r, r.size / PAGE_SIZE, k, ix);
    } else {
      DisjointPrefix(f, regions, n);
      EveryPageMapped(flat, f, regions[..n], i, k, ix);
      if Wanted(r) {
        forall m: nat ensures !IsPage(f, r, m, ix) {
          OtherRegion(f, regions, i, k, n, m, ix);
        }
        MapPagesAt(before, f, r, r.size / PAGE_SIZE, ix);
      }
    }
  }

  lemma OtherRegion(f: Format, regions: seq<Region>, i: nat, k: nat, j: nat, m: nat, ix: Path)
    requires f.fan > 0 && Disjoint(f, regions) && i < |regions| && j < |regions| && i != j
    requires IsPage(f, regions[i], k, ix)
    ensures !IsPage(f, regions[j], m, ix)
  {
  }

  lemma DisjointPrefix(f: Format, regions: seq<Region>, n: nat)
    requires f.fan > 0 && Disjoint(f, regions) && n <= |regions|
    ensures Disjoint(f, regions[..n])
  {
  }
}
