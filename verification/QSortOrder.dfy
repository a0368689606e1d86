/** Element-level reasoning for the three-way quicksort: orders, permutations of a range, partitions. */
module QSortOrder {
  type Elem = seq<bv8>
  type Compare = (Elem, Elem) -> int

  /** A total preorder, as qsort asks of its comparison. */
  ghost predicate IsOrder(cmp: Compare) {
    && (forall x, y :: cmp(x, y) < 0 <==> cmp(y, x) > 0)
    && (forall x, y, z :: cmp(x, y) <= 0 && cmp(y, z) <= 0 ==> cmp(x, z) <= 0)
  }

  predicate Less(cmp: Compare, x: Elem, y: Elem) { cmp(x, y) < 0 }
  predicate Same(cmp: Compare, x: Elem, y: Elem) { cmp(x, y) == 0 }
  predicate AtMost(cmp: Compare, x: Elem, y: Elem) { cmp(x, y) <= 0 }

  /** Comparing with an element equal to the pivot is comparing with the pivot. */
  lemma Via(cmp: Compare, x: Elem, y: Elem, p: Elem)
    requires IsOrder(cmp) && Same(cmp, y, p)
    ensures cmp(x, y) < 0 <==> Less(cmp, x, p)
    ensures cmp(x, y) == 0 <==> Same(cmp, x, p)
    ensures cmp(x, y) > 0 <==> Less(cmp, p, x)
    ensures cmp(y, x) < 0 <==> Less(cmp, p, x)
    ensures cmp(y, x) == 0 <==> Same(cmp, x, p)
    ensures cmp(y, x) > 0 <==> Less(cmp, x, p)
  {
    assert cmp(p, y) == 0;
    assert cmp(x, y) <= 0 ==> cmp(x, p) <= 0;
    assert cmp(x, p) <= 0 ==> cmp(x, y) <= 0;
    assert cmp(y, x) <= 0 ==> cmp(p, x) <= 0;
    assert cmp(p, x) <= 0 ==> cmp(y, x) <= 0;
  }

  lemma Through(cmp: Compare, x: Elem, p: Elem, y: Elem)
    requires IsOrder(cmp) && AtMost(cmp, x, p) && AtMost(cmp, p, y)
    ensures AtMost(cmp, x, y)
  {
  }

  // ----- permutations of a range -----

  ghost predicate Perm(a: seq<Elem>, b: seq<Elem>, lo: nat, hi: nat) {
    && |a| == |b| && lo <= hi <= |a|
    && (forall k :: 0 <= k < |a| && !(lo <= k < hi) ==> b[k] == a[k])
    && multiset(b[lo..hi]) == multiset(a[lo..hi])
  }

  lemma PermTrans(a: seq<Elem>, b: seq<Elem>, c: seq<Elem>, lo: nat, hi: nat)
    requires Perm(a, b, lo, hi) && Perm(b, c, lo, hi)
    ensures Perm(a, c, lo, hi)
  {
  }

  lemma PermWiden(a: seq<Elem>, b: seq<Elem>, lo: nat, hi: nat, lo': nat, hi': nat)
    requires Perm(a, b, lo, hi) && lo' <= lo && hi <= hi' <= |a|
    ensures Perm(a, b, lo', hi')
  {
    assert a[lo'..hi'] == a[lo'..lo] + a[lo..hi] + a[hi..hi'];
    assert b[lo'..hi'] == b[lo'..lo] + b[lo..hi] + b[hi..hi'];
    assert a[lo'..lo] == b[lo'..lo] && a[hi..hi'] == b[hi..hi'];
  }

  function Swapped(v: seq<Elem>, i: nat, j: nat): (r: seq<Elem>)
    requires i < |v| && j < |v|
    ensures |r| == |v|
  {
    v[i := v[j]][j := v[i]]
  }

  /** a <- c, b <- a, c <- b; when b and c are one element this is a swap. */
  function Rotated(v: seq<Elem>, a: nat, b: nat, c: nat): (r: seq<Elem>)
    requires a < |v| && b < |v| && c < |v|
    ensures |r| == |v|
  {
    v[a := v[c]][c := v[b]][b := v[a]]
  }

  lemma SwapPerm(v: seq<Elem>, i: nat, j: nat, lo: nat, hi: nat)
    requires lo <= i < hi && lo <= j < hi && hi <= |v|
    ensures Perm(v, Swapped(v, i, j), lo, hi)
  {
    var s, r := v[lo..hi], Swapped(v, i, j)[lo..hi];
    assert r == s[i - lo := s[j - lo]][j - lo := s[i - lo]];
  }

  lemma RotatePerm(v: seq<Elem>, a: nat, b: nat, c: nat, lo: nat, hi: nat)
    requires lo <= a < hi && lo <= b < hi && lo <= c < hi && hi <= |v| && a != b && a != c
    ensures Perm(v, Rotated(v, a, b, c), lo, hi)
  {
    if b == c {
      assert Rotated(v, a, b, c) == Swapped(v, a, b);
      SwapPerm(v, a, b, lo, hi);
    } else {
      var w := Swapped(v, a, c);
      assert Rotated(v, a, b, c) == Swapped(w, c, b);
      SwapPerm(v, a, c, lo, hi);
      SwapPerm(w, c, b, lo, hi);
      PermTrans(v, w, Rotated(v, a, b, c), lo, hi);
    }
  }

  /** What holds of every element of a range holds of its permutations. */
  lemma PermAll(a: seq<Elem>, b: seq<Elem>, lo: nat, hi: nat, k: nat) returns (m: nat)
    requires Perm(a, b, lo, hi) && lo <= k < hi
    ensures lo <= m < hi && a[m] == b[k]
  {
    assert b[lo..hi][k - lo] == b[k];
    assert b[k] in multiset(b[lo..hi]);
    assert b[k] in a[lo..hi];
    var i :| 0 <= i < hi - lo && a[lo..hi][i] == b[k];
    m := lo + i;
  }

  // ----- partitions -----

  /** [lo, pl) below the pivot, [pl, ph] equal to it, (ph, hi) above. */
  ghost predicate Parted(cmp: Compare, v: seq<Elem>, p: Elem, lo: nat, pl: nat, ph: nat, hi: nat) {
    && lo <= pl <= ph < hi <= |v|
    && (forall k :: lo <= k < pl ==> Less(cmp, v[k], p))
    && (forall k :: pl <= k <= ph ==> Same(cmp, v[k], p))
    && (forall k :: ph < k < hi ==> Less(cmp, p, v[k]))
  }

  ghost predicate Sorted(cmp: Compare, v: seq<Elem>, lo: nat, hi: nat) {
    hi <= |v| && forall i, j :: lo <= i < j < hi ==> AtMost(cmp, v[i], v[j])
  }

  /** Sorted but for the order inside the window [a, b). */
  ghost predicate Around(cmp: Compare, v: seq<Elem>, lo: nat, hi: nat, a: nat, b: nat) {
    && lo <= a <= b <= hi <= |v|
    && forall i, j :: lo <= i < j < hi && !(a <= i && j < b) ==> AtMost(cmp, v[i], v[j])
  }

  lemma AroundPerm(cmp: Compare, v: seq<Elem>, w: seq<Elem>, lo: nat, hi: nat, a: nat, b: nat)
    requires Around(cmp, v, lo, hi, a, b) && Perm(v, w, a, b)
    ensures Around(cmp, w, lo, hi, a, b)
  {
    forall i, j | lo <= i < j < hi && !(a <= i && j < b) ensures AtMost(cmp, w[i], w[j]) {
      var i', j' := i, j;
      if a <= i < b {
        i' := PermAll(v, w, a, b, i);
      }
      if a <= j < b {
        j' := PermAll(v, w, a, b, j);
      }
      assert AtMost(cmp, v[i'], v[j']);
    }
  }

  /** One side of a partition sorted: the window shrinks to the other side. */
  lemma ShrinkLeft(cmp: Compare, v: seq<Elem>, w: seq<Elem>, p: Elem, lo: nat, hi: nat, a: nat, b: nat, pl: nat,
                   ph: nat)
    requires IsOrder(cmp) && Around(cmp, v, lo, hi, a, b) && Parted(cmp, v, p, a, pl, ph, b)
    requires Perm(v, w, ph + 1, b) && Sorted(cmp, w, ph + 1, b)
    ensures Around(cmp, w, lo, hi, a, pl)
  {
    PermWiden(v, w, ph + 1, b, a, b);
    AroundPerm(cmp, v, w, lo, hi, a, b);
    PartedPerm(cmp, v, w, p, a, pl, ph, b, ph + 1, b);
    PartedOrder(cmp, w, p, a, pl, ph, b);
  }

  lemma ShrinkRight(cmp: Compare, v: seq<Elem>, w: seq<Elem>, p: Elem, lo: nat, hi: nat, a: nat, b: nat, pl: nat,
                    ph: nat)
    requires IsOrder(cmp) && Around(cmp, v, lo, hi, a, b) && Parted(cmp, v, p, a, pl, ph, b)
    requires Perm(v, w, a, pl) && Sorted(cmp, w, a, pl)
    ensures Around(cmp, w, lo, hi, ph + 1, b)
  {
    PermWiden(v, w, a, pl, a, b);
    AroundPerm(cmp, v, w, lo, hi, a, b);
    PartedPerm(cmp, v, w, p, a, pl, ph, b, a, pl);
    PartedOrder(cmp, w, p, a, pl, ph, b);
  }

  lemma PartedPerm(cmp: Compare, v: seq<Elem>, w: seq<Elem>, p: Elem, lo: nat, pl: nat, ph: nat, hi: nat, a: nat,
                   b: nat)
    requires Parted(cmp, v, p, lo, pl, ph, hi) && Perm(v, w, a, b) && ((a == lo && b == pl) || (a == ph + 1 && b == hi))
    ensures Parted(cmp, w, p, lo, pl, ph, hi)
  {
    forall k | a <= k < b ensures exists m :: a <= m < b && v[m] == w[k] {
      var m := PermAll(v, w, a, b, k);
    }
  }

  /** Elements of different parts, or both equal to the pivot, are in order. */
  lemma PartedOrder(cmp: Compare, v: seq<Elem>, p: Elem, lo: nat, pl: nat, ph: nat, hi: nat)
    requires IsOrder(cmp) && Parted(cmp, v, p, lo, pl, ph, hi)
    ensures forall i, j :: lo <= i < j < hi && !(j < pl) && !(i > ph) ==> AtMost(cmp, v[i], v[j])
  {
    forall i, j | lo <= i < j < hi && !(j < pl) && !(i > ph) ensures AtMost(cmp, v[i], v[j]) {
      assert AtMost(cmp, v[i], p);
      assert AtMost(cmp, p, v[j]);
      Through(cmp, v[i], p, v[j]);
    }
  }
}
