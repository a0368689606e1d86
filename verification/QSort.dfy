/**
 The Unix V7 three-way quicksort (qsort_impl.c) on a byte array.  An element is a block of
 elem_size bytes; a pointer to one is its number.
*/
module QSort {
  import opened Common
  import opened QSortOrder

  // ----- elements in memory -----

  /** The byte where element k starts. */
  function At(es: nat, k: nat): nat {
    k * es
  }

  lemma Next(es: nat, k: nat)
    ensures At(es, k + 1) == At(es, k) + es
  {
  }

  lemma {:induction false} Apart(es: nat, i: nat, j: nat)
    requires i < j
    ensures At(es, i) + es <= At(es, j)
    decreases j
  {
    Next(es, j - 1);
    if i < j - 1 {
      Apart(es, i, j - 1);
    }
  }

  ghost function ElemAt(m: seq<bv8>, es: nat, n: nat, k: nat): Elem
    requires |m| == At(es, n) && k < n
  {
    Apart(es, k, n);
    m[At(es, k)..At(es, k) + es]
  }

  ghost function View(m: seq<bv8>, es: nat, n: nat): (v: seq<Elem>)
    requires |m| == At(es, n)
    ensures |v| == n && forall k :: 0 <= k < n ==> v[k] == ElemAt(m, es, n, k)
  {
    seq(n, k requires 0 <= k < n => ElemAt(m, es, n, k))
  }

  /** Block a of m' is block b of m. */
  ghost predicate Copied(m: seq<bv8>, m': seq<bv8>, a: nat, b: nat, es: nat) {
    |m'| == |m| && a + es <= |m| && b + es <= |m| && forall x :: a <= x < a + es ==> m'[x] == m[x - a + b]
  }

  /** Outside those blocks nothing changed. */
  ghost predicate Only(m: seq<bv8>, m': seq<bv8>, a: nat, b: nat, c: nat, es: nat) {
    && |m'| == |m|
    && forall x :: 0 <= x < |m| && !(a <= x < a + es) && !(b <= x < b + es) && !(c <= x < c + es) ==> m'[x] == m[x]
  }

  predicate Clear(a: nat, b: nat, es: nat) {
    a + es <= b || b + es <= a
  }

  method SwapBytes(mem: array<bv8>, a: nat, b: nat, es: nat)
    requires a + es <= mem.Length && b + es <= mem.Length && (Clear(a, b, es) || a == b)
    modifies mem
    ensures Copied(old(mem[..]), mem[..], a, b, es) && Copied(old(mem[..]), mem[..], b, a, es)
    ensures Only(old(mem[..]), mem[..], a, b, b, es)
  {
    var i := 0;
    while i < es
      invariant i <= es
      invariant forall x :: a <= x < a + i ==> mem[x] == old(mem[x - a + b])
      invariant forall x :: b <= x < b + i ==> mem[x] == old(mem[x - b + a])
      invariant forall x :: 0 <= x < mem.Length && !(a <= x < a + i) && !(b <= x < b + i) ==> mem[x] == old(mem[x])
    {
      var tmp := mem[a + i];
      mem[a + i] := mem[b + i];
      mem[b + i] := tmp;
      i := i + 1;
    }
  }

  /** Block a gets c, b gets a, c gets b, where b and c may be one block. */
  method RotateThree(mem: array<bv8>, a: nat, b: nat, c: nat, es: nat)
    requires a + es <= mem.Length && b + es <= mem.Length && c + es <= mem.Length
    requires Clear(a, b, es) && Clear(a, c, es) && (Clear(b, c, es) || b == c)
    modifies mem
    ensures Copied(old(mem[..]), mem[..], a, c, es) && Copied(old(mem[..]), mem[..], b, a, es)
    ensures b != c ==> Copied(old(mem[..]), mem[..], c, b, es)
    ensures Only(old(mem[..]), mem[..], a, b, c, es)
  {
    hide Copied, Only, Clear;
    var i := 0;
    Nothing(mem[..], a, b, c);
    while i < es
      invariant i <= es
      invariant Copied(old(mem[..]), mem[..], a, c, i) && Copied(old(mem[..]), mem[..], b, a, i)
      invariant b != c ==> Copied(old(mem[..]), mem[..], c, b, i)
      invariant Only(old(mem[..]), mem[..], a, b, c, i)
    {
      ghost var m := mem[..];
      ClearAt(a, b, es, i);
      ClearAt(a, c, es, i);
      var xa := mem[a + i];
      var xb := mem[b + i];
      var xc := mem[c + i];
      mem[a + i] := xc;
      mem[c + i] := xb;
      mem[b + i] := xa;
      assert mem[..] == Cycle(m, a + i, b + i, c + i);
      CycleStep(old(mem[..]), m, a, b, c, i, es);
      i := i + 1;
    }
  }

  ghost function Cycle(m: seq<bv8>, a: nat, b: nat, c: nat): (r: seq<bv8>)
    requires a < |m| && b < |m| && c < |m|
    ensures |r| == |m|
  {
    m[a := m[c]][c := m[b]][b := m[a]]
  }

  lemma Nothing(m: seq<bv8>, a: nat, b: nat, c: nat)
    requires a <= |m| && b <= |m| && c <= |m|
    ensures Copied(m, m, a, c, 0) && Copied(m, m, b, a, 0) && Copied(m, m, c, b, 0) && Only(m, m, a, b, c, 0)
  {
  }

  lemma ClearAt(a: nat, b: nat, es: nat, i: nat)
    requires Clear(a, b, es) && i < es
    ensures a + i != b + i
  {
  }

  /** One byte of a block more. */
  lemma CopyStep(m: seq<bv8>, m1: seq<bv8>, m2: seq<bv8>, a: nat, b: nat, i: nat)
    requires Copied(m, m1, a, b, i) && |m2| == |m| && a + i < |m| && b + i < |m| && m2[a + i] == m[b + i]
    requires forall x :: a <= x < a + i ==> m2[x] == m1[x]
    ensures Copied(m, m2, a, b, i + 1)
  {
  }

  lemma CycleStep(m: seq<bv8>, m1: seq<bv8>, a: nat, b: nat, c: nat, i: nat, es: nat)
    requires i < es && a + es <= |m| == |m1| && b + es <= |m| && c + es <= |m|
    requires Clear(a, b, es) && Clear(a, c, es) && (Clear(b, c, es) || b == c)
    requires Copied(m, m1, a, c, i) && Copied(m, m1, b, a, i) && (b != c ==> Copied(m, m1, c, b, i))
    requires Only(m, m1, a, b, c, i)
    ensures var m2 := Cycle(m1, a + i, b + i, c + i);
      && Copied(m, m2, a, c, i + 1) && Copied(m, m2, b, a, i + 1) && (b != c ==> Copied(m, m2, c, b, i + 1))
      && Only(m, m2, a, b, c, i + 1)
  {
    var m2 := Cycle(m1, a + i, b + i, c + i);
    assert m1[a + i] == m[a + i] && m1[b + i] == m[b + i] && m1[c + i] == m[c + i];
    hide Copied, Only;
    CopyStep(m, m1, m2, a, c, i);
    CopyStep(m, m1, m2, b, a, i);
    if b != c {
      CopyStep(m, m1, m2, c, b, i);
    }
    OnlyStep(m, m1, m2, a, b, c, i);
  }

  lemma OnlyStep(m: seq<bv8>, m1: seq<bv8>, m2: seq<bv8>, a: nat, b: nat, c: nat, i: nat)
    requires Only(m, m1, a, b, c, i) && a + i < |m| && b + i < |m| && c + i < |m|
    requires m2 == Cycle(m1, a + i, b + i, c + i)
    ensures Only(m, m2, a, b, c, i + 1)
  {
  }

  lemma CopiedElem(m: seq<bv8>, m': seq<bv8>, es: nat, n: nat, i: nat, j: nat)
    requires |m| == |m'| == At(es, n) && i < n && j < n && Copied(m, m', At(es, i), At(es, j), es)
    ensures ElemAt(m', es, n, i) == ElemAt(m, es, n, j)
  {
    hide At;
    Apart(es, i, n);
    Apart(es, j, n);
    var x, y := ElemAt(m', es, n, i), ElemAt(m, es, n, j);
    forall k | 0 <= k < es ensures x[k] == y[k] {
      assert x[k] == m'[At(es, i) + k] && y[k] == m[At(es, j) + k];
    }
  }

  lemma UntouchedElem(m: seq<bv8>, m': seq<bv8>, es: nat, n: nat, k: nat, a: nat, b: nat, c: nat)
    requires |m| == At(es, n) && k < n && k != a && k != b && k != c && Only(m, m', At(es, a), At(es, b), At(es, c), es)
    ensures ElemAt(m', es, n, k) == ElemAt(m, es, n, k)
  {
    hide At;
    Apart(es, k, n);
    Distinct(es, k, a);
    Distinct(es, k, b);
    Distinct(es, k, c);
    assert Copied(m, m', At(es, k), At(es, k), es);
    CopiedElem(m, m', es, n, k, k);
  }

  lemma Distinct(es: nat, i: nat, j: nat)
    requires i != j
    ensures Clear(At(es, i), At(es, j), es)
  {
    hide At;
    if i < j {
      Apart(es, i, j);
    } else {
      Apart(es, j, i);
    }
  }

  /** swap_bytes on two elements. */
  method Swap(mem: array<bv8>, es: nat, n: nat, i: nat, j: nat)
    requires mem.Length == At(es, n) && i < n && j < n
    modifies mem
    ensures View(mem[..], es, n) == Swapped(old(View(mem[..], es, n)), i, j)
  {
    hide At, ElemAt, Copied, Only;
    Apart(es, i, n);
    Apart(es, j, n);
    if i != j {
      Distinct(es, i, j);
    }
    SwapBytes(mem, At(es, i), At(es, j), es);
    ghost var v, v' := old(View(mem[..], es, n)), View(mem[..], es, n);
    CopiedElem(old(mem[..]), mem[..], es, n, i, j);
    CopiedElem(old(mem[..]), mem[..], es, n, j, i);
    forall k | 0 <= k < n ensures v'[k] == Swapped(v, i, j)[k] {
      if k != i && k != j {
        UntouchedElem(old(mem[..]), mem[..], es, n, k, i, j, j);
      }
    }
  }

  /** rotate_three on elements, the second and third possibly one. */
  method Rotate(mem: array<bv8>, es: nat, n: nat, a: nat, b: nat, c: nat)
    requires mem.Length == At(es, n) && a < n && b < n && c < n && es > 0 && a != b && a != c
    modifies mem
    ensures View(mem[..], es, n) == Rotated(old(View(mem[..], es, n)), a, b, c)
  {
    hide At, ElemAt, Copied, Only;
    Apart(es, a, n);
    Apart(es, b, n);
    Apart(es, c, n);
    Distinct(es, a, b);
    Distinct(es, a, c);
    if b != c {
      Distinct(es, b, c);
    }
    RotateThree(mem, At(es, a), At(es, b), At(es, c), es);
    ghost var v, v' := old(View(mem[..], es, n)), View(mem[..], es, n);
    CopiedElem(old(mem[..]), mem[..], es, n, a, c);
    CopiedElem(old(mem[..]), mem[..], es, n, b, a);
    if b != c {
      CopiedElem(old(mem[..]), mem[..], es, n, c, b);
    }
    forall k | 0 <= k < n ensures v'[k] == Rotated(v, a, b, c)[k] {
      if k != a && k != b && k != c {
        UntouchedElem(old(mem[..]), mem[..], es, n, k, a, b, c);
      }
    }
  }

  /** The comparison looks at the bytes of two elements. */
  method Compared(mem: array<bv8>, es: nat, n: nat, i: nat, j: nat, cmp: Compare) returns (r: int)
    requires mem.Length == At(es, n) && i < n && j < n
    ensures r == cmp(View(mem[..], es, n)[i], View(mem[..], es, n)[j])
  {
    hide At;
    Apart(es, i, n);
    Apart(es, j, n);
    var x, y := mem[At(es, i)..At(es, i) + es], mem[At(es, j)..At(es, j) + es];
    assert x == mem[..][At(es, i)..At(es, i) + es] && y == mem[..][At(es, j)..At(es, j) + es];
    r := cmp(x, y);
  }

  // ----- one partition -----

  /** What the loop knows: [lo, left) below the pivot, [pl, ph] equal, (right, hi) above. */
  ghost predicate Sides(cmp: Compare, v: seq<Elem>, p: Elem, lo: nat, left: nat, pl: nat, ph: nat, right: nat,
                        hi: nat) {
    && lo <= left <= pl <= ph <= right < hi <= |v|
    && (forall k :: lo <= k < left ==> Less(cmp, v[k], p))
    && (forall k :: pl <= k <= ph ==> Same(cmp, v[k], p))
    && (forall k :: right < k < hi ==> Less(cmp, p, v[k]))
  }

  /** At the label loop_right nothing is left to do on the left side. */
  ghost predicate LeftDone(cmp: Compare, v: seq<Elem>, p: Elem, left: nat, pl: nat) {
    left < |v| && (left == pl || Less(cmp, p, v[left]))
  }

  lemma Bounds(cmp: Compare, v: seq<Elem>, p: Elem, lo: nat, left: nat, pl: nat, ph: nat, right: nat, hi: nat)
    requires Sides(cmp, v, p, lo, left, pl, ph, right, hi)
    ensures lo <= left <= pl <= ph <= right < hi <= |v| && Same(cmp, v[pl], p) && Same(cmp, v[ph], p)
  {
  }

  /** The left element equals the pivot: it joins the middle part. */
  lemma LeftEqual(cmp: Compare, v: seq<Elem>, p: Elem, lo: nat, left: nat, pl: nat, ph: nat, right: nat, hi: nat)
    requires Sides(cmp, v, p, lo, left, pl, ph, right, hi) && left < pl && Same(cmp, v[left], p)
    ensures Sides(cmp, Swapped(v, left, pl - 1), p, lo, left, pl - 1, ph, right, hi)
  {
  }

  lemma LeftLess(cmp: Compare, v: seq<Elem>, p: Elem, lo: nat, left: nat, pl: nat, ph: nat, right: nat, hi: nat)
    requires Sides(cmp, v, p, lo, left, pl, ph, right, hi) && left < pl && Less(cmp, v[left], p)
    ensures Sides(cmp, v, p, lo, left + 1, pl, ph, right, hi)
  {
  }

  lemma RightEqual(cmp: Compare, v: seq<Elem>, p: Elem, lo: nat, left: nat, pl: nat, ph: nat, right: nat, hi: nat)
    requires Sides(cmp, v, p, lo, left, pl, ph, right, hi) && ph < right && Same(cmp, v[right], p)
    requires LeftDone(cmp, v, p, left, pl)
    ensures var w := Swapped(v, ph + 1, right);
      Sides(cmp, w, p, lo, left, pl, ph + 1, right, hi) && LeftDone(cmp, w, p, left, pl)
  {
  }

  /** A small element on the right and no room on the left: the middle part moves up by one. */
  lemma RightLessNoRoom(cmp: Compare, v: seq<Elem>, p: Elem, lo: nat, pl: nat, ph: nat, right: nat, hi: nat)
    requires Sides(cmp, v, p, lo, pl, pl, ph, right, hi) && ph < right && Less(cmp, v[right], p)
    ensures Sides(cmp, Rotated(v, pl, ph + 1, right), p, lo, pl + 1, pl + 1, ph + 1, right, hi)
  {
    var w := Rotated(v, pl, ph + 1, right);
    assert w[pl] == v[right] && w[ph + 1] == v[pl];
  }

  lemma RightLessSwap(cmp: Compare, v: seq<Elem>, p: Elem, lo: nat, left: nat, pl: nat, ph: nat, right: nat, hi: nat)
    requires Sides(cmp, v, p, lo, left, pl, ph, right, hi) && ph < right && left < pl && Less(cmp, v[right], p)
    requires Less(cmp, p, v[left])
    ensures Sides(cmp, Swapped(v, left, right), p, lo, left + 1, pl, ph, right - 1, hi)
  {
  }

  lemma RightGreater(cmp: Compare, v: seq<Elem>, p: Elem, lo: nat, left: nat, pl: nat, ph: nat, right: nat, hi: nat)
    requires Sides(cmp, v, p, lo, left, pl, ph, right, hi) && ph < right && Less(cmp, p, v[right])
    ensures Sides(cmp, v, p, lo, left, pl, ph, right - 1, hi)
  {
  }

  /** A large element on the left and no room on the right: the middle part moves down by one. */
  lemma LeftGreaterNoRoom(cmp: Compare, v: seq<Elem>, p: Elem, lo: nat, left: nat, pl: nat, ph: nat, hi: nat)
    requires Sides(cmp, v, p, lo, left, pl, ph, ph, hi) && left < pl && Less(cmp, p, v[left])
    ensures ph > 0 && Sides(cmp, Rotated(v, ph, pl - 1, left), p, lo, left, pl - 1, ph - 1, ph - 1, hi)
  {
    var w := Rotated(v, ph, pl - 1, left);
    assert w[ph] == v[left] && w[pl - 1] == v[ph];
  }

  /** From the label loop_right on: one action that brings the two sides closer. */
  method RightStep(mem: array<bv8>, es: nat, n: nat, cmp: Compare, ghost p: Elem, ghost lo: nat, left: nat, pl: nat,
                   ph: nat, right: nat, ghost hi: nat)
    returns (left': nat, pl': nat, ph': nat, right': nat, atRight: bool, done: bool)
    requires mem.Length == At(es, n) && es > 0 && IsOrder(cmp)
    requires Sides(cmp, View(mem[..], es, n), p, lo, left, pl, ph, right, hi)
    requires LeftDone(cmp, View(mem[..], es, n), p, left, pl)
    modifies mem
    ensures Perm(old(View(mem[..], es, n)), View(mem[..], es, n), lo, hi)
    ensures Sides(cmp, View(mem[..], es, n), p, lo, left', pl', ph', right', hi)
    ensures atRight ==> LeftDone(cmp, View(mem[..], es, n), p, left', pl')
    ensures done ==> left' == pl' == pl && ph' == right' == ph
    ensures !done ==> (pl' - left') + (right' - ph') < (pl - left) + (right - ph)
  {
    hide At, View, IsOrder, Sides, Perm, Swapped, Rotated, Less, Same;
    left', pl', ph', right', atRight, done := left, pl, ph, right, false, false;
    ghost var v := View(mem[..], es, n);
    Bounds(cmp, v, p, lo, left, pl, ph, right, hi);
    PermSelf(v, lo, hi);
    if right > ph {
      var c := Compared(mem, es, n, ph, right, cmp);
      Via(cmp, v[right], v[ph], p);
      if c == 0 {
        ph' := ph + 1;
        Swap(mem, es, n, ph', right);
        SwapPerm(v, ph', right, lo, hi);
        RightEqual(cmp, v, p, lo, left, pl, ph, right, hi);
        atRight := true;
      } else if c > 0 {
        if left == pl {
          ph' := ph + 1;
          Rotate(mem, es, n, left, ph', right);
          RotatePerm(v, left, ph', right, lo, hi);
          RightLessNoRoom(cmp, v, p, lo, pl, ph, right, hi);
          pl' := pl + 1;
          left' := pl';
          atRight := true;
        } else {
          Swap(mem, es, n, left, right);
          SwapPerm(v, left, right, lo, hi);
          RightLessSwap(cmp, v, p, lo, left, pl, ph, right, hi);
          right' := right - 1;
          left' := left + 1;
        }
      } else {
        RightGreater(cmp, v, p, lo, left, pl, ph, right, hi);
        right' := right - 1;
        atRight := true;
      }
    } else if left == pl {
      done := true;
    } else {
      pl' := pl - 1;
      Rotate(mem, es, n, right, pl', left);
      RotatePerm(v, right, pl', left, lo, hi);
      LeftGreaterNoRoom(cmp, v, p, lo, left, pl, ph, hi);
      ph' := ph - 1;
      right' := ph';
    }
  }

  /** The top of the loop: one action on the left side, unless there is nothing to do there. */
  method LeftStep(mem: array<bv8>, es: nat, n: nat, cmp: Compare, ghost p: Elem, ghost lo: nat, left: nat, pl: nat,
                  ghost ph: nat, ghost right: nat, ghost hi: nat)
    returns (left': nat, pl': nat, again: bool)
    requires mem.Length == At(es, n) && es > 0 && IsOrder(cmp)
    requires Sides(cmp, View(mem[..], es, n), p, lo, left, pl, ph, right, hi)
    modifies mem
    ensures Perm(old(View(mem[..], es, n)), View(mem[..], es, n), lo, hi)
    ensures Sides(cmp, View(mem[..], es, n), p, lo, left', pl', ph, right, hi)
    ensures !again ==> LeftDone(cmp, View(mem[..], es, n), p, left, pl) && left' == left && pl' == pl
    ensures again ==> pl' - left' < pl - left
  {
    hide At, View, IsOrder, Sides, Perm, Swapped, Less, Same;
    left', pl', again := left, pl, false;
    ghost var v := View(mem[..], es, n);
    Bounds(cmp, v, p, lo, left, pl, ph, right, hi);
    PermSelf(v, lo, hi);
    if left < pl {
      var c := Compared(mem, es, n, left, pl, cmp);
      Via(cmp, v[left], v[pl], p);
      if c == 0 {
        LeftEqual(cmp, v, p, lo, left, pl, ph, right, hi);
        pl' := pl - 1;
        Swap(mem, es, n, left, pl');
        SwapPerm(v, left, pl', lo, hi);
        again := true;
      } else if c < 0 {
        LeftLess(cmp, v, p, lo, left, pl, ph, right, hi);
        left' := left + 1;
        again := true;
      }
    }
  }

  lemma PermSelf(v: seq<Elem>, lo: nat, hi: nat)
    requires lo <= hi <= |v|
    ensures Perm(v, v, lo, hi)
  {
  }

  /** The loop: afterwards the range is in three parts around the chosen pivot. */
  method Partition(mem: array<bv8>, es: nat, n: nat, cmp: Compare, lo: nat,
                   hi: nat) returns (pl: nat, ph: nat, ghost p: Elem)
    requires mem.Length == At(es, n) && es > 0 && IsOrder(cmp) && lo + 1 < hi <= n
    modifies mem
    ensures Perm(old(View(mem[..], es, n)), View(mem[..], es, n), lo, hi)
    ensures Parted(cmp, View(mem[..], es, n), p, lo, pl, ph, hi)
  {
    hide At, View, IsOrder, Sides, Perm, Swapped, Less, Same, LeftDone;
    pl := lo + (hi - lo) / 2;
    ph := pl;
    p := View(mem[..], es, n)[pl];
    var left: nat, right: nat := lo, hi - 1;
    var atRight, done := false, false;
    Start(cmp, View(mem[..], es, n), lo, pl, hi);
    PermSelf(View(mem[..], es, n), lo, hi);
    while !done
      invariant Perm(old(View(mem[..], es, n)), View(mem[..], es, n), lo, hi)
      invariant Sides(cmp, View(mem[..], es, n), p, lo, left, pl, ph, right, hi)
      invariant atRight ==> LeftDone(cmp, View(mem[..], es, n), p, left, pl)
      invariant done ==> left == pl && ph == right
      decreases !done, (pl - left) + (right - ph)
    {
      ghost var v := View(mem[..], es, n);
      Bounds(cmp, v, p, lo, left, pl, ph, right, hi);
      if !atRight {
        var again;
        left, pl, again := LeftStep(mem, es, n, cmp, p, lo, left, pl, ph, right, hi);
        PermTrans(old(View(mem[..], es, n)), v, View(mem[..], es, n), lo, hi);
        if again {
          continue;
        }
        v := View(mem[..], es, n);
      }
      left, pl, ph, right, atRight, done := RightStep(mem, es, n, cmp, p, lo, left, pl, ph, right, hi);
      PermTrans(old(View(mem[..], es, n)), v, View(mem[..], es, n), lo, hi);
    }
    SidesParted(cmp, View(mem[..], es, n), p, lo, pl, ph, hi);
  }

  lemma Start(cmp: Compare, v: seq<Elem>, lo: nat, pivot: nat, hi: nat)
    requires IsOrder(cmp) && lo <= pivot < hi <= |v|
    ensures Sides(cmp, v, v[pivot], lo, lo, pivot, pivot, hi - 1, hi)
  {
    var p := v[pivot];
    assert cmp(p, p) < 0 <==> cmp(p, p) > 0;
  }

  lemma SidesParted(cmp: Compare, v: seq<Elem>, p: Elem, lo: nat, pl: nat, ph: nat, hi: nat)
    requires Sides(cmp, v, p, lo, pl, pl, ph, ph, hi)
    ensures Parted(cmp, v, p, lo, pl, ph, hi)
  {
  }

  // ----- the sort -----

  /**
   qs_partition: sorts the range in place.  `depth` is how many of its calls were nested in
   this one; the smaller side goes to the nested call, the other to the next turn of the loop.
  */
  method QsPartition(mem: array<bv8>, es: nat, n: nat, cmp: Compare, lo: nat, hi: nat) returns (ghost depth: nat)
    requires mem.Length == At(es, n) && es > 0 && IsOrder(cmp) && lo <= hi <= n
    modifies mem
    ensures Perm(old(View(mem[..], es, n)), View(mem[..], es, n), lo, hi)
    ensures Sorted(cmp, View(mem[..], es, n), lo, hi)
    ensures Pow2(depth) <= hi - lo + 1
    decreases hi - lo
  {
    hide At, View, IsOrder, Perm, Sorted, Around, Parted;
    depth := 0;
    var a, b := lo, hi;
    StartAround(cmp, View(mem[..], es, n), lo, hi);
    PermSelf(View(mem[..], es, n), lo, hi);
    while b - a > 1
      invariant lo <= a <= b <= hi
      invariant Perm(old(View(mem[..], es, n)), View(mem[..], es, n), lo, hi)
      invariant Around(cmp, View(mem[..], es, n), lo, hi, a, b)
      invariant Pow2(depth) <= hi - lo + 1
      decreases b - a
    {
      ghost var d;
      a, b, d := Round(mem, es, n, cmp, lo, hi, a, b, old(View(mem[..], es, n)));
      depth := if d > depth then d else depth;
    }
    EndAround(cmp, View(mem[..], es, n), lo, hi, a, b);
  }

  /** One turn of the loop: partition, sort the smaller side, go on with the other. */
  method Round(mem: array<bv8>, es: nat, n: nat, cmp: Compare, ghost lo: nat, ghost hi: nat, a: nat, b: nat,
               ghost v0: seq<Elem>)
    returns (a': nat, b': nat, ghost d: nat)
    requires mem.Length == At(es, n) && es > 0 && IsOrder(cmp) && lo <= a && a + 1 < b <= hi <= n
    requires Perm(v0, View(mem[..], es, n), lo, hi) && Around(cmp, View(mem[..], es, n), lo, hi, a, b)
    modifies mem
    ensures lo <= a' <= b' <= hi && b' - a' < b - a
    ensures Perm(v0, View(mem[..], es, n), lo, hi) && Around(cmp, View(mem[..], es, n), lo, hi, a', b')
    ensures Pow2(d) <= hi - lo + 1
    decreases b - a, 0
  {
    hide At, View, IsOrder, Perm, Sorted, Around, Parted;
    ghost var v := View(mem[..], es, n);
    var pl, ph, p := Partition(mem, es, n, cmp, a, b);
    ghost var v1 := View(mem[..], es, n);
    PartedBounds(cmp, v1, p, a, pl, ph, b);
    AroundPerm(cmp, v, v1, lo, hi, a, b);
    PermInto(v0, v, v1, a, b, lo, hi);
    if pl - a >= b - ph {
      d := QsPartition(mem, es, n, cmp, ph + 1, b);
      ShrinkLeft(cmp, v1, View(mem[..], es, n), p, lo, hi, a, b, pl, ph);
      PermInto(v0, v1, View(mem[..], es, n), ph + 1, b, lo, hi);
      a', b' := a, pl;
      d := d + 1;
    } else if pl > a {
      d := QsPartition(mem, es, n, cmp, a, pl);
      ShrinkRight(cmp, v1, View(mem[..], es, n), p, lo, hi, a, b, pl, ph);
      PermInto(v0, v1, View(mem[..], es, n), a, pl, lo, hi);
      a', b' := ph + 1, b;
      d := d + 1;
    } else {
      NothingBelow(cmp, v1, p, lo, hi, a, b, pl, ph);
      a', b' := ph + 1, b;
      d := 0;
    }
  }

  lemma StartAround(cmp: Compare, v: seq<Elem>, lo: nat, hi: nat)
    requires lo <= hi <= |v|
    ensures Around(cmp, v, lo, hi, lo, hi)
  {
  }

  lemma EndAround(cmp: Compare, v: seq<Elem>, lo: nat, hi: nat, a: nat, b: nat)
    requires Around(cmp, v, lo, hi, a, b) && b - a <= 1
    ensures Sorted(cmp, v, lo, hi)
  {
  }

  lemma PartedBounds(cmp: Compare, v: seq<Elem>, p: Elem, lo: nat, pl: nat, ph: nat, hi: nat)
    requires Parted(cmp, v, p, lo, pl, ph, hi)
    ensures lo <= pl <= ph < hi <= |v|
  {
  }

  lemma PermInto(v0: seq<Elem>, v: seq<Elem>, w: seq<Elem>, a: nat, b: nat, lo: nat, hi: nat)
    requires Perm(v0, v, lo, hi) && Perm(v, w, a, b) && lo <= a && b <= hi
    ensures Perm(v0, w, lo, hi)
  {
    PermWiden(v, w, a, b, lo, hi);
    PermTrans(v0, v, w, lo, hi);
  }

  lemma NothingBelow(cmp: Compare, v: seq<Elem>, p: Elem, lo: nat, hi: nat, a: nat, b: nat, pl: nat, ph: nat)
    requires IsOrder(cmp) && Around(cmp, v, lo, hi, a, b) && Parted(cmp, v, p, a, pl, ph, b) && pl == a
    ensures Around(cmp, v, lo, hi, ph + 1, b)
  {
    PermSelf(v, a, pl);
    ShrinkRight(cmp, v, v, p, lo, hi, a, b, pl, ph);
  }

  /** qsort: a sorted permutation of the elements; nothing at all without elements or with elements of no bytes. */
  method Qsort(mem: array<bv8>, nmemb: nat, size: nat, cmp: Compare) returns (ghost depth: nat)
    requires mem.Length == At(size, nmemb) && IsOrder(cmp)
    modifies mem
    ensures Sorted(cmp, View(mem[..], size, nmemb), 0, nmemb)
    ensures multiset(View(mem[..], size, nmemb)) == multiset(old(View(mem[..], size, nmemb)))
    ensures Pow2(depth) <= nmemb + 1
  {
    if nmemb == 0 || size == 0 {
      depth := 0;
      NothingToSort(cmp, mem[..], size, nmemb);
      return;
    }
    hide At, View, IsOrder, Sorted;
    depth := QsPartition(mem, size, nmemb, cmp, 0, nmemb);
    ghost var v, w := old(View(mem[..], size, nmemb)), View(mem[..], size, nmemb);
    assert v[0..nmemb] == v && w[0..nmemb] == w;
  }

  lemma NothingToSort(cmp: Compare, m: seq<bv8>, size: nat, nmemb: nat)
    requires |m| == At(size, nmemb) && IsOrder(cmp) && (nmemb == 0 || size == 0)
    ensures Sorted(cmp, View(m, size, nmemb), 0, nmemb)
  {
    var e: Elem := [];
    assert cmp(e, e) < 0 <==> cmp(e, e) > 0;
    forall k | 0 <= k < nmemb ensures View(m, size, nmemb)[k] == e {
      assert View(m, size, nmemb)[k] == ElemAt(m, size, nmemb, k);
    }
  }

  /** The offset of the middle element is a whole number of elements, half of them. */
  lemma MiddleOffset(n: nat, es: nat)
    requires es > 0
    ensures es * ((n * es) / (2 * es)) == At(es, n / 2)
  {
    var h := n / 2;
    var r := n - 2 * h;
    assert n * es == h * (2 * es) + r * es;
    assert 0 <= r * es < 2 * es;
    DivUnique(n * es, 2 * es, h, r * es);
  }

  lemma DivUnique(x: nat, d: nat, q: nat, r: nat)
    requires d > 0 && x == q * d + r && r < d
    ensures x / d == q
  {
    var q', r' := x / d, x % d;
    assert (q - q') * d == q * d - q' * d;
    SmallMultiple(q - q', d);
  }

  lemma SmallMultiple(k: int, d: int)
    requires d > 0 && -d < k * d < d
    ensures k == 0
  {
    assert k >= 1 ==> (k - 1) * d >= 0;
    assert k <= -1 ==> (-k - 1) * d >= 0;
  }
}
