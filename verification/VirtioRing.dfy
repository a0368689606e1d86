/** Rings of eight slots addressed by free-running 16-bit indices (section 2.7 of VIRTIO 1.2). */
module VirtioRing {
  import opened Common

  const NUM_DESC: nat := 8
  const IDX_MOD: nat := 0x1_0000

  /** The 16-bit increment. */
  function Succ(i: nat): nat { (i + 1) % IDX_MOD }

  /** How far `to` is ahead of `from`, as a 16-bit difference. */
  function Dist(from: nat, to: nat): nat
    requires from < IDX_MOD && to < IDX_MOD
  {
    (to - from) % IDX_MOD
  }

  /** The slots a consumer at `from` has not seen of what a producer at `to` has published. */
  function Window(ring: seq<nat>, from: nat, to: nat): seq<nat>
    requires |ring| == NUM_DESC && from < IDX_MOD && to < IDX_MOD
  {
    seq(Dist(from, to), k requires 0 <= k => ring[(from + k) % NUM_DESC])
  }

  lemma WindowPop(ring: seq<nat>, from: nat, to: nat)
    requires |ring| == NUM_DESC && from < IDX_MOD && to < IDX_MOD && from != to
    ensures Window(ring, from, to) == [ring[from % NUM_DESC]] + Window(ring, Succ(from), to)
  {
    var w, w' := Window(ring, from, to), Window(ring, Succ(from), to);
    assert |w| == 1 + |w'|;
    forall k | 0 <= k < |w'|
      ensures w'[k] == w[k + 1]
    {
      assert (Succ(from) + k) % NUM_DESC == (from + (k + 1)) % NUM_DESC;
    }
  }

  lemma WindowPush(ring: seq<nat>, from: nat, to: nat)
    requires |ring| == NUM_DESC && from < IDX_MOD && to < IDX_MOD
    requires |Window(ring, from, to)| < NUM_DESC
    ensures Window(ring, from, Succ(to)) == Window(ring, from, to) + [ring[to % NUM_DESC]]
  {
    var w, w' := Window(ring, from, to), Window(ring, from, Succ(to));
    assert |w'| == |w| + 1;
    assert (from + |w|) % NUM_DESC == to % NUM_DESC;
  }

  /** Writing the next slot disturbs nothing that is still unconsumed. */
  lemma WindowSlot(ring: seq<nat>, from: nat, to: nat, h: nat)
    requires |ring| == NUM_DESC && from < IDX_MOD && to < IDX_MOD
    requires |Window(ring, from, to)| < NUM_DESC
    ensures Window(ring[to % NUM_DESC := h], from, to) == Window(ring, from, to)
  {
    var w := Window(ring, from, to);
    assert (from + |w|) % NUM_DESC == to % NUM_DESC;
    assert forall k :: 0 <= k < |w| ==> w[k] == Window(ring[to % NUM_DESC := h], from, to)[k];
  }

  lemma NoDupTail(h: nat, w: seq<nat>)
    requires NoDup([h] + w)
    ensures NoDup(w) && h !in w
  {
    var v := [h] + w;
    assert forall i :: 0 <= i < |w| ==> v[i + 1] == w[i];
    forall i | 0 <= i < |w|
      ensures w[i] != h
    {
      assert v[0] != v[i + 1];
    }
  }

  /** Pigeonhole: distinct descriptor numbers, with one more missing, leave a slot over. */
  lemma {:induction false} NoDupBound(s: seq<nat>, n: nat)
    requires NoDup(s) && forall x :: x in s ==> x < n
    ensures |s| <= n
    decreases n
  {
    if n == 0 {
      assert forall i :: 0 <= i < |s| ==> s[i] in s;
    } else if n - 1 in s {
      var i :| 0 <= i < |s| && s[i] == n - 1;
      var r := s[..i] + s[i + 1..];
      assert forall x :: x in r ==> x in s;
      NoDupBound(r, n - 1);
    } else {
      NoDupBound(s, n - 1);
    }
  }

  lemma RoomForOne(s: seq<nat>, h: nat)
    requires NoDup(s) && (forall x :: x in s ==> x < NUM_DESC) && h < NUM_DESC && h !in s
    ensures |s| < NUM_DESC
  {
    NoDupBound(s + [h], NUM_DESC);
  }
}
