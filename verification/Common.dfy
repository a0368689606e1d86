/** What several modules share: optional values, process states, lists without repetitions, powers of two. */
module Common {
  datatype Option<+T> = None | Some(value: T)

  /** The states of a listed process. */
  datatype Status = RUNNABLE | RUNNING | SLEEPING | ZOMBIE

  ghost predicate NoDup(s: seq<nat>) {
    forall i, j :: 0 <= i < j < |s| ==> s[i] != s[j]
  }

  lemma NoDupCons(h: nat, t: seq<nat>)
    ensures NoDup([h] + t) <==> NoDup(t) && h !in t
  {
    var s := [h] + t;
    assert forall i :: 0 <= i < |t| ==> s[i + 1] == t[i];
    if NoDup(s) {
      forall i | 0 <= i < |t| ensures t[i] != h { assert s[0] != s[i + 1]; }
    }
  }

  /** list_del of x. */
  function Without(s: seq<nat>, x: nat): (r: seq<nat>)
    ensures forall y :: y in r <==> y in s && y != x
    ensures x !in s ==> r == s
    ensures NoDup(s) ==> NoDup(r) && |r| == if x in s then |s| - 1 else |s|
  {
    if s == [] then [] else
    assert s == [s[0]] + s[1..];
    NoDupCons(s[0], s[1..]);
    if s[0] == x then Without(s[1..], x) else
    NoDupCons(s[0], Without(s[1..], x));
    [s[0]] + Without(s[1..], x)
  }

  lemma WithoutCons(h: nat, t: seq<nat>, x: nat)
    ensures Without([h] + t, x) == if h == x then Without(t, x) else [h] + Without(t, x)
  {
    assert ([h] + t)[1..] == t;
  }

  function Pow2(k: nat): (r: nat)
    ensures r > 0
  {
    if k == 0 then 1 else 2 * Pow2(k - 1)
  }
}
