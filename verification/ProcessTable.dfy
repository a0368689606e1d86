/**
 The loops over the process list, in their own form: wakeup_holding_plist_lock, reparent,
 the scan of do_wait (proc.c) and get_next_runnable_process (scheduler.c), each with the
 locks it runs under already taken.
*/
module ProcessTable {
  import opened Common

  type Pid = nat
  type Channel = nat
  datatype Waited = Found(zombie: Pid) | Children | NoChildren

  class Processes {
    var plist: seq<Pid>
    var state: map<Pid, Status>
    var chan: map<Pid, Channel>
    var parent: map<Pid, Pid>

    ghost predicate Valid()
      reads this
    {
      && NoDup(plist)
      && (forall p :: p in plist ==> p in state && p in chan)
    }

    constructor ()
      ensures Valid() && plist == []
    {
      plist, state, chan, parent := [], map[], map[], map[];
    }

    /** Who a wakeup on that channel is for. */
    ghost predicate SleepsOn(p: Pid, ch: Channel)
      reads this
    {
      p in plist && p in state && p in chan && state[p] == SLEEPING && chan[p] == ch
    }

    /** wakeup_holding_plist_lock: every sleeper on the channel but the caller, and nobody else. */
    method Wakeup(current: Pid, ch: Channel)
      requires Valid()
      modifies this`state
      ensures Valid() && state.Keys == old(state.Keys)
      ensures forall p ::
        p in state ==> state[p] == if p != current && old(SleepsOn(p, ch)) then RUNNABLE else old(state)[p]
      ensures forall p :: SleepsOn(p, ch) ==> p == current
    {
      var i := 0;
      while i < |plist|
        invariant i <= |plist| && Valid() && state.Keys == old(state.Keys)
        invariant forall p :: p in state ==>
          state[p] == if p in plist[..i] && p != current && old(SleepsOn(p, ch)) then RUNNABLE else old(state)[p]
      {
        var p := plist[i];
        assert plist[..i + 1] == plist[..i] + [p];
        assert p !in plist[..i];
        if p != current {
          if state[p] == SLEEPING && chan[p] == ch {
            state := state[p := RUNNABLE];
          }
        }
        i := i + 1;
      }
      assert plist[..i] == plist;
    }

    /** reparent: every listed child of proc now belongs to init, and init is awake if there was one. */
    method Reparent(proc: Pid, init: Pid, chanOfInit: Channel)
      requires Valid() && proc != init
      modifies this`state, this`parent
      ensures Valid() && state.Keys == old(state.Keys)
      ensures parent.Keys == old(parent.Keys)
      ensures forall p ::
        p in parent ==> parent[p] == if p in plist && old(parent)[p] == proc then init else old(parent)[p]
      ensures (exists p :: p in plist && p in old(parent) && old(parent)[p] == proc) ==>
        forall p :: SleepsOn(p, chanOfInit) ==> p == proc
      ensures forall p ::
        p in state ==> state[p] == old(state)[p] || (old(SleepsOn(p, chanOfInit)) && state[p] == RUNNABLE)
    {
      var i := 0;
      ghost var woken := false;
      while i < |plist|
        invariant i <= |plist| && Valid() && state.Keys == old(state.Keys) && parent.Keys == old(parent.Keys)
        invariant forall p ::
          p in parent ==> parent[p] == if p in plist[..i] && old(parent)[p] == proc then init else old(parent)[p]
        invariant !woken ==> forall p :: p in plist[..i] && p in old(parent) ==> old(parent)[p] != proc
        invariant woken ==> forall p :: SleepsOn(p, chanOfInit) ==> p == proc
        invariant forall p ::
          p in state ==> state[p] == old(state)[p] || (old(SleepsOn(p, chanOfInit)) && state[p] == RUNNABLE)
      {
        var pp := plist[i];
        assert plist[..i + 1] == plist[..i] + [pp];
        assert pp !in plist[..i];
        if pp in parent && parent[pp] == proc {
          parent := parent[pp := init];
          Wakeup(proc, chanOfInit);
          woken := true;
        }
        i := i + 1;
      }
      assert plist[..i] == plist;
    }

    /** The scan of do_wait: a zombie child if there is one, else whether there are children at all. */
    method ScanForZombie(proc: Pid) returns (r: Waited)
      requires Valid()
      ensures match r
        case Found(z) => IsChild(z, proc) && state[z] == ZOMBIE
        case Children => (exists p :: IsChild(p, proc)) && forall p :: IsChild(p, proc) ==> state[p] != ZOMBIE
        case NoChildren => forall p :: !IsChild(p, proc)
    {
      var havekids := false;
      var i := 0;
      while i < |plist|
        invariant i <= |plist| && Valid()
        invariant forall j :: 0 <= j < i && IsChild(plist[j], proc) ==> state[plist[j]] != ZOMBIE
        invariant havekids <==> exists j :: 0 <= j < i && IsChild(plist[j], proc)
      {
        var pp := plist[i];
        if pp in parent && parent[pp] == proc {
          havekids := true;
          assert IsChild(pp, proc);
          if state[pp] == ZOMBIE {
            return Found(pp);
          }
        }
        i := i + 1;
      }
      r := if havekids then Children else NoChildren;
    }

    predicate IsChild(p: Pid, proc: Pid)
      reads this
    {
      p in plist && p in parent && parent[p] == proc && p in state
    }

    /** Take a found zombie off the list. */
    method Unlist(z: Pid)
      requires Valid() && z in plist
      modifies this`plist
      ensures Valid() && z !in plist && forall p :: p in plist <==> p in old(plist) && p != z
    {
      var i := 0;
      while plist[i] != z
        invariant i < |plist| && z !in plist[..i] && plist == old(plist)
        decreases |plist| - i
      {
        assert plist[..i + 1] == plist[..i] + [plist[i]];
        assert z in plist[i + 1..];
        i := i + 1;
      }
      Spliced(plist, i);
      plist := plist[..i] + plist[i + 1..];
    }

    /** get_next_runnable_process: the first runnable process whose lock could be had, moved behind all others. */
    method NextRunnable(busy: set<Pid>) returns (r: Option<Pid>, ghost at: nat)
      requires Valid()
      modifies this`plist
      ensures Valid()
      ensures r.None? ==> plist == old(plist) && forall p :: p in plist && p !in busy ==> state[p] != RUNNABLE
      ensures r.Some? ==> r.value !in busy && r.value in state && state[r.value] == RUNNABLE
      ensures r.Some? ==>
        at < |old(plist)| && old(plist)[at] == r.value && plist == old(plist)[..at] + old(plist)[at + 1..] + [r.value]
      ensures r.Some? ==> forall j :: 0 <= j < at ==> old(plist)[j] in busy || state[old(plist)[j]] != RUNNABLE
    {
      var i := 0;
      while i < |plist|
        invariant i <= |plist| && plist == old(plist)
        invariant forall j :: 0 <= j < i ==> plist[j] in busy || state[plist[j]] != RUNNABLE
      {
        var proc := plist[i];
        if proc !in busy {
          if state[proc] == RUNNABLE {
            Spliced(plist, i);
            plist := plist[..i] + plist[i + 1..] + [proc];
            return Some(proc), i;
          }
        }
        i := i + 1;
      }
      return None, i;
    }
  }

  lemma Spliced(l: seq<Pid>, i: nat)
    requires NoDup(l) && i < |l|
    ensures var r := l[..i] + l[i + 1..];
      NoDup(r) && NoDup(r + [l[i]]) && forall x :: x in r <==> x in l && x != l[i]
  {
    var r := l[..i] + l[i + 1..];
    assert forall k :: 0 <= k < |r| ==> r[k] == l[if k < i then k else k + 1];
    forall x | x in l && x != l[i] ensures x in r {
      var k :| 0 <= k < |l| && l[k] == x;
      assert x == r[if k < i then k else k - 1];
    }
  }
}
