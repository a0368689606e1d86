/**
 The driver's own tables and the code that updates them in place, under vdisk_lock.
 Every method is proved against the functions the protocol is made of.
*/
module VirtioDriver {
  import opened Common
  import opened VirtioRing
  import opened VirtioProtocol

  /** Does this used-ring entry make the interrupt handler panic? */
  predicate BadEntry(info: seq<Info>, id: nat) {
    id >= |info| || info[id].status != 0 || info[id].b.None?
  }

  /** The buffers named by a run of used-ring entries. */
  function BuffersOf(info: seq<Info>, ids: seq<nat>): set<BufId> {
    set k | 0 <= k < |ids| && !BadEntry(info, ids[k]) :: info[ids[k]].b.value
  }

  function NextIndex(idx: seq<nat>): nat { if idx == [] then 0 else idx[|idx| - 1] + 1 }

  /** idx lists, in order, the lowest free descriptors of `was`. */
  ghost predicate Lowest(was: seq<bool>, idx: seq<nat>)
    decreases |idx|
  {
    idx == [] ||
    (Lowest(was, idx[..|idx| - 1]) && NextIndex(idx[..|idx| - 1]) <= |was| &&
     idx[|idx| - 1] == FirstFree(was, NextIndex(idx[..|idx| - 1])) < |was|)
  }

  ghost predicate Untaken(now: seq<bool>, was: seq<bool>, idx: seq<nat>) {
    |now| == |was| && forall j :: 0 <= j < |was| ==> now[j] == (was[j] && j !in idx)
  }

  lemma {:induction false} LowestIsAll(was: seq<bool>, idx: seq<nat>)
    requires Lowest(was, idx)
    ensures NextIndex(idx) <= |was|
    ensures forall j :: 0 <= j < NextIndex(idx) ==> (j in idx <==> was[j])
    ensures forall k :: 0 <= k < |idx| ==> idx[k] < NextIndex(idx) && was[idx[k]]
    ensures forall k, l :: 0 <= k < l < |idx| ==> idx[k] < idx[l]
    decreases |idx|
  {
    if idx != [] {
      var init := idx[..|idx| - 1];
      LowestIsAll(was, init);
      assert idx == init + [idx[|idx| - 1]];
    }
  }

  /** What is first free once the lowest ones are taken is the next lowest one. */
  lemma FirstFreeAfter(now: seq<bool>, was: seq<bool>, idx: seq<nat>)
    requires Lowest(was, idx) && Untaken(now, was, idx)
    ensures NextIndex(idx) <= |was| && FirstFree(now, 0) == FirstFree(was, NextIndex(idx))
    ensures FirstFree(now, 0) < |was| ==>
      var i := FirstFree(now, 0);
      Lowest(was, idx + [i]) && Untaken(now[i := false], was, idx + [i])
  {
    LowestIsAll(was, idx);
    var i := FirstFree(now, 0);
    assert (idx + [i])[..|idx|] == idx;
  }

  lemma LowestCases(was: seq<bool>, idx: seq<nat>)
    requires Lowest(was, idx) && |idx| <= 3 && NextIndex(idx) <= |was|
    ensures |idx| == 3 ==> Alloc3(was) == Some(Chain(idx[0], idx[1], idx[2]))
    ensures |idx| < 3 && FirstFree(was, NextIndex(idx)) == |was| ==> Alloc3(was) == None
  {
    if |idx| == 3 {
      var two := idx[..2];
      var one := two[..1];
      assert Lowest(was, two) && Lowest(was, one) && one[..0] == [];
    } else if |idx| == 2 {
      var one := idx[..1];
      assert Lowest(was, one) && one[..0] == [];
    } else if |idx| == 1 {
      assert idx[..0] == [];
    }
  }

  lemma NoneTaken(was: seq<bool>)
    ensures Lowest(was, []) && Untaken(was, was, [])
  {
  }

  lemma ThreeTaken(now: seq<bool>, was: seq<bool>, idx: seq<nat>)
    requires |idx| == 3 && Untaken(now, was, idx)
    ensures now == Mark(was, Chain(idx[0], idx[1], idx[2]), false)
  {
    assert forall j :: j in idx <==> j == idx[0] || j == idx[1] || j == idx[2];
  }

  /** Thread t of the protocol has allocated that chain for that request. */
  predicate AboutToSubmit(s: State, t: Tid, req: Request, c: Chain, sectorCount: nat) {
    && t in s.threads && s.threads[t] == Alloced(req, c) && ChainInRange(c) && |s.disk| == sectorCount
    && |s.desc| == |s.ops| == |s.info| == |s.avail| == NUM_DESC
  }

  /** The protocol's steps Format, Slot and Publish of one thread. */
  function ThreeSteps(s: State, t: Tid): State
    requires t in s.threads && s.threads[t].Alloced? && AboutToSubmit(s, t, s.threads[t].req, s.threads[t].c, |s.disk|)
  {
    DoPublish(DoSlot(DoFormat(s, t), t), t)
  }

  class Disk {
    const free: array<bool>
    const desc: array<Desc>
    const ops: array<Header>
    const info: array<Info>
    const avail: array<nat>
    const used: array<nat>
    var availIdx: nat
    var usedSeen: nat
    var owned: set<BufId>

    ghost predicate Valid()
      reads this
    {
      && free.Length == desc.Length == ops.Length == info.Length == avail.Length == used.Length == NUM_DESC
      && avail != used && availIdx < IDX_MOD && usedSeen < IDX_MOD
    }

    ghost function Table(): (q: Queue)
      requires Valid()
      reads this, free, desc
    {
      Queue(free[..], desc[..])
    }

    /** virtio_disk_init_internal: zeroed queue memory, every descriptor unused. */
    constructor ()
      ensures Valid() && fresh(free) && fresh(desc) && fresh(ops) && fresh(info) && fresh(avail) && fresh(used)
      ensures forall i :: 0 <= i < NUM_DESC ==> free[i] && desc[i] == ZERO_DESC
      ensures availIdx == usedSeen == 0 && owned == {}
    {
      free := new bool[NUM_DESC](_ => true);
      desc := new Desc[NUM_DESC](_ => ZERO_DESC);
      ops := new Header[NUM_DESC](_ => Header(false, 0));
      info := new Info[NUM_DESC](_ => Info(None, 0));
      avail := new nat[NUM_DESC](_ => 0);
      used := new nat[NUM_DESC](_ => 0);
      availIdx, usedSeen, owned := 0, 0, {};
    }

    method AllocDesc() returns (i: int)
      requires Valid()
      modifies free
      ensures var r := FirstFree(old(free[..]), 0);
              if r == NUM_DESC then i == -1 && free[..] == old(free[..])
              else i == r && free[..] == old(free[..])[r := false]
    {
      i := 0;
      while i < NUM_DESC
        invariant 0 <= i <= NUM_DESC && free[..] == old(free[..])
        invariant FirstFree(free[..], 0) == FirstFree(free[..], i)
      {
        if free[i] {
          free[i] := false;
          return;
        }
        i := i + 1;
      }
      i := -1;
    }

    method FreeDescriptor(i: nat) returns (panicked: bool)
      requires Valid()
      modifies free, desc
      ensures var r := FreeDesc(old(Table()), i);
              panicked == r.None? && Table() == if panicked then old(Table()) else r.value
    {
      if i >= NUM_DESC || free[i] {
        return true;
      }
      desc[i] := ZERO_DESC;
      free[i] := true;
      return false;
    }

    /** Follows the next links; stops in a panic only where the function does. */
    method FreeChainFrom(head: nat) returns (panicked: bool)
      requires Valid()
      modifies free, desc
      ensures var r := FreeChain(old(Table()), head);
              panicked == r.None? && (r.Some? ==> Table() == r.value)
    {
      var i: nat := head;
      while true
        invariant Valid()
        invariant FreeChain(Table(), i) == FreeChain(old(Table()), head)
        decreases CountBusy(free[..])
      {
        if i < NUM_DESC && !free[i] { CountBusyUpdate(free[..], i); }
        var more := i < NUM_DESC && desc[i].hasNext;
        var next := if i < NUM_DESC then desc[i].next else 0;
        panicked := FreeDescriptor(i);
        if panicked || !more {
          return;
        }
        i := next;
      }
    }

    /** The roll-back loop of alloc3_desc. */
    method GiveBack(idx: seq<nat>, ghost was: seq<bool>)
      requires Valid() && |was| == NUM_DESC
      requires forall j :: 0 <= j < NUM_DESC ==> free[j] == (was[j] && j !in idx)
      requires forall j :: 0 <= j < NUM_DESC && was[j] ==> desc[j] == ZERO_DESC
      requires forall k :: 0 <= k < |idx| ==> idx[k] < NUM_DESC && was[idx[k]]
      requires forall k, l :: 0 <= k < l < |idx| ==> idx[k] < idx[l]
      modifies free, desc
      ensures free[..] == was && desc[..] == old(desc[..])
    {
      var j := 0;
      while j < |idx|
        invariant 0 <= j <= |idx| && desc[..] == old(desc[..])
        invariant forall k :: 0 <= k < NUM_DESC ==> free[k] == (was[k] && k !in idx[j..])
      {
        assert idx[j..] == [idx[j]] + idx[j + 1..];
        var p := FreeDescriptor(idx[j]);
        j := j + 1;
      }
    }

    /** Three descriptors or none; a failed attempt gives back what it took. */
    method Alloc3Desc() returns (c: Option<Chain>)
      requires Valid()
      requires forall j :: 0 <= j < NUM_DESC && free[j] ==> desc[j] == ZERO_DESC
      modifies free, desc
      ensures c == Alloc3(old(free[..])) && desc[..] == old(desc[..])
      ensures free[..] == if c.None? then old(free[..]) else Mark(old(free[..]), c.value, false)
    {
      hide Lowest, FirstFree, Alloc3;
      ghost var was := free[..];
      var idx: seq<nat> := [];
      NoneTaken(was);
      while |idx| < 3
        invariant |idx| <= 3 && desc[..] == old(desc[..])
        invariant Lowest(was, idx) && Untaken(free[..], was, idx)
      {
        FirstFreeAfter(free[..], was, idx);
        var i := AllocDesc();
        if i < 0 {
          LowestIsAll(was, idx);
          GiveBack(idx, was);
          LowestCases(was, idx);
          return None;
        }
        idx := idx + [i];
      }
      LowestIsAll(was, idx);
      LowestCases(was, idx);
      c := Some(Chain(idx[0], idx[1], idx[2]));
      ThreeTaken(free[..], was, idx);
    }

    /** The tables are those of a state of the protocol. */
    ghost predicate Shows(s: State)
      reads this, free, desc, ops, info, avail
    {
      && Valid() && s.free == free[..] && s.desc == desc[..] && s.ops == ops[..] && s.info == info[..]
      && s.avail == avail[..] && s.availIdx == availIdx && s.owned == owned
    }

    /**
     Format the chain, record the buffer, put the head in the avail ring, bump the index:
     in any state of the protocol in which thread t is about to do so, its three steps.
    */
    method Submit(req: Request, c: Chain, sectorCount: nat, ghost s: State, ghost t: Tid)
      requires Valid() && ChainInRange(c) && c.head != c.body && c.body != c.tail && c.head != c.tail
      modifies this`availIdx, this`owned, desc, ops, info, avail
      ensures Valid() && FormattedFor(desc[..], ops[..], info[..], sectorCount, req, c)
      ensures forall i :: 0 <= i < NUM_DESC && !InChain(i, c) ==>
        desc[i] == old(desc[i]) && ops[i] == old(ops[i]) && info[i] == old(info[i])
      ensures info[c.head].status == STATUS_PENDING && owned == old(owned) + {req.buf}
      ensures avail[..] == old(avail[..])[old(availIdx) % NUM_DESC := c.head] && availIdx == Succ(old(availIdx))
      ensures old(Shows(s)) && AboutToSubmit(s, t, req, c, sectorCount) ==> Shows(ThreeSteps(s, t))
    {
      FormatChain(req, c, sectorCount);
      avail[availIdx % NUM_DESC] := c.head;
      availIdx := (availIdx + 1) % IDX_MOD;
    }

    /** Write the three descriptors, the header and the record of the request. */
    method FormatChain(req: Request, c: Chain, sectorCount: nat)
      requires Valid() && ChainInRange(c) && c.head != c.body && c.body != c.tail && c.head != c.tail
      modifies this`owned, desc, ops, info
      ensures Valid() && owned == old(owned) + {req.buf}
      ensures ops[..] == old(ops[..])[c.head := Header(req.write, SectorOf(req.blockno))]
      ensures desc[..] ==
        old(desc[..])[c.head := HeadDesc(c)][c.body := BodyDesc(req, c, sectorCount)][c.tail := TailDesc(c)]
      ensures info[..] == old(info[..])[c.head := Info(Some(req.buf), STATUS_PENDING)]
    {
      var sector := SectorOf(req.blockno);
      ops[c.head] := Header(req.write, sector);
      desc[c.head] := Desc(OpsAddr(c.head), HEADER_LEN, true, false, c.body);
      var len := SectorsMoved(sector, sectorCount) * SECTOR_SIZE;
      desc[c.body] := Desc(DataAddr(req.buf), len, true, !req.write, c.tail);
      info[c.head] := Info(None, STATUS_PENDING);
      desc[c.tail] := Desc(StatusAddr(c.head), 1, false, true, 0);
      owned := owned + {req.buf};
      info[c.head] := info[c.head].(b := Some(req.buf));
    }

    /** The handler's loop over everything the device had published when it looked. */
    method Interrupt(usedIdx: nat) returns (panicked: bool)
      requires Valid() && usedIdx < IDX_MOD
      modifies this`usedSeen, this`owned
      ensures Valid()
      ensures var w := Window(used[..], old(usedSeen), usedIdx);
              && (panicked <==> exists k :: 0 <= k < |w| && BadEntry(info[..], w[k]))
              && (!panicked ==> usedSeen == usedIdx && owned == old(owned) - BuffersOf(info[..], w))
    {
      ghost var w := Window(used[..], usedSeen, usedIdx);
      ghost var k := 0;
      while usedSeen != usedIdx
        invariant Valid() && 0 <= k <= |w| && w[k..] == Window(used[..], usedSeen, usedIdx)
        invariant forall j :: 0 <= j < k ==> !BadEntry(info[..], w[j])
        invariant owned == old(owned) - BuffersOf(info[..], w[..k])
        decreases |w| - k
      {
        WindowPop(used[..], usedSeen, usedIdx);
        var id := used[usedSeen % NUM_DESC];
        assert w[k..][0] == w[k] == id;
        assert w[k..][1..] == w[k + 1..];
        if id >= NUM_DESC || info[id].status != 0 || info[id].b.None? {
          assert BadEntry(info[..], w[k]);
          return true;
        }
        owned := owned - {info[id].b.value};
        assert w[..k + 1] == w[..k] + [id];
        assert BuffersOf(info[..], w[..k + 1]) == BuffersOf(info[..], w[..k]) + {info[id].b.value} by {
          OneMoreBuffer(info[..], w[..k], id);
        }
        usedSeen := (usedSeen + 1) % IDX_MOD;
        k := k + 1;
      }
      assert w[k..] == [];
      assert w[..k] == w;
      panicked := false;
    }
  }

  lemma OneMoreBuffer(info: seq<Info>, ids: seq<nat>, id: nat)
    requires !BadEntry(info, id)
    ensures BuffersOf(info, ids + [id]) == BuffersOf(info, ids) + {info[id].b.value}
  {
    var all := ids + [id];
    assert forall k :: 0 <= k < |ids| ==> all[k] == ids[k];
    assert all[|ids|] == id;
    forall b | b in BuffersOf(info, ids) + {info[id].b.value}
      ensures b in BuffersOf(info, all)
    {
      if b in BuffersOf(info, ids) {
        var k :| 0 <= k < |ids| && !BadEntry(info, ids[k]) && info[ids[k]].b.value == b;
        assert all[k] == ids[k];
      }
    }
  }
}
