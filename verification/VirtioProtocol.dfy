/**
 The virtio disk driver and its device as one interleaved protocol.

 Threads run virtio_disk_rw, an interrupt handler drains the used ring and the device
 fetches, serves and completes descriptor chains in any order.  Everything a thread does
 between two points where the device could notice is one step; the driver's spin lock is
 part of the state.  The main results are that no run reaches a kernel panic or a
 malformed request, and that the protocol refines a plain per-thread request automaton.
*/
module VirtioProtocol {
  import opened Common
  import opened VirtioRing

  type Tid = nat
  type BufId = nat
  type Sector = int

  const BLOCK_SIZE: nat := 1024
  const SECTOR_SIZE: nat := 512
  const STATUS_PENDING: nat := 0xff
  const HEADER_LEN: nat := 16

  /** A request as virtio_disk_rw receives it; `blockno` is a uint32_t. */
  datatype Request = Request(buf: BufId, blockno: nat, write: bool)

  /** `blockno * (BLOCK_SIZE / 512)`: the product is computed in 32 bits. */
  function SectorOf(blockno: nat): nat {
    (blockno * (BLOCK_SIZE / SECTOR_SIZE)) % 0x1_0000_0000
  }

  /** How many sectors a transfer moves: the odd last sector of a disk is moved alone. */
  function SectorsMoved(sector: nat, sectorCount: nat): nat {
    if sector + 1 == sectorCount then 1 else BLOCK_SIZE / SECTOR_SIZE
  }

  /** virtio_disk_rw panics on any other request before it touches the queue. */
  predicate Acceptable(req: Request, sectorCount: nat) {
    req.blockno < 0x1_0000_0000 && SectorOf(req.blockno) < sectorCount
  }

  datatype Addr = NullAddr | OpsAddr(i: nat) | DataAddr(b: BufId) | StatusAddr(i: nat)
  datatype Desc = Desc(addr: Addr, len: nat, hasNext: bool, deviceWrites: bool, next: nat)
  datatype Header = Header(write: bool, sector: nat)
  datatype Info = Info(b: Option<BufId>, status: nat)
  datatype Chain = Chain(head: nat, body: nat, tail: nat)

  const ZERO_DESC := Desc(NullAddr, 0, false, false, 0)

  datatype Thread =
    | Idle
    | Want(req: Request)                    // in the allocation loop
    | Alloced(req: Request, c: Chain)       // three descriptors taken, lock held
    | Formatted(req: Request, c: Chain)     // descriptors written, lock held
    | Slotted(req: Request, c: Chain)       // head written to the avail ring, lock held
    | Published(req: Request, c: Chain)     // avail index bumped, waiting for the interrupt

  predicate HasChain(th: Thread) {
    th.Alloced? || th.Formatted? || th.Slotted? || th.Published?
  }

  predicate IsFormatted(th: Thread) {
    th.Formatted? || th.Slotted? || th.Published?
  }

  predicate InChain(i: nat, c: Chain) {
    i == c.head || i == c.body || i == c.tail
  }

  // ----- the driver's helpers, as functions of the free table -----

  /** Index of the first free descriptor at or after i, or NUM_DESC. */
  function FirstFree(free: seq<bool>, i: nat): (r: nat)
    requires i <= |free|
    ensures i <= r <= |free|
    ensures r < |free| ==> free[r]
    ensures forall j :: i <= j < r ==> !free[j]
    decreases |free| - i
  {
    if i == |free| || free[i] then i else FirstFree(free, i + 1)
  }

  /** alloc3_desc: the three lowest free descriptors, or nothing at all. */
  function Alloc3(free: seq<bool>): (r: Option<Chain>)
    ensures r.Some? ==>
      r.value.head < r.value.body < r.value.tail < |free| &&
      free[r.value.head] && free[r.value.body] && free[r.value.tail]
  {
    var a := FirstFree(free, 0);
    if a == |free| then None else
    var b := FirstFree(free, a + 1);
    if b == |free| then None else
    var c := FirstFree(free, b + 1);
    if c == |free| then None else Some(Chain(a, b, c))
  }

  /** Allocation fails exactly when fewer than three descriptors are free; otherwise it takes the lowest ones. */
  lemma Alloc3Exact(free: seq<bool>)
    ensures Alloc3(free).Some? <==>
      exists i, j, k {:trigger free[i], free[j], free[k]} :: 0 <= i < j < k < |free| && free[i] && free[j] && free[k]
    ensures Alloc3(free).Some? ==>
      var c := Alloc3(free).value; forall m :: 0 <= m < c.tail && free[m] ==> m == c.head || m == c.body
  {
    if Alloc3(free).Some? {
      var c := Alloc3(free).value;
      assert free[c.head] && free[c.body] && free[c.tail];
    }
  }

  /** A table with every entry of a chain overwritten by v. */
  function Mark<T>(table: seq<T>, c: Chain, v: T): (r: seq<T>)
    ensures |r| == |table|
  {
    seq(|table|, i requires 0 <= i < |table| => if InChain(i, c) then v else table[i])
  }

  datatype Queue = Queue(free: seq<bool>, desc: seq<Desc>)

  ghost predicate QueueShape(q: Queue) {
    |q.free| == NUM_DESC && |q.desc| == NUM_DESC
  }

  function CountBusy(free: seq<bool>): nat {
    if free == [] then 0 else (if free[0] then 0 else 1) + CountBusy(free[1..])
  }

  lemma {:induction false} CountBusyUpdate(free: seq<bool>, i: nat)
    requires i < |free| && !free[i]
    ensures CountBusy(free[i := true]) == CountBusy(free) - 1
  {
    if i == 0 {
      assert free[i := true][1..] == free[1..];
    } else {
      CountBusyUpdate(free[1..], i - 1);
      assert free[i := true][1..] == free[1..][i - 1 := true];
    }
  }

  /** free_desc: None is the kernel panic (index too large, or double free). */
  function FreeDesc(q: Queue, i: nat): Option<Queue>
    requires QueueShape(q)
  {
    if i >= NUM_DESC || q.free[i] then None
    else Some(Queue(q.free[i := true], q.desc[i := ZERO_DESC]))
  }

  /** free_chain: follows the next links, freeing each descriptor it leaves. */
  function FreeChain(q: Queue, i: nat): (r: Option<Queue>)
    requires QueueShape(q)
    ensures r.Some? ==> QueueShape(r.value)
    decreases CountBusy(q.free)
  {
    var q' := FreeDesc(q, i);
    if q'.None? then None else
    CountBusyUpdate(q.free, i);
    if q.desc[i].hasNext then FreeChain(q'.value, q.desc[i].next) else q'
  }

  /** What virtio_disk_rw writes into the three descriptors. */
  function HeadDesc(c: Chain): Desc { Desc(OpsAddr(c.head), HEADER_LEN, true, false, c.body) }
  function BodyDesc(req: Request, c: Chain, sectorCount: nat): Desc {
    Desc(DataAddr(req.buf), SectorsMoved(SectorOf(req.blockno), sectorCount) * SECTOR_SIZE, true, !req.write, c.tail)
  }
  function TailDesc(c: Chain): Desc { Desc(StatusAddr(c.head), 1, false, true, 0) }

  // ----- what the device makes of a chain -----

  datatype Command = Command(write: bool, sector: nat, buf: BufId, sectors: nat, status: nat)

  /** Section 5.2 of VIRTIO 1.2: header, data, one status byte.  None is a malformed request. */
  function Decode(desc: seq<Desc>, ops: seq<Header>, h: nat): Option<Command>
    requires |desc| == |ops| == NUM_DESC
  {
    if h >= NUM_DESC then None else
    var d0 := desc[h];
    if !(d0.addr.OpsAddr? && d0.addr.i < NUM_DESC && d0.len == HEADER_LEN && d0.hasNext && !d0.deviceWrites &&
         d0.next < NUM_DESC) then None else
    var hd := ops[d0.addr.i];
    var d1 := desc[d0.next];
    if !(d1.addr.DataAddr? && d1.hasNext && d1.deviceWrites == !hd.write && d1.len % SECTOR_SIZE == 0 &&
         d1.next < NUM_DESC) then None else
    var d2 := desc[d1.next];
    if !(d2.addr.StatusAddr? && d2.addr.i < NUM_DESC && d2.len == 1 && !d2.hasNext && d2.deviceWrites) then None else
    Some(Command(hd.write, hd.sector, d1.addr.b, d1.len / SECTOR_SIZE, d2.addr.i))
  }

  function Overwrite(base: seq<Sector>, at: nat, src: seq<Sector>, n: nat): (r: seq<Sector>)
    requires at + n <= |base| && n <= |src|
    ensures |r| == |base|
  {
    base[..at] + src[..n] + base[at + n..]
  }

  // ----- state -----

  datatype Lock = Unlocked | HeldBy(t: Tid) | HeldByIrq

  datatype State = State(
    // driver memory
    free: seq<bool>, desc: seq<Desc>, ops: seq<Header>, info: seq<Info>,
    avail: seq<nat>, availIdx: nat, usedSeen: nat, lock: Lock,
    // written by the device
    used: seq<nat>, usedIdx: nat,
    // private to the device
    lastAvail: nat, active: set<nat>, served: set<nat>, filling: set<nat>,
    // buffers and disk
    owned: set<BufId>, data: map<BufId, seq<Sector>>, disk: seq<Sector>,
    threads: map<Tid, Thread>,
    holder: seq<Tid>,        // auxiliary: who allocated a descriptor last
    fault: bool)             // a kernel panic, or a request the device cannot parse

  ghost predicate Shape(s: State) {
    && |s.free| == |s.desc| == |s.ops| == |s.info| == |s.avail| == |s.used| == |s.holder| == NUM_DESC
    && s.availIdx < IDX_MOD && s.usedSeen < IDX_MOD && s.usedIdx < IDX_MOD && s.lastAvail < IDX_MOD
  }

  // ----- steps of a requesting thread -----

  ghost predicate CanStart(s: State, t: Tid, req: Request) {
    && t in s.threads && s.threads[t].Idle? && Acceptable(req, |s.disk|)
    && req.buf in s.data && |s.data[req.buf]| == BLOCK_SIZE / SECTOR_SIZE
    && (forall u :: u in s.threads && !s.threads[u].Idle? ==> s.threads[u].req.buf != req.buf)
  }

  function DoStart(s: State, t: Tid, req: Request): State {
    s.(threads := s.threads[t := Want(req)])
  }

  predicate CanAlloc(s: State, t: Tid) {
    t in s.threads && s.threads[t].Want? && s.lock.Unlocked?
  }

  /** Lock and alloc3_desc; without three free descriptors the thread sleeps and nothing changes. */
  function DoAlloc(s: State, t: Tid): State
    requires |s.free| == |s.holder| == NUM_DESC && CanAlloc(s, t)
  {
    var r := Alloc3(s.free);
    if r.None? then s else
    var c := r.value;
    s.(free := Mark(s.free, c, false), lock := HeldBy(t), holder := Mark(s.holder, c, t),
       threads := s.threads[t := Alloced(s.threads[t].req, c)])
  }

  predicate CanFormat(s: State, t: Tid) {
    t in s.threads && s.threads[t].Alloced? && ChainInRange(s.threads[t].c)
  }

  function DoFormat(s: State, t: Tid): State
    requires |s.desc| == |s.ops| == |s.info| == NUM_DESC && CanFormat(s, t)
  {
    var req, c := s.threads[t].req, s.threads[t].c;
    s.(ops := s.ops[c.head := Header(req.write, SectorOf(req.blockno))],
       desc := s.desc[c.head := HeadDesc(c)][c.body := BodyDesc(req, c, |s.disk|)][c.tail := TailDesc(c)],
       info := s.info[c.head := Info(Some(req.buf), STATUS_PENDING)],
       owned := s.owned + {req.buf},
       threads := s.threads[t := Formatted(req, c)])
  }

  predicate CanSlot(s: State, t: Tid) { t in s.threads && s.threads[t].Formatted? }

  function DoSlot(s: State, t: Tid): State
    requires |s.avail| == NUM_DESC && CanSlot(s, t)
  {
    s.(avail := s.avail[s.availIdx % NUM_DESC := s.threads[t].c.head],
       threads := s.threads[t := Slotted(s.threads[t].req, s.threads[t].c)])
  }

  predicate CanPublish(s: State, t: Tid) { t in s.threads && s.threads[t].Slotted? }

  function DoPublish(s: State, t: Tid): State
    requires CanPublish(s, t)
  {
    s.(availIdx := Succ(s.availIdx), threads := s.threads[t := Published(s.threads[t].req, s.threads[t].c)])
  }

  predicate CanSleep(s: State, t: Tid) { t in s.threads && s.threads[t].Published? && s.lock == HeldBy(t) }

  predicate CanReclaim(s: State, t: Tid) {
    t in s.threads && s.threads[t].Published? && s.lock.Unlocked? && s.threads[t].req.buf !in s.owned &&
    s.threads[t].c.head < NUM_DESC
  }

  /** Woken with the buffer handed back: free the chain and return. */
  function DoReclaim(s: State, t: Tid): State
    requires |s.free| == |s.desc| == |s.info| == NUM_DESC && CanReclaim(s, t)
  {
    var c := s.threads[t].c;
    var q := FreeChain(Queue(s.free, s.desc), c.head);
    if q.None? then s.(fault := true) else
    s.(free := q.value.free, desc := q.value.desc,
       info := s.info[c.head := s.info[c.head].(b := None)],
       threads := s.threads[t := Idle])
  }

  // ----- steps of the interrupt handler -----

  predicate CanIrqOne(s: State) { s.lock.HeldByIrq? && s.usedSeen != s.usedIdx }

  /** One turn of the handler's loop; a non-zero status or a missing buffer is a panic. */
  function DoIrqOne(s: State): State
    requires |s.used| == |s.info| == NUM_DESC
  {
    var id := s.used[s.usedSeen % NUM_DESC];
    if id >= NUM_DESC || s.info[id].status != 0 || s.info[id].b.None? then s.(fault := true) else
    s.(owned := s.owned - {s.info[id].b.value}, usedSeen := Succ(s.usedSeen))
  }

  // ----- steps of the device -----

  function DoDevFetch(s: State): State
    requires |s.avail| == NUM_DESC
  {
    s.(active := s.active + {s.avail[s.lastAvail % NUM_DESC]}, lastAvail := Succ(s.lastAvail))
  }

  predicate Performable(s: State, cmd: Command) {
    && cmd.buf in s.data && cmd.sectors <= |s.data[cmd.buf]|
    && cmd.sector + cmd.sectors <= |s.disk| && cmd.status < NUM_DESC
  }

  function DoDevTransfer(s: State, h: nat): State
    requires |s.desc| == |s.ops| == |s.info| == NUM_DESC
  {
    var d := Decode(s.desc, s.ops, h);
    if d.None? || !Performable(s, d.value) then s.(fault := true) else
    var cmd := d.value;
    s.(info := s.info[cmd.status := s.info[cmd.status].(status := 0)],
       active := s.active - {h}, served := s.served + {h},
       disk := if cmd.write then Overwrite(s.disk, cmd.sector, s.data[cmd.buf], cmd.sectors) else s.disk,
       data := if cmd.write then s.data
               else s.data[cmd.buf := Overwrite(s.data[cmd.buf], 0, s.disk[cmd.sector..], cmd.sectors)])
  }

  function DoDevUsedSlot(s: State, h: nat): State
    requires |s.used| == NUM_DESC
  {
    s.(used := s.used[s.usedIdx % NUM_DESC := h], served := s.served - {h}, filling := {h})
  }

  function DoDevUsedPublish(s: State): State {
    s.(usedIdx := Succ(s.usedIdx), filling := {})
  }

  datatype Step =
    | Start(t: Tid, req: Request)
    | Alloc(t: Tid)
    | Format(t: Tid)
    | Slot(t: Tid)
    | Publish(t: Tid)
    | Sleep(t: Tid)
    | Reclaim(t: Tid)
    | IrqEnter
    | IrqOne
    | IrqExit
    | DevFetch
    | DevTransfer(h: nat)
    | DevUsedSlot(h: nat)
    | DevUsedPublish

  ghost predicate Enabled(s: State, step: Step) {
    Shape(s) && !s.fault &&
    match step
    case Start(t, req) => CanStart(s, t, req)
    case Alloc(t) => CanAlloc(s, t)
    case Format(t) => CanFormat(s, t)
    case Slot(t) => CanSlot(s, t)
    case Publish(t) => CanPublish(s, t)
    case Sleep(t) => CanSleep(s, t)
    case Reclaim(t) => CanReclaim(s, t)
    case IrqEnter => s.lock.Unlocked?
    case IrqOne => CanIrqOne(s)
    case IrqExit => s.lock.HeldByIrq? && s.usedSeen == s.usedIdx
    case DevFetch => s.lastAvail != s.availIdx
    case DevTransfer(h) => h in s.active
    case DevUsedSlot(h) => h in s.served && s.filling == {}
    case DevUsedPublish => s.filling != {}
  }

  ghost function Apply(s: State, step: Step): State
    requires Enabled(s, step)
  {
    match step
    case Start(t, req) => DoStart(s, t, req)
    case Alloc(t) => DoAlloc(s, t)
    case Format(t) => DoFormat(s, t)
    case Slot(t) => DoSlot(s, t)
    case Publish(t) => DoPublish(s, t)
    case Sleep(t) => s.(lock := Unlocked)
    case Reclaim(t) => DoReclaim(s, t)
    case IrqEnter => s.(lock := HeldByIrq)
    case IrqOne => DoIrqOne(s)
    case IrqExit => s.(lock := Unlocked)
    case DevFetch => DoDevFetch(s)
    case DevTransfer(h) => DoDevTransfer(s, h)
    case DevUsedSlot(h) => DoDevUsedSlot(s, h)
    case DevUsedPublish => DoDevUsedPublish(s)
  }

  // ----- invariant -----

  predicate ChainInRange(c: Chain) {
    c.head < NUM_DESC && c.body < NUM_DESC && c.tail < NUM_DESC
  }

  predicate ChainOf(free: seq<bool>, holder: seq<Tid>, t: Tid, c: Chain)
    requires |free| == |holder| == NUM_DESC
  {
    && ChainInRange(c) && c.head != c.body && c.body != c.tail && c.head != c.tail
    && !free[c.head] && !free[c.body] && !free[c.tail]
    && holder[c.head] == holder[c.body] == holder[c.tail] == t
  }

  /** Free descriptors and the chains of the threads partition the table. */
  ghost predicate Partition(free: seq<bool>, desc: seq<Desc>, holder: seq<Tid>, threads: map<Tid, Thread>)
    requires |free| == |desc| == |holder| == NUM_DESC
  {
    && (forall t :: t in threads && HasChain(threads[t]) ==> ChainOf(free, holder, t, threads[t].c))
    && (forall i :: 0 <= i < NUM_DESC && !free[i] ==>
          holder[i] in threads && HasChain(threads[holder[i]]) && InChain(i, threads[holder[i]].c))
    && (forall i :: 0 <= i < NUM_DESC && free[i] ==> desc[i] == ZERO_DESC)
  }

  predicate FormattedFor(desc: seq<Desc>, ops: seq<Header>, info: seq<Info>, sectorCount: nat, req: Request, c: Chain)
    requires |desc| == |ops| == |info| == NUM_DESC
  {
    && ChainInRange(c)
    && ops[c.head] == Header(req.write, SectorOf(req.blockno))
    && desc[c.head] == HeadDesc(c)
    && desc[c.body] == BodyDesc(req, c, sectorCount)
    && desc[c.tail] == TailDesc(c)
    && info[c.head].b == Some(req.buf)
  }

  ghost predicate Formats(desc: seq<Desc>, ops: seq<Header>, info: seq<Info>, sectorCount: nat,
                          threads: map<Tid, Thread>)
    requires |desc| == |ops| == |info| == NUM_DESC
  {
    forall t :: t in threads && IsFormatted(threads[t]) ==>
      FormattedFor(desc, ops, info, sectorCount, threads[t].req, threads[t].c)
  }

  ghost predicate LockPhase(lock: Lock, threads: map<Tid, Thread>) {
    && (forall t :: t in threads && (threads[t].Alloced? || threads[t].Formatted? || threads[t].Slotted?) ==>
          lock == HeldBy(t))
    && (lock.HeldBy? ==> lock.t in threads && HasChain(threads[lock.t]))
  }

  ghost predicate Buffers(threads: map<Tid, Thread>, data: map<BufId, seq<Sector>>, sectorCount: nat) {
    && (forall t :: t in threads && !threads[t].Idle? ==>
          Acceptable(threads[t].req, sectorCount) && threads[t].req.buf in data &&
          |data[threads[t].req.buf]| == BLOCK_SIZE / SECTOR_SIZE)
    && (forall t, u :: t in threads && u in threads && t != u && !threads[t].Idle? && !threads[u].Idle? ==>
          threads[t].req.buf != threads[u].req.buf)
  }

  /** h is the head of a published chain whose buffer is still with the device. */
  predicate InFlight(h: nat, threads: map<Tid, Thread>, holder: seq<Tid>, owned: set<BufId>) {
    && h < |holder| && holder[h] in threads
    && threads[holder[h]].Published? && threads[holder[h]].c.head == h
    && threads[holder[h]].req.buf in owned
  }

  /** Heads in flight whose status byte is `status`. */
  function Heads(threads: map<Tid, Thread>, holder: seq<Tid>, owned: set<BufId>, info: seq<Info>, status: nat): set<nat>
    requires |info| == NUM_DESC
  {
    set h: nat | h < NUM_DESC && InFlight(h, threads, holder, owned) && info[h].status == status
  }

  function Unserved(s: State): set<nat>
    requires |s.info| == NUM_DESC
  {
    Heads(s.threads, s.holder, s.owned, s.info, STATUS_PENDING)
  }

  function Served(s: State): set<nat>
    requires |s.info| == NUM_DESC
  {
    Heads(s.threads, s.holder, s.owned, s.info, 0)
  }

  /** Status bytes and buffer ownership of formatted requests. */
  ghost predicate Status(threads: map<Tid, Thread>, owned: set<BufId>, info: seq<Info>)
    requires |info| == NUM_DESC
  {
    && (forall t :: t in threads && (threads[t].Formatted? || threads[t].Slotted?) ==>
          && threads[t].req.buf in owned && threads[t].c.head < NUM_DESC
          && info[threads[t].c.head].status == STATUS_PENDING)
    && (forall t :: t in threads && threads[t].Published? ==>
          threads[t].c.head < NUM_DESC && info[threads[t].c.head].status in {0, STATUS_PENDING})
  }

  /** The unserved heads are exactly those in the avail window or fetched, each once. */
  ghost predicate Inbound(window: seq<nat>, active: set<nat>, heads: set<nat>) {
    && NoDup(window)
    && (forall h :: h in window ==> h in heads && h !in active)
    && active <= heads
    && (forall h :: h in heads ==> h in window || h in active)
  }

  /** The served heads are exactly those done, being published or in the used window, each once. */
  ghost predicate Outbound(window: seq<nat>, served: set<nat>, filling: set<nat>, heads: set<nat>) {
    && NoDup(window)
    && (forall h :: h in window ==> h in heads && h !in served && h !in filling)
    && served <= heads && filling <= heads && served !! filling
    && (forall h :: h in heads ==> h in window || h in served || h in filling)
  }

  function AvailWindow(s: State): seq<nat>
    requires |s.avail| == NUM_DESC && s.lastAvail < IDX_MOD && s.availIdx < IDX_MOD
  {
    Window(s.avail, s.lastAvail, s.availIdx)
  }

  function UsedWindow(s: State): seq<nat>
    requires |s.used| == NUM_DESC && s.usedSeen < IDX_MOD && s.usedIdx < IDX_MOD
  {
    Window(s.used, s.usedSeen, s.usedIdx)
  }

  /** Slots already written whose index has not been bumped yet. */
  ghost predicate Pending(s: State)
    requires |s.avail| == |s.used| == NUM_DESC
  {
    && (forall t :: t in s.threads && s.threads[t].Slotted? ==> s.avail[s.availIdx % NUM_DESC] == s.threads[t].c.head)
    && (s.filling == {} || s.filling == {s.used[s.usedIdx % NUM_DESC]})
  }

  /** The driver's tables and the threads' phases. */
  ghost predicate Tables(s: State) {
    && Shape(s) && !s.fault
    && Partition(s.free, s.desc, s.holder, s.threads)
    && Formats(s.desc, s.ops, s.info, |s.disk|, s.threads)
    && LockPhase(s.lock, s.threads)
    && Buffers(s.threads, s.data, |s.disk|)
  }

  /** The way of every head in flight around the two rings. */
  ghost predicate Flow(s: State)
    requires Shape(s)
  {
    && Status(s.threads, s.owned, s.info)
    && Inbound(AvailWindow(s), s.active, Unserved(s))
    && Outbound(UsedWindow(s), s.served, s.filling, Served(s))
    && Pending(s)
  }

  ghost predicate Inv(s: State) {
    Tables(s) && Flow(s)
  }

  ghost predicate Init(s: State) {
    && Shape(s) && !s.fault && s.lock.Unlocked?
    && (forall i :: 0 <= i < NUM_DESC ==> s.free[i] && s.desc[i] == ZERO_DESC)
    && s.availIdx == s.lastAvail && s.usedIdx == s.usedSeen
    && s.active == {} && s.served == {} && s.filling == {} && s.owned == {}
    && (forall t :: t in s.threads ==> s.threads[t].Idle?)
  }

  lemma InitInv(s: State)
    requires Init(s)
    ensures Inv(s)
  {
    assert AvailWindow(s) == [] && UsedWindow(s) == [];
  }

  // ----- preservation, step by step -----

  lemma StartTables(s: State, t: Tid, req: Request)
    requires Tables(s) && CanStart(s, t, req)
    ensures Tables(DoStart(s, t, req))
  {
  }

  lemma StartFlow(s: State, t: Tid, req: Request)
    requires Shape(s) && Flow(s) && CanStart(s, t, req)
    ensures Flow(DoStart(s, t, req))
  {
    var s' := DoStart(s, t, req);
    assert Unserved(s') == Unserved(s) && Served(s') == Served(s);
  }

  lemma AllocPartition(free: seq<bool>, desc: seq<Desc>, holder: seq<Tid>, threads: map<Tid, Thread>, t: Tid,
                       th: Thread)
    requires |free| == |desc| == |holder| == NUM_DESC && Partition(free, desc, holder, threads)
    requires t in threads && !HasChain(threads[t]) && HasChain(th)
    requires th.c.head < th.c.body < th.c.tail < NUM_DESC && free[th.c.head] && free[th.c.body] && free[th.c.tail]
    ensures Partition(Mark(free, th.c, false), desc, Mark(holder, th.c, t), threads[t := th])
  {
  }

  lemma AllocPhases(desc: seq<Desc>, ops: seq<Header>, info: seq<Info>, data: map<BufId, seq<Sector>>, n: nat,
                    threads: map<Tid, Thread>, t: Tid, th: Thread)
    requires |desc| == |ops| == |info| == NUM_DESC && Formats(desc, ops, info, n, threads)
    requires LockPhase(Unlocked, threads) && Buffers(threads, data, n)
    requires t in threads && threads[t].Want? && th.Alloced? && th.req == threads[t].req
    ensures Formats(desc, ops, info, n, threads[t := th]) && LockPhase(HeldBy(t), threads[t := th])
    ensures Buffers(threads[t := th], data, n)
  {
  }

  lemma AllocTables(s: State, t: Tid)
    requires Tables(s) && CanAlloc(s, t)
    ensures Tables(DoAlloc(s, t))
  {
    var r := Alloc3(s.free);
    if r.Some? {
      var th := Alloced(s.threads[t].req, r.value);
      AllocPartition(s.free, s.desc, s.holder, s.threads, t, th);
      AllocPhases(s.desc, s.ops, s.info, s.data, |s.disk|, s.threads, t, th);
    }
  }

  lemma AllocHeads(s: State, t: Tid, th: Thread, status: nat)
    requires Tables(s) && t in s.threads && s.threads[t].Want? && th.Alloced?
    requires th.c.head < th.c.body < th.c.tail < NUM_DESC && s.free[th.c.head] && s.free[th.c.body] && s.free[th.c.tail]
    ensures Heads(s.threads[t := th], Mark(s.holder, th.c, t), s.owned, s.info, status)
         == Heads(s.threads, s.holder, s.owned, s.info, status)
  {
  }

  lemma AllocFlow(s: State, t: Tid)
    requires Inv(s) && CanAlloc(s, t)
    ensures Flow(DoAlloc(s, t))
  {
    var r := Alloc3(s.free);
    if r.Some? {
      var th := Alloced(s.threads[t].req, r.value);
      AllocHeads(s, t, th, 0);
      AllocHeads(s, t, th, STATUS_PENDING);
    }
  }

  lemma FormatFormats(desc: seq<Desc>, ops: seq<Header>, info: seq<Info>, free: seq<bool>, holder: seq<Tid>,
                      threads: map<Tid, Thread>, sectorCount: nat, t: Tid)
    requires |free| == |desc| == |holder| == |ops| == |info| == NUM_DESC
    requires Partition(free, desc, holder, threads) && Formats(desc, ops, info, sectorCount, threads)
    requires t in threads && threads[t].Alloced?
    ensures
      var req, c := threads[t].req, threads[t].c;
      ChainInRange(c) &&
      Formats(desc[c.head := HeadDesc(c)][c.body := BodyDesc(req, c, sectorCount)][c.tail := TailDesc(c)],
              ops[c.head := Header(req.write, SectorOf(req.blockno))],
              info[c.head := Info(Some(req.buf), STATUS_PENDING)], sectorCount, threads[t := Formatted(req, c)])
  {
    var req, c := threads[t].req, threads[t].c;
    forall u | u in threads && u != t && IsFormatted(threads[u])
      ensures !InChain(threads[u].c.head, c) && !InChain(threads[u].c.body, c) && !InChain(threads[u].c.tail, c)
    {
    }
  }

  lemma FormatPartition(desc: seq<Desc>, free: seq<bool>, holder: seq<Tid>, threads: map<Tid, Thread>, t: Tid,
                        d: seq<Desc>)
    requires |free| == |desc| == |holder| == |d| == NUM_DESC && Partition(free, desc, holder, threads)
    requires t in threads && threads[t].Alloced?
    requires forall i :: 0 <= i < NUM_DESC && free[i] ==> d[i] == desc[i]
    ensures Partition(free, d, holder, threads[t := Formatted(threads[t].req, threads[t].c)])
  {
  }

  lemma FormatTables(s: State, t: Tid)
    requires Tables(s) && CanFormat(s, t)
    ensures Tables(DoFormat(s, t))
  {
    var s' := DoFormat(s, t);
    FormatFormats(s.desc, s.ops, s.info, s.free, s.holder, s.threads, |s.disk|, t);
    assert ChainOf(s.free, s.holder, t, s.threads[t].c);
    FormatPartition(s.desc, s.free, s.holder, s.threads, t, s'.desc);
  }

  lemma FormatFlow(s: State, t: Tid)
    requires Inv(s) && CanFormat(s, t)
    ensures Flow(DoFormat(s, t))
  {
    var s' := DoFormat(s, t);
    assert Unserved(s') == Unserved(s) && Served(s') == Served(s);
  }

  lemma SlotTables(s: State, t: Tid)
    requires Tables(s) && CanSlot(s, t)
    ensures Tables(DoSlot(s, t))
  {
  }

  lemma SlotFlow(s: State, t: Tid)
    requires Inv(s) && CanSlot(s, t)
    ensures Flow(DoSlot(s, t))
  {
    var s' := DoSlot(s, t);
    var h := s.threads[t].c.head;
    assert Unserved(s') == Unserved(s) && Served(s') == Served(s);
    RoomForOne(AvailWindow(s), h);
    WindowSlot(s.avail, s.lastAvail, s.availIdx, h);
  }

  lemma PublishTables(s: State, t: Tid)
    requires Tables(s) && CanPublish(s, t)
    ensures Tables(DoPublish(s, t))
  {
  }

  lemma PublishFlow(s: State, t: Tid)
    requires Inv(s) && CanPublish(s, t)
    ensures Flow(DoPublish(s, t))
  {
    var s' := DoPublish(s, t);
    var h := s.threads[t].c.head;
    assert Unserved(s') == Unserved(s) + {h} && Served(s') == Served(s);
    RoomForOne(AvailWindow(s), h);
    WindowPush(s.avail, s.lastAvail, s.availIdx);
  }

  lemma FreeChainOfThree(q: Queue, c: Chain)
    requires QueueShape(q) && ChainInRange(c) && c.head != c.body && c.body != c.tail && c.head != c.tail
    requires !q.free[c.head] && !q.free[c.body] && !q.free[c.tail]
    requires q.desc[c.head].hasNext && q.desc[c.head].next == c.body
    requires q.desc[c.body].hasNext && q.desc[c.body].next == c.tail
    requires !q.desc[c.tail].hasNext
    ensures FreeChain(q, c.head) == Some(Queue(Mark(q.free, c, true), Mark(q.desc, c, ZERO_DESC)))
  {
    var q1 := FreeDesc(q, c.head).value;
    var q2 := FreeDesc(q1, c.body).value;
    var q3 := FreeDesc(q2, c.tail).value;
    assert FreeChain(q2, c.tail) == Some(q3);
    assert FreeChain(q1, c.body) == Some(q3);
    assert q3.free == Mark(q.free, c, true) && q3.desc == Mark(q.desc, c, ZERO_DESC);
  }

  lemma ReclaimPartition(free: seq<bool>, desc: seq<Desc>, holder: seq<Tid>, threads: map<Tid, Thread>, t: Tid)
    requires |free| == |desc| == |holder| == NUM_DESC && Partition(free, desc, holder, threads)
    requires t in threads && threads[t].Published?
    ensures Partition(Mark(free, threads[t].c, true), Mark(desc, threads[t].c, ZERO_DESC), holder, threads[t := Idle])
  {
  }

  lemma ReclaimTables(s: State, t: Tid)
    requires Tables(s) && CanReclaim(s, t)
    ensures Tables(DoReclaim(s, t))
  {
    PublishedChain(s, t);
    FreeChainOfThree(Queue(s.free, s.desc), s.threads[t].c);
    ReclaimPartition(s.free, s.desc, s.holder, s.threads, t);
    hide FreeChain, Partition;
  }

  lemma PublishedChain(s: State, t: Tid)
    requires Tables(s) && CanReclaim(s, t)
    ensures var c := s.threads[t].c;
      && ChainInRange(c) && c.head != c.body && c.body != c.tail && c.head != c.tail
      && QueueShape(Queue(s.free, s.desc))
      && !s.free[c.head] && !s.free[c.body] && !s.free[c.tail]
      && s.desc[c.head].hasNext && s.desc[c.head].next == c.body
      && s.desc[c.body].hasNext && s.desc[c.body].next == c.tail && !s.desc[c.tail].hasNext
  {
  }

  lemma ReclaimFlow(s: State, t: Tid)
    requires Inv(s) && CanReclaim(s, t)
    ensures Flow(DoReclaim(s, t))
  {
    var s' := DoReclaim(s, t);
    FreeChainOfThree(Queue(s.free, s.desc), s.threads[t].c);
    assert Unserved(s') == Unserved(s) && Served(s') == Served(s);
  }

  /** The handler's next used entry: a served head whose buffer the driver still owns. */
  lemma NextUsed(s: State, h: nat)
    requires Inv(s) && CanIrqOne(s) && h == s.used[s.usedSeen % NUM_DESC]
    ensures h in Served(s) && !DoIrqOne(s).fault
    ensures NoDup(UsedWindow(DoIrqOne(s))) && h !in UsedWindow(DoIrqOne(s))
    ensures UsedWindow(s) == [h] + UsedWindow(DoIrqOne(s))
    ensures s.info[h].b == Some(s.threads[s.holder[h]].req.buf)
  {
    WindowPop(s.used, s.usedSeen, s.usedIdx);
    assert UsedWindow(s)[0] == h;
    NoDupTail(h, Window(s.used, Succ(s.usedSeen), s.usedIdx));
  }

  lemma IrqOneInv(s: State)
    requires Inv(s) && CanIrqOne(s)
    ensures Tables(DoIrqOne(s)) && Flow(DoIrqOne(s))
  {
    var s' := DoIrqOne(s);
    var h := s.used[s.usedSeen % NUM_DESC];
    NextUsed(s, h);
    assert Unserved(s') == Unserved(s) && Served(s') == Served(s) - {h};
  }

  lemma DevFetchInv(s: State)
    requires Inv(s) && s.lastAvail != s.availIdx
    ensures Tables(DoDevFetch(s)) && Flow(DoDevFetch(s))
  {
    var s' := DoDevFetch(s);
    WindowPop(s.avail, s.lastAvail, s.availIdx);
    var h := AvailWindow(s)[0];
    NoDupTail(h, AvailWindow(s'));
    assert h in AvailWindow(s);
  }

  /** The device reads back exactly the request the owning thread submitted. */
  lemma DecodesToRequest(s: State, h: nat)
    requires Tables(s) && InFlight(h, s.threads, s.holder, s.owned)
    ensures
      var req := s.threads[s.holder[h]].req;
      var sector := SectorOf(req.blockno);
      var cmd := Command(req.write, sector, req.buf, SectorsMoved(sector, |s.disk|), h);
      Decode(s.desc, s.ops, h) == Some(cmd) && Performable(s, cmd)
  {
  }

  lemma DevTransferTables(s: State, h: nat)
    requires Tables(s) && InFlight(h, s.threads, s.holder, s.owned)
    ensures Tables(DoDevTransfer(s, h))
  {
    DecodesToRequest(s, h);
  }

  lemma DevTransferFlow(s: State, h: nat)
    requires Inv(s) && h in s.active
    ensures Flow(DoDevTransfer(s, h))
  {
    DecodesToRequest(s, h);
    var s' := DoDevTransfer(s, h);
    assert Unserved(s') == Unserved(s) - {h} && Served(s') == Served(s) + {h};
  }

  lemma DevUsedSlotInv(s: State, h: nat)
    requires Inv(s) && h in s.served && s.filling == {}
    ensures Tables(DoDevUsedSlot(s, h)) && Flow(DoDevUsedSlot(s, h))
  {
    RoomForOne(UsedWindow(s), h);
    WindowSlot(s.used, s.usedSeen, s.usedIdx, h);
  }

  lemma DevUsedPublishInv(s: State)
    requires Inv(s) && s.filling != {}
    ensures Tables(DoDevUsedPublish(s)) && Flow(DoDevUsedPublish(s))
  {
    RoomForOne(UsedWindow(s), s.used[s.usedIdx % NUM_DESC]);
    WindowPush(s.used, s.usedSeen, s.usedIdx);
  }

  lemma StepInv(s: State, step: Step)
    requires Inv(s) && Enabled(s, step)
    ensures Inv(Apply(s, step))
  {
    match step
    case Start(t, req) => StartTables(s, t, req); StartFlow(s, t, req);
    case Alloc(t) => AllocTables(s, t); AllocFlow(s, t);
    case Format(t) => FormatTables(s, t); FormatFlow(s, t);
    case Slot(t) => SlotTables(s, t); SlotFlow(s, t);
    case Publish(t) => PublishTables(s, t); PublishFlow(s, t);
    case Reclaim(t) => ReclaimTables(s, t); ReclaimFlow(s, t);
    case IrqOne => IrqOneInv(s);
    case DevFetch => DevFetchInv(s);
    case DevTransfer(h) => DevTransferTables(s, h); DevTransferFlow(s, h);
    case DevUsedSlot(h) => DevUsedSlotInv(s, h);
    case DevUsedPublish => DevUsedPublishInv(s);
    case _ =>
  }

  // ----- whole runs -----

  ghost predicate Run(states: seq<State>, steps: seq<Step>) {
    && |states| == |steps| + 1 && Init(states[0])
    && forall i :: 0 <= i < |steps| ==> Enabled(states[i], steps[i]) && states[i + 1] == Apply(states[i], steps[i])
  }

  /**
   In every run, in every state: no panic and no malformed request; free descriptors and
   chains partition the table; and the unconsumed ring slots name distinct heads in flight.
  */
  lemma {:induction false} RunSafe(states: seq<State>, steps: seq<Step>, i: nat)
    requires Run(states, steps) && i < |states|
    ensures Inv(states[i])
  {
    if i == 0 {
      InitInv(states[0]);
    } else {
      RunSafe(states, steps, i - 1);
      StepInv(states[i - 1], steps[i - 1]);
    }
  }

  /** The two windows, the device's own sets and the slot being filled never share a head. */
  lemma HeadsAreDistinct(s: State, h: nat)
    requires Inv(s)
    ensures (if h in AvailWindow(s) then 1 else 0) + (if h in s.active then 1 else 0) +
            (if h in s.served then 1 else 0) +
            (if h in s.filling then 1 else 0) + (if h in UsedWindow(s) then 1 else 0)
         == (if InFlight(h, s.threads, s.holder, s.owned) then 1 else 0)
    ensures |AvailWindow(s)| <= NUM_DESC && |UsedWindow(s)| <= NUM_DESC
  {
    NoDupBound(AvailWindow(s), NUM_DESC);
    NoDupBound(UsedWindow(s), NUM_DESC);
    if InFlight(h, s.threads, s.holder, s.owned) {
      assert h in Unserved(s) || h in Served(s);
    }
  }

  // ----- refinement: what a caller of virtio_disk_rw sees -----

  datatype Phase = NoRequest | Queued(req: Request) | Performed(req: Request) | Returned(req: Request)

  /** The specification: disk, buffers and one request automaton per thread. */
  datatype Spec = Spec(disk: seq<Sector>, data: map<BufId, seq<Sector>>, phases: map<Tid, Phase>)

  ghost predicate SpecSubmit(a: Spec, b: Spec, t: Tid, req: Request) {
    t in a.phases && a.phases[t].NoRequest? && b == a.(phases := a.phases[t := Queued(req)])
  }

  /** The one moment at which a request touches the disk or its buffer. */
  ghost predicate SpecPerform(a: Spec, b: Spec, t: Tid) {
    t in a.phases && a.phases[t].Queued? &&
    var req := a.phases[t].req;
    var sector := SectorOf(req.blockno);
    var n := SectorsMoved(sector, |a.disk|);
    req.buf in a.data && n <= |a.data[req.buf]| && sector + n <= |a.disk| &&
    b == Spec(if req.write then Overwrite(a.disk, sector, a.data[req.buf], n) else a.disk,
              if req.write then a.data else a.data[req.buf := Overwrite(a.data[req.buf], 0, a.disk[sector..], n)],
              a.phases[t := Performed(req)])
  }

  ghost predicate SpecReturn(a: Spec, b: Spec, t: Tid) {
    t in a.phases && a.phases[t].Performed? && b == a.(phases := a.phases[t := Returned(a.phases[t].req)])
  }

  ghost predicate SpecFinish(a: Spec, b: Spec, t: Tid) {
    t in a.phases && a.phases[t].Returned? && b == a.(phases := a.phases[t := NoRequest])
  }

  function PhaseOf(th: Thread, owned: set<BufId>, info: seq<Info>): Phase {
    if th.Idle? then NoRequest
    else if !th.Published? then Queued(th.req)
    else if th.req.buf !in owned then Returned(th.req)
    else if th.c.head < |info| && info[th.c.head].status == 0 then Performed(th.req)
    else Queued(th.req)
  }

  /** The thread whose descriptor h is (0 for a number outside the table). */
  function HolderOf(s: State, h: nat): Tid { if h < |s.holder| then s.holder[h] else 0 }

  function Abs(s: State): Spec {
    Spec(s.disk, s.data, map t | t in s.threads :: PhaseOf(s.threads[t], s.owned, s.info))
  }

  /** What a step means to the callers of virtio_disk_rw. */
  datatype Event = Submit(t: Tid, req: Request) | Perform(t: Tid) | Return(t: Tid) | Finish(t: Tid) | Invisible

  function EventOf(s: State, step: Step): Event
    requires |s.used| == NUM_DESC
  {
    match step
    case Start(t, req) => Submit(t, req)
    case Reclaim(t) => Finish(t)
    case IrqOne => Return(HolderOf(s, s.used[s.usedSeen % NUM_DESC]))
    case DevTransfer(h) => Perform(HolderOf(s, h))
    case _ => Invisible
  }

  ghost predicate SpecNext(a: Spec, b: Spec, ev: Event) {
    match ev
    case Submit(t, req) => SpecSubmit(a, b, t, req)
    case Perform(t) => SpecPerform(a, b, t)
    case Return(t) => SpecReturn(a, b, t)
    case Finish(t) => SpecFinish(a, b, t)
    case Invisible => b == a
  }

  lemma TransferRefines(s: State, h: nat)
    requires Inv(s) && h in s.active
    ensures SpecPerform(Abs(s), Abs(DoDevTransfer(s, h)), s.holder[h])
  {
    var s' := DoDevTransfer(s, h);
    var t := s.holder[h];
    DecodesToRequest(s, h);
    assert Abs(s').phases == Abs(s).phases[t := Performed(s.threads[t].req)];
  }

  lemma IrqRefines(s: State)
    requires Inv(s) && CanIrqOne(s)
    ensures SpecReturn(Abs(s), Abs(DoIrqOne(s)), HolderOf(s, s.used[s.usedSeen % NUM_DESC]))
  {
    var s' := DoIrqOne(s);
    var h := s.used[s.usedSeen % NUM_DESC];
    NextUsed(s, h);
    var t := s.holder[h];
    assert Abs(s').phases == Abs(s).phases[t := Returned(s.threads[t].req)];
  }

  lemma StartRefines(s: State, t: Tid, req: Request)
    requires CanStart(s, t, req)
    ensures SpecSubmit(Abs(s), Abs(DoStart(s, t, req)), t, req)
  {
    assert Abs(DoStart(s, t, req)).phases == Abs(s).phases[t := Queued(req)];
  }

  lemma FormatRefines(s: State, t: Tid)
    requires Inv(s) && CanFormat(s, t)
    ensures Abs(DoFormat(s, t)) == Abs(s)
  {
    var s' := DoFormat(s, t);
    forall u | u in s.threads && s.threads[u].Published?
      ensures PhaseOf(s'.threads[u], s'.owned, s'.info) == PhaseOf(s.threads[u], s.owned, s.info)
    {
      assert ChainOf(s.free, s.holder, u, s.threads[u].c) && ChainOf(s.free, s.holder, t, s.threads[t].c);
    }
    assert Abs(s').phases == Abs(s).phases;
  }

  lemma PublishRefines(s: State, t: Tid)
    requires Inv(s) && CanPublish(s, t)
    ensures Abs(DoPublish(s, t)) == Abs(s)
  {
    assert Abs(DoPublish(s, t)).phases == Abs(s).phases;
  }

  lemma QuietRefines(s: State, t: Tid)
    requires Shape(s)
    ensures CanAlloc(s, t) ==> Abs(DoAlloc(s, t)) == Abs(s)
    ensures CanSlot(s, t) ==> Abs(DoSlot(s, t)) == Abs(s)
  {
    if CanAlloc(s, t) { assert Abs(DoAlloc(s, t)).phases == Abs(s).phases; }
    if CanSlot(s, t) { assert Abs(DoSlot(s, t)).phases == Abs(s).phases; }
  }

  lemma ReclaimRefines(s: State, t: Tid)
    requires Inv(s) && CanReclaim(s, t)
    ensures SpecFinish(Abs(s), Abs(DoReclaim(s, t)), t)
  {
    FreeChainOfThree(Queue(s.free, s.desc), s.threads[t].c);
    assert Abs(DoReclaim(s, t)).phases == Abs(s).phases[t := NoRequest];
  }

  /** Every step of driver, handler and device is one step of the specification, or invisible. */
  lemma StepRefines(s: State, step: Step)
    requires Inv(s) && Enabled(s, step)
    ensures SpecNext(Abs(s), Abs(Apply(s, step)), EventOf(s, step))
  {
    match step
    case Start(t, req) => StartRefines(s, t, req);
    case Alloc(t) => QuietRefines(s, t);
    case Format(t) => FormatRefines(s, t);
    case Slot(t) => QuietRefines(s, t);
    case Publish(t) => PublishRefines(s, t);
    case Reclaim(t) => ReclaimRefines(s, t);
    case IrqOne => IrqRefines(s);
    case DevTransfer(h) => TransferRefines(s, h);
    case _ =>
  }

  /** 1 while thread t has a request that has not been handed back. */
  function Outstanding(a: Spec, t: Tid): nat {
    if t in a.phases && (a.phases[t].Queued? || a.phases[t].Performed?) then 1 else 0
  }

  function Submits(ev: Event, t: Tid): nat { if ev.Submit? && ev.t == t then 1 else 0 }
  function HandsBack(ev: Event, t: Tid): nat { if ev == Return(t) then 1 else 0 }

  lemma SpecBalance(a: Spec, b: Spec, ev: Event, t: Tid)
    requires SpecNext(a, b, ev)
    ensures Outstanding(b, t) + HandsBack(ev, t) == Outstanding(a, t) + Submits(ev, t)
  {
  }

  /** Requests of thread t among the first n steps of a run. */
  ghost function Submitted(states: seq<State>, steps: seq<Step>, n: nat, t: Tid): nat
    requires Run(states, steps) && n <= |steps|
  {
    if n == 0 then 0 else Submitted(states, steps, n - 1, t) + Submits(EventOf(states[n - 1], steps[n - 1]), t)
  }

  /** Buffers of thread t that the interrupt handler handed back in the first n steps. */
  ghost function HandedBack(states: seq<State>, steps: seq<Step>, n: nat, t: Tid): nat
    requires Run(states, steps) && n <= |steps|
  {
    if n == 0 then 0 else HandedBack(states, steps, n - 1, t) + HandsBack(EventOf(states[n - 1], steps[n - 1]), t)
  }

  /** Every buffer is handed back exactly once: never twice, and never without a request. */
  lemma {:induction false} HandedBackOnce(states: seq<State>, steps: seq<Step>, n: nat, t: Tid)
    requires Run(states, steps) && n <= |steps|
    ensures Submitted(states, steps, n, t) == HandedBack(states, steps, n, t) + Outstanding(Abs(states[n]), t)
  {
    if n > 0 {
      HandedBackOnce(states, steps, n - 1, t);
      RunSafe(states, steps, n - 1);
      StepRefines(states[n - 1], steps[n - 1]);
      SpecBalance(Abs(states[n - 1]), Abs(states[n]), EventOf(states[n - 1], steps[n - 1]), t);
    }
  }

  /** The 32-bit product names the block's sector exactly for block numbers below 2^31. */
  lemma SectorIsExact(blockno: nat)
    requires blockno < 0x1_0000_0000
    ensures SectorOf(blockno) == 2 * blockno <==> blockno < 0x8000_0000
  {
  }
}
