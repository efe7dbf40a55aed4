/** The run queue of one worker as its owner, its thieves and its passers see it
    on x86-TSO: every worker has a FIFO buffer of stores, `Flush` moves the
    oldest store of one buffer to memory, a load sees the worker's own buffer
    first, and the compare-and-swap of the lock and the exchange inside
    the read and read-write barriers wait for the buffer to be empty.  A write
    barrier only stops the compiler and is therefore no step at all.

    The steps follow the bodies of push, pop, put, take, trypass and of the
    hinted take and peek of the work-stealing interface, one shared access at a time
    wherever another worker can observe the difference. */
module RunQueueTso {
  import opened Base

  /** A thread descriptor; NULL is the null pointer. */
  type Thread = nat
  const NULL: Thread := 0

  datatype Agent = Owner | Peer(id: nat)

  datatype Store =
    | SetTop(v: int)
    | SetBase(v: int)
    | SetSlot(i: int, th: Thread)
    | SetCache(th: Thread)
    | Unlock

  /** Shared memory: the queue fields, and the thread pointer of the hint cache. */
  datatype Memory = Memory(top: int, base: int, slots: seq<Thread>, cache: Thread, lock: Option<Agent>)

  /** Where the owner is inside push, pop or put. */
  datatype OwnerPc =
    | OIdle
    | PushFence(th: Thread)
    | PushLock(th: Thread)
    | PushShift(th: Thread)
    | PushUnlock(th: Thread)
    | PopDec
    | PopFence(top: int)
    | PopFast(top: int)
    | PopLock(top: int)
    | PopCs(top: int)
    | PopUnlock(ret: Option<Thread>)
    | PutLock(th: Thread)
    | PutCs(th: Thread)
    | PutUnlock
    | Overflow

  /** The three bodies that publish a tentative base. */
  datatype Kind = Take | WsTake | WsPeek

  datatype PeerPc =
    | PIdle
    | QuickTop(kind: Kind)
    | QuickBase(kind: Kind, top: int)
    | TakeLock(kind: Kind)
    | TakeCs(kind: Kind)
    | TakeFence(kind: Kind, b: int)
    | TakeLoad(kind: Kind, b: int)
    | TakeUnlock(ret: Option<Thread>)
    | PassLock(th: Thread)
    | PassCs(th: Thread)
    | PassUnlock(ok: bool)

  datatype PeerState = PeerState(pc: PeerPc, buf: seq<Store>)

  /** `hinted` restricts the callers to push, pop, hinted take and peek, the
      operations that maintain the hint cache. */
  datatype State = State(hinted: bool, mem: Memory, opc: OwnerPc, obuf: seq<Store>, peers: map<nat, PeerState>)

  datatype Act =
    | CallPush(th: Thread)
    | CallPop
    | CallPut(th: Thread)
    | OwnerStep
    | OwnerFlush
    | CallTake(id: nat, kind: Kind)
    | CallPass(id: nat, th: Thread)
    | PeerStep(id: nat, accept: bool)
    | TryFail(id: nat)
    | PeerFlush(id: nat)

  // ----- store buffers

  function Drain1(m: Memory, st: Store): Memory {
    match st
    case SetTop(v) => m.(top := v)
    case SetBase(v) => m.(base := v)
    case SetSlot(i, th) => if 0 <= i < |m.slots| then m.(slots := m.slots[i := th]) else m
    case SetCache(th) => m.(cache := th)
    case Unlock => m.(lock := None)
  }

  function Drain(m: Memory, buf: seq<Store>): Memory
    decreases |buf|
  {
    if buf == [] then m else Drain(Drain1(m, buf[0]), buf[1..])
  }

  /** The loop of stores of a memmove into slots[lo..]. */
  function Copy(lo: int, vals: seq<Thread>): seq<Store> {
    seq(|vals|, k requires 0 <= k < |vals| => SetSlot(lo + k, vals[k]))
  }

  function At(slots: seq<Thread>, i: int): Thread {
    if 0 <= i < |slots| then slots[i] else NULL
  }

  function Slice(slots: seq<Thread>, lo: int, hi: int): seq<Thread> {
    if 0 <= lo <= hi <= |slots| then slots[lo..hi] else []
  }

  // ----- the owner's bodies

  predicate OwnerEnabled(s: State) {
    match s.opc
    case OIdle => false
    case Overflow => false
    case PushFence(_) => s.obuf == []
    case PushLock(_) => s.obuf == [] && s.mem.lock == None
    case PopLock(_) => s.obuf == [] && s.mem.lock == None
    case PutLock(_) => s.obuf == [] && s.mem.lock == None
    case PopFence(_) => s.obuf == []
    case PushUnlock(_) => s.obuf == []
    case PopUnlock(_) => s.obuf == []
    case PutUnlock => s.obuf == []
    case _ => true
  }

  function OwnerNext(s: State): State
    requires OwnerEnabled(s)
  {
    var m := s.mem;
    var v := Drain(m, s.obuf);
    var size := |m.slots|;
    match s.opc
    case PushFence(th) =>
      if m.top == size then s.(opc := PushLock(th))
      else s.(obuf := [SetSlot(m.top, th), SetTop(m.top + 1)], opc := OIdle)
    case PushLock(th) => s.(mem := m.(lock := Some(Owner)), opc := PushShift(th))
    case PushShift(th) =>
      if v.base == 0 then s.(opc := Overflow)
      else
        // C division truncates toward zero
        var offset := -((v.base + 1) / 2);
        s.(obuf := s.obuf + Copy(v.base + offset, Slice(v.slots, v.base, v.top))
                     + [SetTop(v.top + offset), SetBase(v.base + offset)],
           opc := PushUnlock(th))
    case PushUnlock(th) =>
      s.(obuf := [Unlock, SetSlot(m.top, th), SetTop(m.top + 1)], opc := OIdle)
    case PopDec => s.(obuf := s.obuf + [SetTop(v.top - 1)], opc := PopFence(v.top - 1))
    case PopFence(top) =>
      if m.base + 1 < top then s.(opc := PopFast(top)) else s.(opc := PopLock(top))
    case PopFast(top) => s.(opc := OIdle)
    case PopLock(top) => s.(mem := m.(lock := Some(Owner)), opc := PopCs(top))
    case PopCs(top) =>
      if v.base <= top then
        s.(obuf := s.obuf + [SetSlot(top, NULL)] + (if top <= v.base then [SetCache(NULL)] else []),
           opc := PopUnlock(Some(At(v.slots, top))))
      else
        s.(obuf := s.obuf + [SetTop(size / 2), SetBase(size / 2)], opc := PopUnlock(None))
    case PopUnlock(_) => s.(obuf := [Unlock], opc := OIdle)
    case PutLock(th) => s.(mem := m.(lock := Some(Owner)), opc := PutCs(th))
    case PutCs(th) =>
      if v.base == 0 then
        if v.top == size then s.(opc := Overflow)
        else
          var offset := (size - v.top + 1) / 2;
          s.(obuf := s.obuf + Copy(offset, Slice(v.slots, 0, v.top))
                       + [SetTop(v.top + offset), SetBase(offset), SetSlot(offset - 1, th), SetBase(offset - 1)],
             opc := PutUnlock)
      else s.(obuf := s.obuf + [SetSlot(v.base - 1, th), SetBase(v.base - 1)], opc := PutUnlock)
    case PutUnlock => s.(obuf := [Unlock], opc := OIdle)
    case _ => s
  }

  // ----- the bodies of thieves, peekers and passers

  predicate PeerEnabled(s: State, p: PeerState) {
    match p.pc
    case PIdle => false
    case TakeLock(_) => p.buf == [] && s.mem.lock == None
    case PassLock(_) => p.buf == [] && s.mem.lock == None
    case TakeFence(_, _) => p.buf == []
    case TakeUnlock(_) => p.buf == []
    case PassUnlock(_) => p.buf == []
    case _ => true
  }

  /** The step of one peer; `accept` is the answer of a decision function. */
  function PeerNext(m: Memory, id: nat, p: PeerState, accept: bool): (PeerState, Memory) {
    match p.pc
    case PIdle => (p, m)
    case QuickTop(k) => (p.(pc := QuickBase(k, m.top)), m)
    case QuickBase(k, top) => (p.(pc := if top - m.base <= 0 then PIdle else TakeLock(k)), m)
    case TakeLock(k) => (p.(pc := TakeCs(k)), m.(lock := Some(Peer(id))))
    case TakeCs(k) =>
      if k == WsPeek && m.cache != NULL then (p.(pc := TakeUnlock(None)), m)
      else (PeerState(TakeFence(k, m.base), p.buf + [SetBase(m.base + 1)]), m)
    case TakeFence(k, b) =>
      if b < m.top then (p.(pc := TakeLoad(k, b)), m)
      else (PeerState(TakeUnlock(None), p.buf + [SetBase(b)]), m)
    case TakeLoad(k, b) =>
      var th := At(m.slots, b);
      (match k
       case Take => PeerState(TakeUnlock(Some(th)), p.buf)
       case WsTake =>
         if accept then PeerState(TakeUnlock(Some(th)), p.buf + [SetCache(NULL)])
         else PeerState(TakeUnlock(None), p.buf + [SetBase(b)])
       case WsPeek => PeerState(TakeUnlock(None), p.buf + [SetCache(th), SetBase(b)]),
       m)
    case TakeUnlock(_) => (PeerState(PIdle, p.buf + [Unlock]), m)
    case PassLock(th) => (p.(pc := PassCs(th)), m.(lock := Some(Peer(id))))
    case PassCs(th) =>
      if m.base == 0 then (p.(pc := PassUnlock(false)), m)
      else (PeerState(PassUnlock(true), p.buf + [SetSlot(m.base - 1, th), SetBase(m.base - 1)]), m)
    case PassUnlock(_) => (PeerState(PIdle, p.buf + [Unlock]), m)
  }

  // ----- the machine

  predicate Enabled(s: State, a: Act) {
    match a
    case CallPush(th) => s.opc == OIdle && th != NULL
    case CallPop => s.opc == OIdle
    case CallPut(th) => s.opc == OIdle && th != NULL && !s.hinted
    case OwnerStep => OwnerEnabled(s)
    case OwnerFlush => s.obuf != []
    case CallTake(id, k) => id in s.peers && s.peers[id].pc == PIdle && (s.hinted ==> k != Take)
    case CallPass(id, th) => id in s.peers && s.peers[id].pc == PIdle && th != NULL && !s.hinted
    case PeerStep(id, _) => id in s.peers && PeerEnabled(s, s.peers[id])
    case TryFail(id) =>
      && id in s.peers
      && s.mem.lock != None
      && (s.peers[id].pc.PassLock? || (s.peers[id].pc.TakeLock? && s.peers[id].pc.kind != Take))
    case PeerFlush(id) => id in s.peers && s.peers[id].buf != []
  }

  function Next(s: State, a: Act): State
    requires Enabled(s, a)
  {
    match a
    case CallPush(th) => s.(opc := PushFence(th))
    case CallPop =>
      var v := Drain(s.mem, s.obuf);
      if v.top <= v.base then s else s.(opc := PopDec)
    case CallPut(th) => s.(opc := PutLock(th))
    case OwnerStep => OwnerNext(s)
    case OwnerFlush => s.(mem := Drain1(s.mem, s.obuf[0]), obuf := s.obuf[1..])
    case CallTake(id, k) => s.(peers := s.peers[id := s.peers[id].(pc := QuickTop(k))])
    case CallPass(id, th) => s.(peers := s.peers[id := s.peers[id].(pc := PassLock(th))])
    case PeerStep(id, accept) =>
      var (p, m) := PeerNext(s.mem, id, s.peers[id], accept);
      s.(mem := m, peers := s.peers[id := p])
    // the hinted peek starts again
    case TryFail(id) =>
      var p := s.peers[id];
      s.(peers := s.peers[id := p.(pc := if p.pc.TakeLock? && p.pc.kind == WsPeek then QuickTop(WsPeek) else PIdle)])
    case PeerFlush(id) =>
      var p := s.peers[id];
      s.(mem := Drain1(s.mem, p.buf[0]), peers := s.peers[id := p.(buf := p.buf[1..])])
  }

  /** The state after myth_queue_init: an empty queue in the middle of the array. */
  ghost predicate Init(s: State) {
    && s.mem.top == s.mem.base == |s.mem.slots| / 2
    && |s.mem.slots| > 0
    && s.mem.cache == NULL
    && s.mem.lock == None
    && s.opc == OIdle && s.obuf == []
    && (forall id :: id in s.peers ==> s.peers[id] == PeerState(PIdle, []))
  }
}
