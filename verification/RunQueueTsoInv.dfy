/** The invariant of the run queue under x86-TSO and its preservation, one lemma
    a program point.  Every step either leaves the abstract queue alone or is
    exactly one operation of a sequential double-ended queue. */
module RunQueueTsoInv {
  import opened Base
  import opened RunQueueTso

  // ----- the sequential double-ended queue that every run must match

  datatype Op = Nop | AddTop(th: Thread) | AddBase(th: Thread) | RemTop(th: Thread) | RemBase(th: Thread)

  function Apply(q: seq<Thread>, op: Op): Option<seq<Thread>> {
    match op
    case Nop => Some(q)
    case AddTop(th) => Some(q + [th])
    case AddBase(th) => Some([th] + q)
    case RemTop(th) => if q != [] && q[|q| - 1] == th then Some(q[..|q| - 1]) else None
    case RemBase(th) => if q != [] && q[0] == th then Some(q[1..]) else None
  }

  /** The operation a step performs; the thread is the one the body itself reads
      or writes, not one looked up in the abstract queue. */
  function OpOf(s: State, a: Act): Op
    requires Enabled(s, a)
  {
    match a
    case OwnerStep =>
      var v := Drain(s.mem, s.obuf);
      (match s.opc
       case PushFence(th) => if s.mem.top == |s.mem.slots| then Nop else AddTop(th)
       case PushUnlock(th) => AddTop(th)
       case PopFast(top) => RemTop(At(v.slots, top))
       case PopCs(top) => if v.base <= top then RemTop(At(v.slots, top)) else Nop
       case PutCs(th) => if v.base == 0 && v.top == |v.slots| then Nop else AddBase(th)
       case _ => Nop)
    case PeerStep(id, accept) =>
      (match s.peers[id].pc
       case TakeLoad(k, b) =>
         if k == Take || (k == WsTake && accept) then RemBase(At(s.mem.slots, b)) else Nop
       case PassCs(th) => if s.mem.base == 0 then Nop else AddBase(th)
       case _ => Nop)
    case _ => Nop
  }

  // ----- what the owner and the lock holder together have written

  function HolderBuf(s: State): seq<Store> {
    if s.mem.lock.Some? && s.mem.lock.value.Peer? && s.mem.lock.value.id in s.peers
    then s.peers[s.mem.lock.value.id].buf else []
  }

  function Full(s: State): Memory {
    Drain(Drain(s.mem, HolderBuf(s)), s.obuf)
  }

  function HolderPc(s: State): PeerPc {
    if s.mem.lock.Some? && s.mem.lock.value.Peer? && s.mem.lock.value.id in s.peers
    then s.peers[s.mem.lock.value.id].pc else PIdle
  }

  /** A base that a thief has only announced is not yet the base of the queue. */
  function Lo(s: State): int {
    match HolderPc(s)
    case TakeFence(_, b) => b
    case TakeLoad(_, b) => b
    case _ => Full(s).base
  }

  predicate Popping(opc: OwnerPc) {
    opc.PopFence? || opc.PopFast? || opc.PopLock? || opc.PopCs?
  }

  /** A top that the owner has decremented in pop counts only when pop has its thread. */
  function Hi(s: State): int {
    if Popping(s.opc) then s.opc.top + 1 else Full(s).top
  }

  /** Above Cap only the owner's unlocked pop may still read. */
  function Cap(s: State): int {
    if s.opc.PopFast? then s.opc.top else Hi(s)
  }

  function Abs(s: State): seq<Thread> {
    Slice(Full(s).slots, Lo(s), Hi(s))
  }

  // ----- the invariant

  predicate OwnerInCs(opc: OwnerPc) {
    opc.PushShift? || opc.PushUnlock? || opc.PopCs? || opc.PopUnlock? || opc.PutCs? || opc.PutUnlock? || opc.Overflow?
  }

  predicate PeerInCs(pc: PeerPc) {
    pc.TakeCs? || pc.TakeFence? || pc.TakeLoad? || pc.TakeUnlock? || pc.PassCs? || pc.PassUnlock?
  }

  /** Outside a critical section the owner's buffer holds at most a release of
      the lock, one new slot and new values of top. */
  predicate QuietStore(st: Store, k: nat, buf: seq<Store>, memTop: int, lo: int, hi: int)
    requires k < |buf|
  {
    match st
    case Unlock => k == 0
    case SetTop(v) => v <= hi
    case SetSlot(i, th) => i == hi - 1 && memTop <= i && lo <= i && (k == 0 || (k == 1 && buf[0] == Unlock))
    case _ => false
  }

  ghost predicate OwnerQuiet(s: State) {
    && s.mem.top <= Hi(s)
    && (forall k :: 0 <= k < |s.obuf| ==> QuietStore(s.obuf[k], k, s.obuf, s.mem.top, Lo(s), Hi(s)))
    && (s.mem.lock == Some(Owner) <==> s.obuf != [] && s.obuf[0] == Unlock)
    && (s.opc.PopFence? ==> Full(s).top == s.opc.top)
    && (s.opc.PopFast? || s.opc.PopLock? ==> s.obuf == [] && s.mem.top == s.opc.top)
    && (s.opc.PushLock? ==> s.obuf == [] && s.mem.top == |s.mem.slots|)
  }

  ghost predicate OwnerCs(s: State) {
    && s.mem.lock == Some(Owner)
    && (forall k :: 0 <= k < |s.obuf| ==> s.obuf[k] != Unlock)
    && (s.opc.PushShift? || s.opc.PopCs? || s.opc.PutCs? || s.opc.Overflow? ==> s.obuf == [])
    && (s.opc.PushShift? ==> s.mem.top == |s.mem.slots|)
    && (s.opc.PopCs? ==> s.mem.top == s.opc.top)
    && (s.opc.PushUnlock? ==> Full(s).top < |s.mem.slots|)
  }

  ghost predicate OwnerOk(s: State) {
    if OwnerInCs(s.opc) then OwnerCs(s) else OwnerQuiet(s)
  }

  /** What the lock holder may still have to write before it releases the lock. */
  predicate HolderStore(st: Store, k: nat, buf: seq<Store>, memBase: int)
    requires k < |buf|
  {
    match st
    case SetBase(x) => x == memBase - 1 && k == |buf| - 1
    case SetCache(_) => k == 0
    case SetSlot(j, _) => k == 0 && j == memBase - 1 && |buf| == 2 && buf[1] == SetBase(j)
    case _ => false
  }

  predicate HolderShape(m: Memory, p: PeerState, cap: int) {
    match p.pc
    case TakeCs(_) => p.buf == []
    case PassCs(_) => p.buf == []
    case TakeFence(_, b) => (p.buf == [SetBase(b + 1)] && m.base == b) || (p.buf == [] && m.base == b + 1)
    case TakeLoad(_, b) => p.buf == [] && m.base == b + 1 && b < cap
    case TakeUnlock(_) => forall k :: 0 <= k < |p.buf| ==> HolderStore(p.buf[k], k, p.buf, m.base)
    case PassUnlock(_) => forall k :: 0 <= k < |p.buf| ==> HolderStore(p.buf[k], k, p.buf, m.base)
    case _ => p.buf == [Unlock]
  }

  ghost predicate PeersOk(s: State) {
    && (forall id :: id in s.peers && s.mem.lock != Some(Peer(id)) ==> s.peers[id].buf == [] && !PeerInCs(s.peers[id].pc))
    && (s.mem.lock.Some? && s.mem.lock.value.Peer? ==>
          && s.mem.lock.value.id in s.peers
          && HolderShape(s.mem, s.peers[s.mem.lock.value.id], Cap(s)))
  }

  /** A slot being passed is below the slot being pushed and below what pop may
      read; so is a slot that a thief is about to read. */
  ghost predicate SlotsApart(s: State) {
    && (forall j, th :: SetSlot(j, th) in HolderBuf(s) ==>
          j < Cap(s) && forall i, th' :: SetSlot(i, th') in s.obuf ==> j < i)
    && (HolderPc(s).TakeLoad? ==> forall i, th :: SetSlot(i, th) in s.obuf ==> HolderPc(s).b < i)
  }

  ghost predicate Bounds(s: State) {
    0 <= Lo(s) <= Cap(s) && Hi(s) <= |s.mem.slots|
  }

  ghost predicate CacheOk(s: State) {
    s.hinted && Full(s).cache != NULL ==> Lo(s) < Cap(s) && Full(s).cache == At(Full(s).slots, Lo(s))
  }

  predicate HintedPc(pc: PeerPc) {
    && !pc.PassLock? && !pc.PassCs?
    && (pc.QuickTop? || pc.QuickBase? || pc.TakeLock? || pc.TakeCs? || pc.TakeFence? || pc.TakeLoad? ==> pc.kind != Take)
  }

  /** With the hint cache in use only its own operations are in progress. */
  ghost predicate HintedOk(s: State) {
    s.hinted ==>
      && !s.opc.PutLock? && !s.opc.PutCs?
      && forall id :: id in s.peers ==> HintedPc(s.peers[id].pc)
  }

  ghost predicate Inv(s: State) {
    && OwnerOk(s) && PeersOk(s) && SlotsApart(s) && Bounds(s) && CacheOk(s) && HintedOk(s)
  }

  // ----- lemmas about buffers

  lemma {:induction false} DrainSize(m: Memory, buf: seq<Store>)
    ensures |Drain(m, buf).slots| == |m.slots|
    decreases |buf|
  {
    if buf != [] { DrainSize(Drain1(m, buf[0]), buf[1..]); }
  }

  lemma {:induction false} DrainAppend(m: Memory, a: seq<Store>, b: seq<Store>)
    ensures Drain(m, a + b) == Drain(Drain(m, a), b)
    decreases |a|
  {
    if a == [] {
      assert a + b == b;
    } else {
      assert (a + b)[1..] == a[1..] + b;
      DrainAppend(Drain1(m, a[0]), a[1..], b);
    }
  }

  lemma DrainOne(m: Memory, a: Store)
    ensures Drain(m, [a]) == Drain1(m, a)
  {
    assert [a][1..] == [];
  }

  lemma DrainNone(m: Memory)
    ensures Drain(m, []) == m
  {
  }

  lemma DrainTwo(m: Memory, a: Store, b: Store)
    ensures Drain(m, [a, b]) == Drain1(Drain1(m, a), b)
  {
    assert [a, b][1..] == [b];
    assert [b][1..] == [];
    assert Drain(Drain1(m, a), [b]) == Drain(Drain1(Drain1(m, a), b), []);
  }

  lemma DrainThree(m: Memory, a: Store, b: Store, c: Store)
    ensures Drain(m, [a, b, c]) == Drain1(Drain1(Drain1(m, a), b), c)
  {
    assert [a, b, c][1..] == [b, c];
    DrainTwo(Drain1(m, a), b, c);
  }

  lemma {:induction false} DrainNoTop(m: Memory, buf: seq<Store>)
    requires forall k :: 0 <= k < |buf| ==> !buf[k].SetTop?
    ensures Drain(m, buf).top == m.top
    decreases |buf|
  {
    if buf != [] { DrainNoTop(Drain1(m, buf[0]), buf[1..]); }
  }

  lemma {:induction false} DrainNoBase(m: Memory, buf: seq<Store>)
    requires forall k :: 0 <= k < |buf| ==> !buf[k].SetBase?
    ensures Drain(m, buf).base == m.base
    decreases |buf|
  {
    if buf != [] { DrainNoBase(Drain1(m, buf[0]), buf[1..]); }
  }

  lemma {:induction false} DrainNoCache(m: Memory, buf: seq<Store>)
    requires forall k :: 0 <= k < |buf| ==> !buf[k].SetCache?
    ensures Drain(m, buf).cache == m.cache
    decreases |buf|
  {
    if buf != [] { DrainNoCache(Drain1(m, buf[0]), buf[1..]); }
  }

  /** The stores of a memmove put the copied block in place and touch nothing else. */
  lemma {:induction false} DrainCopy(m: Memory, lo: int, vals: seq<Thread>)
    requires 0 <= lo && lo + |vals| <= |m.slots|
    ensures Drain(m, Copy(lo, vals)) == m.(slots := m.slots[..lo] + vals + m.slots[lo + |vals|..])
    decreases |vals|
  {
    if vals == [] {
      assert m.slots == m.slots[..lo] + vals + m.slots[lo + |vals|..];
    } else {
      var m1 := Drain1(m, SetSlot(lo, vals[0]));
      assert Copy(lo, vals)[1..] == Copy(lo + 1, vals[1..]);
      DrainCopy(m1, lo + 1, vals[1..]);
      assert m1.slots[..lo + 1] + vals[1..] + m1.slots[lo + |vals|..] == m.slots[..lo] + vals + m.slots[lo + |vals|..];
    }
  }

  /** Two stores to the same field or slot. */
  predicate Clash(a: Store, b: Store) {
    || (a.SetTop? && b.SetTop?)
    || (a.SetBase? && b.SetBase?)
    || (a.SetCache? && b.SetCache?)
    || (a.SetSlot? && b.SetSlot? && a.i == b.i)
  }

  lemma {:induction false} Commute(m: Memory, st: Store, buf: seq<Store>)
    requires forall k :: 0 <= k < |buf| ==> !Clash(st, buf[k])
    ensures Drain(Drain1(m, st), buf) == Drain1(Drain(m, buf), st)
    decreases |buf|
  {
    if buf != [] {
      var h := buf[0];
      assert Drain1(Drain1(m, st), h) == Drain1(Drain1(m, h), st) by {
        if st.SetSlot? && h.SetSlot? && 0 <= st.i < |m.slots| && 0 <= h.i < |m.slots| {
          assert m.slots[st.i := st.th][h.i := h.th] == m.slots[h.i := h.th][st.i := st.th];
        }
      }
      Commute(Drain1(m, h), st, buf[1..]);
    }
  }

  /** The holder's new stores act on what both buffers together lead to. */
  lemma {:induction false} CommuteAll(m: Memory, sts: seq<Store>, buf: seq<Store>)
    requires forall i, k :: 0 <= i < |sts| && 0 <= k < |buf| ==> !Clash(sts[i], buf[k])
    ensures Drain(Drain(m, sts), buf) == Drain(Drain(m, buf), sts)
    decreases |sts|
  {
    if sts != [] {
      Commute(m, sts[0], buf);
      CommuteAll(Drain1(m, sts[0]), sts[1..], buf);
    }
  }

  // ----- consequences of the shapes

  lemma HolderFacts(s: State)
    requires PeersOk(s)
    ensures forall k :: 0 <= k < |HolderBuf(s)| ==> !HolderBuf(s)[k].SetTop?
    ensures Drain(s.mem, HolderBuf(s)).top == s.mem.top
    ensures |Full(s).slots| == |s.mem.slots|
  {
    DrainNoTop(s.mem, HolderBuf(s));
    DrainSize(s.mem, HolderBuf(s));
    DrainSize(Drain(s.mem, HolderBuf(s)), s.obuf);
  }

  lemma QuietFacts(s: State)
    requires PeersOk(s) && OwnerQuiet(s)
    ensures Full(s).base == Drain(s.mem, HolderBuf(s)).base
    ensures Full(s).cache == Drain(s.mem, HolderBuf(s)).cache
  {
    forall k | 0 <= k < |s.obuf| ensures !s.obuf[k].SetBase? && !s.obuf[k].SetCache? {
      assert QuietStore(s.obuf[k], k, s.obuf, s.mem.top, Lo(s), Hi(s));
    }
    DrainNoBase(Drain(s.mem, HolderBuf(s)), s.obuf);
    DrainNoCache(Drain(s.mem, HolderBuf(s)), s.obuf);
  }

  lemma OwnerFlushKeepsFull(s: State)
    requires Inv(s) && s.obuf != []
    ensures var s' := Next(s, OwnerFlush);
      && Full(s').top == Full(s).top && Full(s').base == Full(s).base
      && Full(s').slots == Full(s).slots && Full(s').cache == Full(s).cache
      && (s.obuf[0] != Unlock ==> HolderBuf(s') == HolderBuf(s))
  {
    var s' := Next(s, OwnerFlush);
    var st := s.obuf[0];
    if s.mem.lock.Some? && s.mem.lock.value.Peer? {
      assert !OwnerInCs(s.opc);
      assert QuietStore(st, 0, s.obuf, s.mem.top, Lo(s), Hi(s));
      HolderFacts(s);
      forall k | 0 <= k < |HolderBuf(s)| ensures !Clash(st, HolderBuf(s)[k]) {
        if st.SetSlot? && HolderBuf(s)[k].SetSlot? {
          assert HolderBuf(s)[k] in HolderBuf(s) && st in s.obuf;
        }
      }
      Commute(s.mem, st, HolderBuf(s));
    }
  }
}
