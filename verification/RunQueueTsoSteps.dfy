/** Every step of the run queue machine keeps the invariant and is one operation
    of the sequential deque, or none. */
module RunQueueTsoSteps {
  import opened Base
  import opened RunQueueTso
  import opened RunQueueTsoInv

  ghost predicate Good(s: State, a: Act)
    requires Enabled(s, a)
  {
    && Inv(Next(s, a))
    && |Next(s, a).mem.slots| == |s.mem.slots|
    && Apply(Abs(s), OpOf(s, a)) == Some(Abs(Next(s, a)))
  }

  // ----- flushing a store buffer is invisible to the abstract queue

  lemma OwnerFlushGood(s: State)
    requires Inv(s) && s.obuf != []
    ensures Good(s, OwnerFlush)
  {
    hide Drain, OwnerQuiet, OwnerCs;
    var s' := Next(s, OwnerFlush);
    OwnerFlushKeepsFull(s);
    OwnerFlushOwner(s);
    HolderFacts(s);
    DrainSize(s.mem, [s.obuf[0]]);
    DrainOne(s.mem, s.obuf[0]);
    assert forall x :: x in s'.obuf ==> x in s.obuf;
    assert PeersOk(s');
    assert SlotsApart(s');
  }

  lemma OwnerFlushOwner(s: State)
    requires Inv(s) && s.obuf != []
    ensures var s' := Next(s, OwnerFlush);
      && OwnerOk(s') && HolderPc(s') == HolderPc(s) && Lo(s') == Lo(s) && Hi(s') == Hi(s) && Cap(s') == Cap(s)
      && (s.obuf[0] == Unlock ==> s.mem.lock == Some(Owner) && !OwnerInCs(s.opc))
      && (s'.mem.lock == s.mem.lock || (s.mem.lock == Some(Owner) && s'.mem.lock == None))
      && (s.mem.lock == Some(Owner) || s'.mem.base == s.mem.base)
  {
    hide Drain, SlotsApart, CacheOk, HintedOk, Bounds;
    var s' := Next(s, OwnerFlush);
    OwnerFlushKeepsFull(s);
    HolderFacts(s);
    DrainSize(s.mem, [s.obuf[0]]);
    DrainOne(s.mem, s.obuf[0]);
    if OwnerInCs(s.opc) {
      assert s.obuf[0] != Unlock;
    } else {
      assert QuietStore(s.obuf[0], 0, s.obuf, s.mem.top, Lo(s), Hi(s));
      forall k | 0 <= k < |s'.obuf|
        ensures QuietStore(s'.obuf[k], k, s'.obuf, s'.mem.top, Lo(s'), Hi(s'))
      {
        assert QuietStore(s.obuf[k + 1], k + 1, s.obuf, s.mem.top, Lo(s), Hi(s));
      }
      forall k | 0 < k < |s.obuf| ensures s.obuf[k] != Unlock {
        assert QuietStore(s.obuf[k], k, s.obuf, s.mem.top, Lo(s), Hi(s));
      }
    }
  }

  lemma PeerFlushFull(s: State, id: nat)
    requires Inv(s) && Enabled(s, PeerFlush(id))
    ensures s.mem.lock == Some(Peer(id)) && !OwnerInCs(s.opc)
    ensures var s' := Next(s, PeerFlush(id));
      && Full(s') == Full(s) && HolderBuf(s') == HolderBuf(s)[1..]
      && (HolderPc(s') == HolderPc(s) || (s'.mem.lock == None && HolderBuf(s) == [Unlock] && !PeerInCs(HolderPc(s))))
      && s'.mem.top == s.mem.top && |s'.mem.slots| == |s.mem.slots|
      && (s'.mem.lock == s.mem.lock || s'.mem.lock == None)
  {
    var s' := Next(s, PeerFlush(id));
    assert s.mem.lock == Some(Peer(id));
    HolderFacts(s);
    if s.peers[id].buf[0] == Unlock {
      assert s.peers[id].buf == [Unlock];
      assert Drain(s.mem, s.peers[id].buf) == s'.mem;
    }
  }

  lemma PeerFlushShape(s: State, id: nat)
    requires Inv(s) && Enabled(s, PeerFlush(id))
    ensures PeersOk(Next(s, PeerFlush(id)))
  {
    var s' := Next(s, PeerFlush(id));
    PeerFlushFull(s, id);
    assert Cap(s') == Cap(s);
    var p := s.peers[id];
    if p.pc.TakeUnlock? || p.pc.PassUnlock? {
      assert HolderStore(p.buf[0], 0, p.buf, s.mem.base);
      forall k | 0 <= k < |s'.peers[id].buf|
        ensures HolderStore(s'.peers[id].buf[k], k, s'.peers[id].buf, s'.mem.base)
      {
        assert HolderStore(p.buf[k + 1], k + 1, p.buf, s.mem.base);
      }
    }
  }

  lemma PeerFlushGood(s: State, id: nat)
    requires Inv(s) && Enabled(s, PeerFlush(id))
    ensures Good(s, PeerFlush(id))
  {
    var s' := Next(s, PeerFlush(id));
    PeerFlushFull(s, id);
    PeerFlushShape(s, id);
    assert Lo(s') == Lo(s) && Hi(s') == Hi(s) && Cap(s') == Cap(s);
    assert OwnerQuiet(s');
    assert forall x :: x in HolderBuf(s') ==> x in HolderBuf(s);
    assert SlotsApart(s');
  }

  // ----- the owner

  lemma CallGood(s: State, a: Act)
    requires Inv(s) && Enabled(s, a) && (a.CallPush? || a.CallPop? || a.CallPut?)
    ensures Good(s, a)
  {
    hide Drain;
    var s' := Next(s, a);
    assert Full(s') == Full(s) && HolderPc(s') == HolderPc(s) && HolderBuf(s') == HolderBuf(s);
    assert OwnerQuiet(s');
  }

  /** Storing a new thread above the top, with the lock release of a compaction
      still in the buffer or with an empty buffer. */
  ghost predicate StoresTop(s: State, th: Thread, s': State) {
    && s.obuf == [] && !Popping(s.opc) && s.mem.top < |s.mem.slots| && (s.opc.PushFence? || s.opc.PushUnlock?)
    && s' == s.(
         obuf := (if s.opc.PushUnlock? then [Unlock] else []) + [SetSlot(s.mem.top, th), SetTop(s.mem.top + 1)],
         opc := OIdle)
  }

  lemma PushFull(s: State, th: Thread, s': State)
    requires Inv(s) && StoresTop(s, th, s')
    ensures |s'.obuf| <= 3 && forall k :: 0 <= k < |s'.obuf| ==>
      || (s'.obuf[k] == Unlock && k == 0 && s.opc.PushUnlock?)
      || (s'.obuf[k] == SetSlot(s.mem.top, th) && (k == 0 || (k == 1 && s'.obuf[0] == Unlock)))
      || s'.obuf[k] == SetTop(s.mem.top + 1)
    ensures HolderBuf(s') == HolderBuf(s) && HolderPc(s') == HolderPc(s)
    ensures Full(s).top == s.mem.top && |Full(s).slots| == |s.mem.slots| && s.mem.top >= 0
    ensures Full(s').slots == Full(s).slots[s.mem.top := th] && Full(s').top == s.mem.top + 1
    ensures Full(s').base == Full(s).base && Full(s').cache == Full(s).cache
  {
    hide Drain;
    var t := s.mem.top;
    HolderFacts(s);
    var f := Drain(s.mem, HolderBuf(s));
    DrainNone(f);
    assert Full(s) == f;
    if s.opc.PushUnlock? {
      assert s'.obuf == [Unlock, SetSlot(t, th), SetTop(t + 1)];
      DrainThree(f, Unlock, SetSlot(t, th), SetTop(t + 1));
    } else {
      assert s'.obuf == [SetSlot(t, th), SetTop(t + 1)];
      DrainTwo(f, SetSlot(t, th), SetTop(t + 1));
    }
  }

  lemma PushEnds(s: State, th: Thread, s': State)
    requires Inv(s) && StoresTop(s, th, s')
    ensures Lo(s') == Lo(s) && Hi(s) == s.mem.top == Cap(s) && Hi(s') == Hi(s) + 1 == Cap(s')
    ensures Abs(s') == Abs(s) + [th] && Bounds(s') && CacheOk(s')
  {
    hide Drain, OwnerOk, PeersOk, SlotsApart;
    PushFull(s, th, s');
    var x, y := Full(s).slots, Full(s').slots;
    assert Lo(s') == Lo(s) && Hi(s') == Hi(s) + 1;
    assert y[Lo(s)..Hi(s) + 1] == x[Lo(s)..Hi(s)] + [th];
    assert Lo(s) < Hi(s) ==> At(y, Lo(s)) == At(x, Lo(s));
  }

  lemma PushOwner(s: State, th: Thread, s': State)
    requires Inv(s) && StoresTop(s, th, s')
    ensures OwnerOk(s')
  {
    hide Full, HolderBuf, HolderPc, PeersOk, SlotsApart, CacheOk;
    PushFull(s, th, s');
    PushEnds(s, th, s');
    assert OwnerQuiet(s');
  }

  lemma PushPeers(s: State, th: Thread, s': State)
    requires Inv(s) && StoresTop(s, th, s')
    ensures PeersOk(s') && HintedOk(s') && SlotsApart(s')
  {
    hide Full, OwnerOk, CacheOk, Lo, Hi, Cap;
    PushFull(s, th, s');
    PushEnds(s, th, s');
  }

  lemma PushStore(s: State, th: Thread, s': State)
    requires Inv(s) && StoresTop(s, th, s')
    ensures Inv(s') && Abs(s') == Abs(s) + [th]
  {
    hide OwnerOk, PeersOk, SlotsApart, CacheOk, Bounds, HintedOk, Abs, StoresTop;
    PushEnds(s, th, s');
    PushOwner(s, th, s');
    PushPeers(s, th, s');
  }

  lemma PushGood(s: State)
    requires Inv(s) && Enabled(s, OwnerStep) && (s.opc.PushFence? || s.opc.PushUnlock?)
    ensures Good(s, OwnerStep)
  {
    HolderFacts(s);
    if s.opc.PushUnlock? || s.mem.top != |s.mem.slots| {
      PushStore(s, s.opc.th, Next(s, OwnerStep));
    } else {
      PushFullGood(s);
    }
  }

  lemma PushFullGood(s: State)
    requires Inv(s) && s.opc.PushFence? && s.obuf == [] && s.mem.top == |s.mem.slots|
    ensures var s' := s.(opc := PushLock(s.opc.th)); Inv(s') && Abs(s') == Abs(s)
  {
    var s' := s.(opc := PushLock(s.opc.th));
    assert Full(s') == Full(s) && HolderBuf(s') == HolderBuf(s) && HolderPc(s') == HolderPc(s);
    assert OwnerQuiet(s');
  }

  /** What the stores of a shift lead to: the block is readable at its new place
      and everything but the slots, top and base is untouched. */
  ghost predicate Shifted(m: Memory, b: int, t: int, offset: int, m': Memory)
    requires 0 <= b <= t <= |m.slots|
  {
    && m' == m.(slots := m'.slots, top := t + offset, base := b + offset)
    && |m'.slots| == |m.slots|
    && 0 <= b + offset && t + offset <= |m.slots|
    && m'.slots[b + offset..t + offset] == m.slots[b..t]
  }

  lemma CopyEffect(m: Memory, lo: int, vals: seq<Thread>)
    requires 0 <= lo && lo + |vals| <= |m.slots|
    ensures var m1 := Drain(m, Copy(lo, vals));
      m1 == m.(slots := m1.slots) && |m1.slots| == |m.slots| && m1.slots[lo..lo + |vals|] == vals
  {
    hide Drain, Copy;
    DrainCopy(m, lo, vals);
    Middle(m.slots[..lo], vals, m.slots[lo + |vals|..]);
  }

  lemma CopyAndEnds(m: Memory, vals: seq<Thread>, lo: int, hi: int)
    requires 0 <= lo && hi == lo + |vals| <= |m.slots|
    ensures var m' := Drain(m, Copy(lo, vals) + [SetTop(hi), SetBase(lo)]);
      && m' == m.(slots := m'.slots, top := hi, base := lo)
      && |m'.slots| == |m.slots| && m'.slots[lo..hi] == vals
  {
    hide Drain, Copy, Drain1;
    CopyEffect(m, lo, vals);
    DrainAppend(m, Copy(lo, vals), [SetTop(hi), SetBase(lo)]);
    TwoEnds(Drain(m, Copy(lo, vals)), hi, lo);
  }

  lemma ShiftStores(m: Memory, b: int, t: int, offset: int)
    requires 0 <= b <= t <= |m.slots| && 0 <= b + offset && t + offset <= |m.slots|
    ensures Shifted(m, b, t, offset,
      Drain(m, Copy(b + offset, Slice(m.slots, b, t)) + [SetTop(t + offset), SetBase(b + offset)]))
  {
    hide Drain, Copy, Drain1;
    var vals := Slice(m.slots, b, t);
    assert vals == m.slots[b..t];
    CopyAndEnds(m, vals, b + offset, t + offset);
  }

  lemma TwoEnds(m: Memory, top: int, base: int)
    ensures Drain(m, [SetTop(top), SetBase(base)]) == m.(top := top, base := base)
  {
    DrainTwo(m, SetTop(top), SetBase(base));
  }

  lemma Middle(x: seq<Thread>, y: seq<Thread>, z: seq<Thread>)
    ensures (x + y + z)[|x|..|x| + |y|] == y
  {
  }

  /** Buffering the stores of a critical section of the owner: the state is then
      described by the memory these stores lead to. */
  lemma CsStore(s: State, s': State, m: Memory)
    requires Inv(s) && OwnerInCs(s.opc) && s.obuf == []
    requires s' == s.(obuf := s'.obuf, opc := s'.opc)
    requires s'.opc.PushUnlock? || s'.opc.PopUnlock? || s'.opc.PutUnlock?
    requires forall k :: 0 <= k < |s'.obuf| ==> s'.obuf[k] != Unlock
    requires Drain(s.mem, s'.obuf) == m
    requires 0 <= m.base <= m.top <= |m.slots| == |s.mem.slots|
    requires s'.opc.PushUnlock? ==> m.top < |m.slots|
    requires s.hinted && m.cache != NULL ==> m.base < m.top && m.cache == At(m.slots, m.base)
    ensures Inv(s') && Full(s) == s.mem && Abs(s') == m.slots[m.base..m.top]
  {
    assert Full(s) == s.mem && Full(s') == m;
    assert Cap(s') == Hi(s') == m.top && Lo(s') == m.base;
  }

  lemma CsFull(s: State)
    requires OwnerOk(s) && OwnerInCs(s.opc) && s.obuf == []
    ensures Full(s) == s.mem && HolderPc(s) == PIdle
  {
  }

  lemma PushShiftGood(s: State)
    requires Inv(s) && Enabled(s, OwnerStep) && s.opc.PushShift?
    ensures Good(s, OwnerStep)
  {
    hide Drain;
    DrainNone(s.mem);
    var s' := Next(s, OwnerStep);
    CsFull(s);
    if s.mem.base != 0 {
      var b, t := s.mem.base, s.mem.top;
      var offset := -((b + 1) / 2);
      ShiftStores(s.mem, b, t, offset);
      assert s'.obuf == Copy(b + offset, Slice(s.mem.slots, b, t)) + [SetTop(t + offset), SetBase(b + offset)] by {
        assert s.obuf == [];
      }
      ShiftGood(s, s', offset);
    }
  }

  lemma ShiftGood(s: State, s': State, offset: int)
    requires Inv(s) && s.opc.PushShift? && s.mem.base > 0 && offset < 0
    requires s' == s.(obuf := s'.obuf, opc := PushUnlock(s.opc.th))
    requires forall k :: 0 <= k < |s'.obuf| ==> s'.obuf[k] != Unlock
    requires Bounds(s) && Shifted(s.mem, s.mem.base, s.mem.top, offset, Drain(s.mem, s'.obuf))
    ensures Inv(s') && Abs(s') == Abs(s)
  {
    var m := Drain(s.mem, s'.obuf);
    assert Full(s) == s.mem;
    if m.base < m.top {
      assert m.slots[m.base] == (m.slots[m.base..m.top])[0] == s.mem.slots[s.mem.base];
    }
    CsStore(s, s', m);
  }

  lemma PutGood(s: State)
    requires Inv(s) && Enabled(s, OwnerStep) && s.opc.PutCs?
    ensures Good(s, OwnerStep)
  {
    assert Full(s) == s.mem;
    if s.mem.base != 0 {
      PutPlainGood(s, Next(s, OwnerStep));
    } else if s.mem.top != |s.mem.slots| {
      PutShiftNext(s);
      PutShiftGood(s, Next(s, OwnerStep));
    }
  }

  /** The stores by which put moves the contents up when base is 0. */
  function PutShift(m: Memory): seq<Store> {
    var offset := (|m.slots| - m.top + 1) / 2;
    Copy(offset, Slice(m.slots, 0, m.top)) + [SetTop(m.top + offset), SetBase(offset)]
  }

  lemma PutShiftNext(s: State)
    requires Inv(s) && Enabled(s, OwnerStep) && s.opc.PutCs? && s.mem.base == 0 && s.mem.top < |s.mem.slots|
    ensures var m1 := Drain(s.mem, PutShift(s.mem));
      Next(s, OwnerStep) == s.(opc := PutUnlock,
        obuf := PutShift(s.mem) + [SetSlot(m1.base - 1, s.opc.th), SetBase(m1.base - 1)])
  {
    hide Copy, Drain1, Slice;
    var offset := (|s.mem.slots| - s.mem.top + 1) / 2;
    assert Full(s) == s.mem && s.obuf == [];
    hide Drain;
    PutShiftBase(s.mem);
    SplitTail(Copy(offset, Slice(s.mem.slots, 0, s.mem.top)),
      SetTop(s.mem.top + offset), SetBase(offset), SetSlot(offset - 1, s.opc.th), SetBase(offset - 1));
  }

  lemma PutShiftBase(m: Memory)
    requires 0 <= m.top < |m.slots|
    ensures Drain(m, PutShift(m)).base == (|m.slots| - m.top + 1) / 2
  {
    hide Drain, Copy;
    ShiftStores(m, 0, m.top, (|m.slots| - m.top + 1) / 2);
  }

  lemma SplitTail(x: seq<Store>, a: Store, b: Store, c: Store, d: Store)
    ensures [] + x + [a, b, c, d] == x + [a, b] + [c, d]
  {
  }

  lemma PutPlainGood(s: State, s': State)
    requires Inv(s) && s.opc.PutCs? && s.mem.base > 0 && !s.hinted
    requires s' == s.(obuf := [SetSlot(s.mem.base - 1, s.opc.th), SetBase(s.mem.base - 1)], opc := PutUnlock)
    ensures Inv(s') && Abs(s') == [s.opc.th] + Abs(s)
  {
    var b := s.mem.base;
    assert Full(s) == s.mem;
    DrainTwo(s.mem, SetSlot(b - 1, s.opc.th), SetBase(b - 1));
    CsStore(s, s', s.mem.(slots := s.mem.slots[b - 1 := s.opc.th], base := b - 1));
    assert Abs(s') == [s.opc.th] + s.mem.slots[b..s.mem.top];
  }

  lemma PutStores(m: Memory, shift: seq<Store>, th: Thread)
    ensures var m1 := Drain(m, shift);
      0 < m1.base <= |m1.slots| ==>
        Drain(m, shift + [SetSlot(m1.base - 1, th), SetBase(m1.base - 1)])
          == m1.(slots := m1.slots[m1.base - 1 := th], base := m1.base - 1)
  {
    var m1 := Drain(m, shift);
    DrainAppend(m, shift, [SetSlot(m1.base - 1, th), SetBase(m1.base - 1)]);
    DrainTwo(m1, SetSlot(m1.base - 1, th), SetBase(m1.base - 1));
  }

  lemma PutShiftGood(s: State, s': State)
    requires Inv(s) && s.opc.PutCs? && s.mem.base == 0 && s.mem.top < |s.mem.slots| && !s.hinted
    requires s' == s.(obuf := s'.obuf, opc := PutUnlock)
    requires var m1 := Drain(s.mem, PutShift(s.mem));
      s'.obuf == PutShift(s.mem) + [SetSlot(m1.base - 1, s.opc.th), SetBase(m1.base - 1)]
    ensures Inv(s') && Abs(s') == [s.opc.th] + Abs(s)
  {
    hide Drain;
    var offset := (|s.mem.slots| - s.mem.top + 1) / 2;
    CsFull(s);
    ShiftStores(s.mem, 0, s.mem.top, offset);
    var m1 := Drain(s.mem, PutShift(s.mem));
    PutStores(s.mem, PutShift(s.mem), s.opc.th);
    var m := m1.(slots := m1.slots[offset - 1 := s.opc.th], base := offset - 1);
    assert m.slots[m.base..m.top] == [s.opc.th] + m1.slots[offset..m1.top];
    CsStore(s, s', m);
  }

  /** Taking the lock for push, pop or put, and releasing it. */
  lemma OwnerLockGood(s: State)
    requires Inv(s) && Enabled(s, OwnerStep)
    requires s.opc.PushLock? || s.opc.PopLock? || s.opc.PutLock? || s.opc.PopUnlock? || s.opc.PutUnlock?
    ensures Good(s, OwnerStep)
  {
    var s' := Next(s, OwnerStep);
    assert Full(s) == Drain(s.mem, HolderBuf(s));
    assert HolderBuf(s) == [];
    assert Full(s').slots == Full(s).slots && Full(s').base == Full(s).base;
    assert Full(s').top == Full(s).top && Full(s').cache == Full(s).cache;
    assert HolderPc(s') == HolderPc(s);
  }

  lemma PopDecFull(s: State)
    requires Inv(s) && Enabled(s, OwnerStep) && s.opc.PopDec?
    ensures var s' := Next(s, OwnerStep); var top := Hi(s) - 1;
      && s' == s.(obuf := s.obuf + [SetTop(top)], opc := PopFence(top))
      && Full(s') == Full(s).(top := top)
      && Hi(s') == Hi(s) && Lo(s') == Lo(s)
  {
    var s' := Next(s, OwnerStep);
    HolderFacts(s);
    var f := Drain(s.mem, HolderBuf(s));
    var top := Drain(s.mem, s.obuf).top;
    TopsAgree(s.mem, f, s.obuf);
    DrainAppend(f, s.obuf, [SetTop(top - 1)]);
    assert Drain(Full(s), [SetTop(top - 1)]) == Drain(Drain1(Full(s), SetTop(top - 1)), []);
    assert HolderBuf(s') == HolderBuf(s) && HolderPc(s') == HolderPc(s);
  }

  lemma PopDecGood(s: State)
    requires Inv(s) && Enabled(s, OwnerStep) && s.opc.PopDec?
    ensures Good(s, OwnerStep)
  {
    var s' := Next(s, OwnerStep);
    PopDecFull(s);
    assert OwnerQuiet(s') by {
      forall k | 0 <= k < |s'.obuf|
        ensures QuietStore(s'.obuf[k], k, s'.obuf, s'.mem.top, Lo(s'), Hi(s'))
      {
        if k < |s.obuf| { assert QuietStore(s.obuf[k], k, s.obuf, s.mem.top, Lo(s), Hi(s)); }
      }
      assert s'.obuf[0] == Unlock <==> s.obuf != [] && s.obuf[0] == Unlock;
    }
    assert SlotsApart(s') by {
      assert forall i, th :: SetSlot(i, th) in s'.obuf ==> SetSlot(i, th) in s.obuf;
      assert HolderBuf(s') == HolderBuf(s);
    }
    assert PeersOk(s');
    assert CacheOk(s');
  }

  lemma {:induction false} TopsAgree(m: Memory, f: Memory, buf: seq<Store>)
    requires m.top == f.top
    ensures Drain(m, buf).top == Drain(f, buf).top
    decreases |buf|
  {
    if buf != [] { TopsAgree(Drain1(m, buf[0]), Drain1(f, buf[0]), buf[1..]); }
  }

  /** The race of pop against take: having announced top, the owner reads base.
      A thief past its own read of top has already announced b + 1, so an
      unlocked pop stays clear of it. */
  lemma PopFenceGood(s: State)
    requires Inv(s) && Enabled(s, OwnerStep) && s.opc.PopFence?
    ensures Good(s, OwnerStep)
  {
    hide Drain;
    DrainNone(Drain(s.mem, HolderBuf(s)));
    var s' := Next(s, OwnerStep);
    HolderFacts(s);
    QuietFacts(s);
    assert Full(s') == Full(s) && HolderBuf(s') == HolderBuf(s) && HolderPc(s') == HolderPc(s);
    assert Hi(s') == Hi(s) && Lo(s') == Lo(s);
    LoBelowBase(s);
    assert OwnerQuiet(s');
    assert SlotsApart(s');
    assert PeersOk(s');
  }

  /** Outside the owner's critical section the announced base is never below the
      logical one, and a slot being passed is just below it. */
  lemma LoBelowBase(s: State)
    requires Inv(s) && !OwnerInCs(s.opc)
    ensures Lo(s) <= s.mem.base
    ensures forall j, th :: SetSlot(j, th) in HolderBuf(s) ==> j < s.mem.base
  {
    QuietFacts(s);
    var buf := HolderBuf(s);
    if HolderPc(s).TakeUnlock? || HolderPc(s).PassUnlock? {
      assert forall k :: 0 <= k < |buf| ==> HolderStore(buf[k], k, buf, s.mem.base);
      BaseAfter(s.mem, buf, s.mem.base);
    } else {
      assert forall k :: 0 <= k < |buf| ==> !buf[k].SetSlot?;
      if !HolderPc(s).TakeFence? {
        DrainNoBase(s.mem, buf);
      }
    }
  }

  lemma {:induction false} BaseAfter(m: Memory, buf: seq<Store>, bound: int)
    requires m.base <= bound && forall k :: 0 <= k < |buf| ==> buf[k].SetBase? ==> buf[k].v <= bound
    ensures Drain(m, buf).base <= bound
    decreases |buf|
  {
    if buf != [] { BaseAfter(Drain1(m, buf[0]), buf[1..], bound); }
  }

  lemma PopFastGood(s: State)
    requires Inv(s) && Enabled(s, OwnerStep) && s.opc.PopFast?
    ensures Good(s, OwnerStep)
  {
    hide Drain;
    DrainNone(Drain(s.mem, HolderBuf(s)));
    DrainNone(s.mem);
    var s' := Next(s, OwnerStep);
    HolderFacts(s);
    assert Full(s') == Full(s) && HolderBuf(s') == HolderBuf(s) && HolderPc(s') == HolderPc(s);
    assert Hi(s') == s.opc.top && Lo(s') == Lo(s) && Cap(s') == Cap(s);
    PopFastReads(s);
    assert OwnerQuiet(s');
    assert PeersOk(s');
    assert SlotsApart(s');
  }

  /** The slot read without the lock still holds the last thread of the queue. */
  lemma PopFastReads(s: State)
    requires Inv(s) && s.opc.PopFast?
    ensures Abs(s) == Slice(Full(s).slots, Lo(s), s.opc.top) + [At(s.mem.slots, s.opc.top)]
  {
    HolderFacts(s);
    SlotUnwritten(s.mem, HolderBuf(s), s.opc.top);
    assert Full(s) == Drain(s.mem, HolderBuf(s));
  }

  lemma {:induction false} SlotUnwritten(m: Memory, buf: seq<Store>, i: int)
    requires forall j, th :: SetSlot(j, th) in buf ==> j != i
    ensures At(Drain(m, buf).slots, i) == At(m.slots, i)
    decreases |buf|
  {
    if buf != [] {
      assert buf[0] in buf;
      assert forall x :: x in buf[1..] ==> x in buf;
      SlotUnwritten(Drain1(m, buf[0]), buf[1..], i);
    }
  }

  lemma PopCsGood(s: State)
    requires Inv(s) && Enabled(s, OwnerStep) && s.opc.PopCs?
    ensures Good(s, OwnerStep)
  {
    hide Inv, OwnerNext;
    if s.mem.base < s.opc.top { PopCsTakes(s); }
    else if s.mem.base == s.opc.top { PopCsTakesLast(s); }
    else { PopCsFindsNone(s); }
  }

  lemma PopCsTakes(s: State)
    requires Inv(s) && Enabled(s, OwnerStep) && s.opc.PopCs? && s.mem.base < s.opc.top
    ensures Good(s, OwnerStep)
  {
    hide Drain;
    CsFull(s);
    DrainNone(s.mem);
    var s' := Next(s, OwnerStep);
    var t := s.opc.top;
    assert s'.obuf == [SetSlot(t, NULL)];
    DrainOne(s.mem, SetSlot(t, NULL));
    CsStore(s, s', s.mem.(slots := s.mem.slots[t := NULL]));
    assert Abs(s) == Abs(s') + [s.mem.slots[t]];
  }

  lemma PopCsTakesLast(s: State)
    requires Inv(s) && Enabled(s, OwnerStep) && s.opc.PopCs? && s.mem.base == s.opc.top
    ensures Good(s, OwnerStep)
  {
    hide Drain;
    CsFull(s);
    DrainNone(s.mem);
    var s' := Next(s, OwnerStep);
    var t := s.opc.top;
    assert s'.obuf == [SetSlot(t, NULL), SetCache(NULL)];
    DrainTwo(s.mem, SetSlot(t, NULL), SetCache(NULL));
    CsStore(s, s', s.mem.(slots := s.mem.slots[t := NULL], cache := NULL));
  }

  lemma PopCsFindsNone(s: State)
    requires Inv(s) && Enabled(s, OwnerStep) && s.opc.PopCs? && s.mem.base > s.opc.top
    ensures Good(s, OwnerStep)
  {
    hide Drain;
    CsFull(s);
    DrainNone(s.mem);
    var s' := Next(s, OwnerStep);
    var half := |s.mem.slots| / 2;
    assert s'.obuf == [SetTop(half), SetBase(half)];
    DrainTwo(s.mem, SetTop(half), SetBase(half));
    CsStore(s, s', s.mem.(top := half, base := half));
    assert Abs(s) == [] == Abs(s');
  }

  lemma OwnerGood(s: State)
    requires Inv(s) && Enabled(s, OwnerStep)
    ensures Good(s, OwnerStep)
  {
    match s.opc
    case PushFence(_) => PushGood(s);
    case PushUnlock(_) => PushGood(s);
    case PushShift(_) => PushShiftGood(s);
    case PopDec => PopDecGood(s);
    case PopFence(_) => PopFenceGood(s);
    case PopFast(_) => PopFastGood(s);
    case PopCs(_) => PopCsGood(s);
    case PutCs(_) => PutGood(s);
    case _ => OwnerLockGood(s);
  }

  // ----- thieves, peekers and passers

  /** A peer outside the critical section moves on without touching memory. */
  lemma PeerMoves(s: State, id: nat, pc: PeerPc)
    requires Inv(s) && id in s.peers
    requires !PeerInCs(s.peers[id].pc) && !PeerInCs(pc) && (s.hinted ==> HintedPc(pc))
    ensures var s' := s.(peers := s.peers[id := s.peers[id].(pc := pc)]);
      Inv(s') && Abs(s') == Abs(s)
  {
    hide Drain;
    var s' := s.(peers := s.peers[id := s.peers[id].(pc := pc)]);
    assert HolderBuf(s') == HolderBuf(s) && Full(s') == Full(s);
    assert Lo(s') == Lo(s);
    assert PeersOk(s');
    assert OwnerOk(s');
    assert SlotsApart(s');
  }

  lemma PeerSilent(s: State, a: Act)
    requires Inv(s) && Enabled(s, a)
    requires a.CallTake? || a.CallPass? || a.TryFail? ||
      (a.PeerStep? && (s.peers[a.id].pc.QuickTop? || s.peers[a.id].pc.QuickBase?))
    ensures Good(s, a)
  {
    var s' := Next(s, a);
    assert s' == s.(peers := s.peers[a.id := s.peers[a.id].(pc := s'.peers[a.id].pc)]);
    PeerMoves(s, a.id, s'.peers[a.id].pc);
  }

  /** A peer takes the free lock. */
  /** A peer has taken the lock: nothing is written yet. */
  ghost predicate Locked(s: State, s': State, id: nat) {
    && id in s.peers && id in s'.peers
    && s' == s.(mem := s.mem.(lock := Some(Peer(id))), peers := s.peers[id := s'.peers[id]])
    && s.mem.lock == None && s'.peers[id].buf == [] && (s'.peers[id].pc.TakeCs? || s'.peers[id].pc.PassCs?)
    && HolderBuf(s') == [] == HolderBuf(s) && Full(s') == Full(s).(lock := Full(s').lock) && Lo(s') == Lo(s)
    && (s.hinted ==> HintedPc(s'.peers[id].pc))
  }

  lemma PeerLocked(s: State, id: nat, accept: bool)
    requires Inv(s) && Enabled(s, PeerStep(id, accept)) && (s.peers[id].pc.TakeLock? || s.peers[id].pc.PassLock?)
    ensures Locked(s, Next(s, PeerStep(id, accept)), id) && OpOf(s, PeerStep(id, accept)) == Nop
  {
    var s' := Next(s, PeerStep(id, accept));
    assert HolderBuf(s') == [] == HolderBuf(s);
    LockIrrelevant(s.mem, Some(Peer(id)), s.obuf);
    assert Full(s') == Drain(s.mem.(lock := Some(Peer(id))), s.obuf);
  }

  lemma LockedKeeps(s: State, s': State, id: nat)
    requires Inv(s) && Locked(s, s', id)
    ensures Inv(s') && Abs(s') == Abs(s)
  {
    hide Drain, Full, Lo, HolderBuf;
    assert PeersOk(s');
    assert OwnerOk(s');
    assert SlotsApart(s');
  }

  lemma PeerLockGood(s: State, id: nat, accept: bool)
    requires Inv(s) && Enabled(s, PeerStep(id, accept)) && (s.peers[id].pc.TakeLock? || s.peers[id].pc.PassLock?)
    ensures Good(s, PeerStep(id, accept))
  {
    hide Inv, Drain, Full, Lo, HolderBuf, Abs, Next;
    PeerLocked(s, id, accept);
    LockedKeeps(s, Next(s, PeerStep(id, accept)), id);
  }

  lemma {:induction false} LockIrrelevant(m: Memory, lock: Option<Agent>, buf: seq<Store>)
    ensures var x, y := Drain(m, buf), Drain(m.(lock := lock), buf);
      x.top == y.top && x.base == y.base && x.slots == y.slots && x.cache == y.cache
    decreases |buf|
  {
    if buf != [] {
      if buf[0] == Unlock {
        assert Drain1(m, buf[0]) == Drain1(m.(lock := lock), buf[0]);
      } else {
        assert Drain1(m, buf[0]).(lock := lock) == Drain1(m.(lock := lock), buf[0]);
        LockIrrelevant(Drain1(m, buf[0]), lock, buf[1..]);
      }
    }
  }

  /** A step of the lock holder that buffers `sts` behind an empty buffer. */
  lemma HolderStores(s: State, id: nat, p: PeerState)
    requires Inv(s) && s.mem.lock == Some(Peer(id)) && s.peers[id].buf == []
    requires forall k :: 0 <= k < |p.buf| ==>
      p.buf[k].SetBase? || p.buf[k].SetCache? || p.buf[k] == Unlock || (p.buf[k].SetSlot? && p.buf[k].i < Lo(s))
    ensures var s' := s.(peers := s.peers[id := p]);
      HolderBuf(s') == p.buf && HolderPc(s') == p.pc && Full(s') == Drain(Full(s), p.buf)
  {
    var s' := s.(peers := s.peers[id := p]);
    assert Full(s) == Drain(s.mem, s.obuf);
    forall i, k | 0 <= i < |p.buf| && 0 <= k < |s.obuf| ensures !Clash(p.buf[i], s.obuf[k]) {
      assert QuietStore(s.obuf[k], k, s.obuf, s.mem.top, Lo(s), Hi(s));
    }
    CommuteAll(s.mem, p.buf, s.obuf);
  }

  /** What remains to be shown of a holder step once its effect is known. */
  lemma HolderKeeps(s: State, id: nat, p: PeerState)
    requires Inv(s) && s.mem.lock == Some(Peer(id)) && s.peers[id].buf == []
    requires var s' := s.(peers := s.peers[id := p]);
      && HolderBuf(s') == p.buf && HolderPc(s') == p.pc
      && Full(s').top == Full(s).top && |Full(s').slots| == |Full(s).slots|
      && HolderShape(s.mem, p, Cap(s)) && SlotsApart(s') && CacheOk(s') && HintedOk(s')
      && 0 <= Lo(s') <= Cap(s)
      && forall i, th :: SetSlot(i, th) in s.obuf ==> Lo(s') <= i
    ensures Inv(s.(peers := s.peers[id := p]))
  {
    var s' := s.(peers := s.peers[id := p]);
    forall k | 0 <= k < |s'.obuf| ensures QuietStore(s'.obuf[k], k, s'.obuf, s'.mem.top, Lo(s'), Hi(s')) {
      assert QuietStore(s.obuf[k], k, s.obuf, s.mem.top, Lo(s), Hi(s));
      assert s.obuf[k] in s.obuf;
    }
    assert OwnerQuiet(s');
    assert PeersOk(s');
    HolderFacts(s);
  }

  lemma PendingSlotsAboveLo(s: State)
    requires Inv(s) && !OwnerInCs(s.opc)
    ensures forall i, th :: SetSlot(i, th) in s.obuf ==> Lo(s) <= i && s.mem.top <= i
  {
    forall i, th | SetSlot(i, th) in s.obuf ensures Lo(s) <= i && s.mem.top <= i {
      var k :| 0 <= k < |s.obuf| && s.obuf[k] == SetSlot(i, th);
      assert QuietStore(s.obuf[k], k, s.obuf, s.mem.top, Lo(s), Hi(s));
    }
  }

  lemma BaseMoves(s: State, id: nat, p: PeerState, b: int)
    requires Inv(s) && s.mem.lock == Some(Peer(id)) && s.peers[id].buf == [] && (p.buf == [] || p.buf == [SetBase(b)])
    ensures var s' := s.(peers := s.peers[id := p]);
      && HolderBuf(s') == p.buf && HolderPc(s') == p.pc
      && Full(s') == if p.buf == [] then Full(s) else Full(s).(base := b)
  {
    hide Drain;
    HolderStores(s, id, p);
    DrainNone(Full(s));
    DrainOne(Full(s), SetBase(b));
  }

  /** The thief goes on, or not, and the queue is the same. */
  lemma BaseKeeps(s: State, id: nat, p: PeerState, b: int)
    requires Inv(s) && s.mem.lock == Some(Peer(id)) && s.peers[id].buf == [] && (p.buf == [] || p.buf == [SetBase(b)])
    requires HolderShape(s.mem, p, Cap(s)) && Lo(s.(peers := s.peers[id := p])) == Lo(s)
    requires s.hinted ==> HintedPc(p.pc)
    requires p.pc.TakeLoad? ==> p.pc.b < s.mem.top
    ensures var s' := s.(peers := s.peers[id := p]); Inv(s') && Abs(s') == Abs(s)
  {
    hide Drain, Full, HolderShape, QuietStore;
    BaseMoves(s, id, p, b);
    HolderFacts(s);
    PendingSlotsAboveLo(s);
    HolderKeeps(s, id, p);
  }

  lemma QuietBase(s: State, id: nat)
    requires Inv(s) && s.mem.lock == Some(Peer(id)) && id in s.peers && s.peers[id].buf == []
    ensures Full(s).base == s.mem.base
  {
    hide Drain;
    QuietFacts(s);
    DrainNone(s.mem);
  }

  /** Announcing the tentative base, and taking the announcement back. */
  lemma TakeCsGood(s: State, id: nat, accept: bool)
    requires Inv(s) && Enabled(s, PeerStep(id, accept)) && s.peers[id].pc.TakeCs?
    ensures Good(s, PeerStep(id, accept))
  {
    hide Drain, Full;
    var p := PeerNext(s.mem, id, s.peers[id], accept).0;
    var b := s.mem.base + 1;
    QuietBase(s, id);
    BaseMoves(s, id, p, b);
    assert Next(s, PeerStep(id, accept)) == s.(peers := s.peers[id := p]);
    BaseKeeps(s, id, p, b);
  }

  lemma TakeFenceGood(s: State, id: nat, accept: bool)
    requires Inv(s) && Enabled(s, PeerStep(id, accept)) && s.peers[id].pc.TakeFence?
    ensures Good(s, PeerStep(id, accept))
  {
    hide Drain, Full;
    var p := PeerNext(s.mem, id, s.peers[id], accept).0;
    var b := s.peers[id].pc.b;
    QuietBase(s, id);
    BaseMoves(s, id, p, b);
    assert Next(s, PeerStep(id, accept)) == s.(peers := s.peers[id := p]);
    BaseKeeps(s, id, p, b);
  }

  /** The thread at the base as the thief reads it from memory. */
  lemma TakeReads(s: State, id: nat)
    requires Inv(s) && s.mem.lock == Some(Peer(id)) && s.peers[id].pc.TakeLoad?
    ensures var b := s.peers[id].pc.b;
      && Lo(s) == b < Hi(s) <= |s.mem.slots| == |Full(s).slots|
      && At(s.mem.slots, b) == Full(s).slots[b]
      && Abs(s) == [At(s.mem.slots, b)] + Full(s).slots[b + 1..Hi(s)]
  {
    var b := s.peers[id].pc.b;
    HolderFacts(s);
    assert HolderPc(s) == s.peers[id].pc && SlotsApart(s);
    SlotUnwritten(s.mem, s.obuf, b);
  }

  lemma TakeLoadFull(s: State, id: nat, p: PeerState)
    requires Inv(s) && s.mem.lock == Some(Peer(id)) && s.peers[id].pc.TakeLoad?
    requires var b := s.peers[id].pc.b;
      p.buf == [] || p.buf == [SetCache(NULL)] || p.buf == [SetBase(b)] || p.buf == [SetCache(At(s.mem.slots, b)), SetBase(b)]
    ensures var s' := s.(peers := s.peers[id := p]);
      && HolderBuf(s') == p.buf && HolderPc(s') == p.pc
      && Full(s').top == Full(s).top && Full(s').slots == Full(s).slots
      && Full(s).base == s.peers[id].pc.b + 1
      && Full(s').base == (if p.buf == [] || p.buf[|p.buf| - 1].SetCache? then Full(s).base else s.peers[id].pc.b)
      && Full(s').cache == (if p.buf != [] && p.buf[0].SetCache? then p.buf[0].th else Full(s).cache)
  {
    var b := s.peers[id].pc.b;
    HolderStores(s, id, p);
    QuietFacts(s);
    if |p.buf| == 2 {
      DrainTwo(Full(s), SetCache(At(s.mem.slots, b)), SetBase(b));
    } else if |p.buf| == 1 {
      assert p.buf[1..] == [];
    }
  }

  /** The thief keeps the thread: it leaves the queue at the base. */
  lemma TakeAccept(s: State, id: nat, p: PeerState)
    requires Inv(s) && s.mem.lock == Some(Peer(id)) && s.peers[id].pc.TakeLoad?
    requires p.pc.TakeUnlock?
    requires (p.buf == [] && !s.hinted) || p.buf == [SetCache(NULL)]
    ensures var s' := s.(peers := s.peers[id := p]);
      Inv(s') && Apply(Abs(s), RemBase(At(s.mem.slots, s.peers[id].pc.b))) == Some(Abs(s'))
  {
    hide Drain, Full, QuietStore;
    TakeLoadFull(s, id, p);
    HolderFacts(s);
    TakeReads(s, id);
    PendingSlotsAboveLo(s);
    HolderKeeps(s, id, p);
  }

  /** The thief declines, or only refreshes the hint: the base is restored. */
  lemma TakeDecline(s: State, id: nat, p: PeerState)
    requires Inv(s) && s.mem.lock == Some(Peer(id)) && s.peers[id].pc.TakeLoad?
    requires var b := s.peers[id].pc.b;
      p == PeerState(TakeUnlock(None), [SetBase(b)]) || p == PeerState(TakeUnlock(None), [SetCache(At(s.mem.slots, b)), SetBase(b)])
    ensures var s' := s.(peers := s.peers[id := p]); Inv(s') && Abs(s') == Abs(s)
  {
    hide Drain, Full, QuietStore;
    TakeLoadFull(s, id, p);
    HolderFacts(s);
    TakeReads(s, id);
    PendingSlotsAboveLo(s);
    HolderKeeps(s, id, p);
  }

  lemma TakeLoadGood(s: State, id: nat, accept: bool)
    requires Inv(s) && Enabled(s, PeerStep(id, accept)) && s.peers[id].pc.TakeLoad?
    ensures Good(s, PeerStep(id, accept))
  {
    var (p, m) := PeerNext(s.mem, id, s.peers[id], accept);
    assert s.mem.lock == Some(Peer(id)) && s.peers[id].buf == [] && m == s.mem;
    assert s.(mem := m, peers := s.peers[id := p]) == s.(peers := s.peers[id := p]);
    var k := s.peers[id].pc.kind;
    if k == Take || (k == WsTake && accept) {
      assert k == Take ==> !s.hinted;
      TakeAccept(s, id, p);
    } else {
      TakeDecline(s, id, p);
    }
  }

  lemma PassFull(s: State, id: nat, p: PeerState, th: Thread)
    requires Inv(s) && s.mem.lock == Some(Peer(id)) && s.peers[id].pc.PassCs? && s.mem.base > 0
    requires p == PeerState(PassUnlock(true), [SetSlot(s.mem.base - 1, th), SetBase(s.mem.base - 1)])
    ensures var s' := s.(peers := s.peers[id := p]);
      && HolderBuf(s') == p.buf && HolderPc(s') == p.pc
      && Full(s).base == s.mem.base && |Full(s).slots| == |s.mem.slots|
      && s.mem.base <= |s.mem.slots|
      && Full(s') == Full(s).(base := s.mem.base - 1, slots := Full(s).slots[s.mem.base - 1 := th])
  {
    QuietFacts(s);
    HolderFacts(s);
    HolderStores(s, id, p);
    DrainTwo(Full(s), SetSlot(s.mem.base - 1, th), SetBase(s.mem.base - 1));
  }

  lemma PassGood(s: State, id: nat, accept: bool)
    requires Inv(s) && Enabled(s, PeerStep(id, accept)) && s.peers[id].pc.PassCs?
    ensures Good(s, PeerStep(id, accept))
  {
    var (p, m) := PeerNext(s.mem, id, s.peers[id], accept);
    assert s.mem.lock == Some(Peer(id)) && s.peers[id].buf == [] && m == s.mem;
    assert s.(mem := m, peers := s.peers[id := p]) == s.(peers := s.peers[id := p]);
    PendingSlotsAboveLo(s);
    QuietFacts(s);
    if s.mem.base != 0 {
      PassAdds(s, id, p, s.peers[id].pc.th);
    } else {
      HolderStores(s, id, p);
      HolderKeeps(s, id, p);
    }
  }

  lemma PassAdds(s: State, id: nat, p: PeerState, th: Thread)
    requires Inv(s) && s.mem.lock == Some(Peer(id)) && s.peers[id].pc.PassCs? && s.mem.base > 0
    requires p == PeerState(PassUnlock(true), [SetSlot(s.mem.base - 1, th), SetBase(s.mem.base - 1)])
    ensures var s' := s.(peers := s.peers[id := p]); Inv(s') && Abs(s') == [th] + Abs(s)
  {
    var s' := s.(peers := s.peers[id := p]);
    PassFull(s, id, p, th);
    PendingSlotsAboveLo(s);
    assert Abs(s') == [th] + Abs(s);
    HolderKeeps(s, id, p);
  }

  lemma PeerUnlockGood(s: State, id: nat, accept: bool)
    requires Inv(s) && Enabled(s, PeerStep(id, accept)) && (s.peers[id].pc.TakeUnlock? || s.peers[id].pc.PassUnlock?)
    ensures Good(s, PeerStep(id, accept))
  {
    hide Drain, OwnerQuiet;
    var p := PeerNext(s.mem, id, s.peers[id], accept).0;
    HolderFacts(s);
    PendingSlotsAboveLo(s);
    HolderStores(s, id, p);
    var s' := Next(s, PeerStep(id, accept));
    assert s' == s.(peers := s.peers[id := p]);
    assert p.buf == [Unlock];
    DrainOne(Full(s), Unlock);
    HolderKeeps(s, id, p);
  }

  lemma PeerGood(s: State, id: nat, accept: bool)
    requires Inv(s) && Enabled(s, PeerStep(id, accept))
    ensures Good(s, PeerStep(id, accept))
  {
    match s.peers[id].pc
    case TakeCs(_) => TakeCsGood(s, id, accept);
    case TakeFence(_, _) => TakeFenceGood(s, id, accept);
    case TakeLoad(_, _) => TakeLoadGood(s, id, accept);
    case PassCs(_) => PassGood(s, id, accept);
    case TakeUnlock(_) => PeerUnlockGood(s, id, accept);
    case PassUnlock(_) => PeerUnlockGood(s, id, accept);
    case TakeLock(_) => PeerLockGood(s, id, accept);
    case PassLock(_) => PeerLockGood(s, id, accept);
    case _ => PeerSilent(s, PeerStep(id, accept));
  }

  /** Every step of every worker keeps the invariant and performs its operation
      on the sequential deque. */
  lemma StepGood(s: State, a: Act)
    requires Inv(s) && Enabled(s, a)
    ensures Good(s, a)
  {
    match a
    case CallPush(_) => CallGood(s, a);
    case CallPop => CallGood(s, a);
    case CallPut(_) => CallGood(s, a);
    case OwnerStep => OwnerGood(s);
    case OwnerFlush => OwnerFlushGood(s);
    case PeerStep(id, accept) => PeerGood(s, id, accept);
    case PeerFlush(id) => PeerFlushGood(s, id);
    case _ => PeerSilent(s, a);
  }

  lemma InitGood(s: State)
    requires Init(s)
    ensures Inv(s) && Abs(s) == []
  {
    assert Full(s) == s.mem;
  }
}
