/** The internal allocator: free lists for every worker and size class, threaded through the free
    blocks themselves, and pages carved into blocks.  What mmap answers is a parameter. */
module Allocator {
  import opened Arithmetic
  import opened SizeClass
  import opened AllocatorHeap

  /** The address is new memory. */
  ghost predicate FromMmap(h: Heap, page: int, n: nat) {
    page > 0 && forall x :: page <= x < page + n ==> x !in h.mapped
  }

  /** How much a request maps when its list is empty. */
  function MapSize(idx: nat): nat {
    if Pow2(idx) < PAGE then PAGE else Pow2(idx)
  }

  /** No block is lost, none changes its class, and only p and q may change their state. */
  ghost predicate KeepsBut(h0: Heap, h: Heap, p: int, q: int) {
    && (forall a :: a in h0.blocks ==> a in h.blocks && h.blocks[a] == h0.blocks[a])
    && (forall a :: a in h0.loc && a != p && a != q ==> a in h.loc && h.loc[a] == h0.loc[a])
  }

  ghost predicate KeepsOthers(h0: Heap, h: Heap, but: int) {
    KeepsBut(h0, h, but, but)
  }

  /** What is stored in live blocks stays. */
  ghost predicate KeepsData(h0: Heap, mem0: map<int, int>, mem: map<int, int>, but: int) {
    forall a, x :: IsLive(h0, a) && a != but && Within(h0, a, x) ==> Rd(mem, x) == Rd(mem0, x)
  }

  class Store {
    var head: map<Key, int>
    var mem: map<int, int>
    ghost var h: Heap

    ghost predicate Valid()
      reads this
    {
      Wf(h) && AllLinked(h, head, mem)
    }

    constructor ()
      ensures Valid() && h.blocks == map[] && h.mapped == {}
    {
      head := map[];
      mem := map[];
      h := Heap(map[], map[], map[], {});
    }

    /** myth_freelist_push. */
    method PushFree(k: Key, a: int)
      requires Valid() && IsLive(h, a) && h.blocks[a] == k.idx
      modifies this
      ensures Valid() && h == PushBlock(old(h), k, a) && KeepsData(old(h), old(mem), mem, a)
    {
      StoreKeepsData(h, mem, a, HeadOf(head, k));
      StoreKeepsLists(h, head, mem, a, HeadOf(head, k));
      PushKeeps(h, k, a);
      PushLinks(h, head, mem, k, a);
      mem := StoreWord(mem, a, HeadOf(head, k));
      head := head[k := a];
      h := PushBlock(h, k, a);
    }

    /** myth_freelist_pop: 0 if the list is empty. */
    method PopFree(k: Key) returns (a: int)
      requires Valid()
      modifies this
      ensures Valid() && mem == old(mem)
      ensures if L(old(h), k) == [] then a == 0 && h == old(h) else a == L(old(h), k)[0] && h == PopBlock(old(h), k)
    {
      a := HeadOf(head, k);
      assert Linked(L(h, k), a, mem);
      if a != 0 {
        PopKeeps(h, k);
        PopLinks(h, head, mem, k);
        head := head[k := Rd(mem, a)];
        h := PopBlock(h, k);
      } else {
        NoNullBlock(h, k);
      }
    }

    /** One more piece of a page, into the list. */
    method CarveInto(k: Key, q: int)
      requires Valid() && k.idx >= 3 && FromMmap(h, q, Pow2(k.idx))
      modifies this
      ensures Valid() && q !in old(h).loc && h.mapped == old(h).mapped + Range(q, Pow2(k.idx))
      ensures KeepsOthers(old(h), h, q) && KeepsData(old(h), old(mem), mem, q)
    {
      NotYet(h, q);
      CarveKeeps(h, head, mem, q, k.idx);
      ghost var h0 := h;
      h := AddBlock(h, q, k.idx);
      AddData(h0, mem, q, k.idx);
      ghost var h1, mem1 := h, mem;
      PushFree(k, q);
      KeptAgain(h0, h1, h, mem1, mem1, mem, q, q);
    }

    /** The pieces of a page after the first one. */
    method CarveRest(k: Key, page: int)
      requires Valid() && k.idx >= 3 && Pow2(k.idx) < PAGE && IsLive(h, page)
      requires FromMmap(h, page + Pow2(k.idx), PAGE - Pow2(k.idx))
      modifies this
      ensures Valid() && h.mapped == old(h).mapped + Range(page + Pow2(k.idx), PAGE - Pow2(k.idx))
      ensures KeepsOthers(old(h), h, 0) && KeepsData(old(h), old(mem), mem, 0)
    {
      var realsize := Pow2(k.idx);
      ghost var h0, mem0 := h, mem;
      ghost var m, j := PAGE / realsize, 1;
      PageIsWhole(k.idx);
      var p, p2 := page + realsize, page + PAGE;
      while p < p2
        invariant Valid() && 1 <= j <= m && p == page + j * realsize
        invariant h.mapped == h0.mapped + Range(page + realsize, p - page - realsize)
        invariant KeepsOthers(h0, h, 0) && KeepsData(h0, mem0, mem, 0)
        decreases p2 - p
      {
        NextFits(realsize, j, m);
        ghost var h1, mem1 := h, mem;
        CarveInto(k, p);
        KeptAgain(h0, h1, h, mem0, mem1, mem, 0, p);
        Adjacent(page + realsize, p - page - realsize, realsize);
        p := p + realsize;
        j := j + 1;
      }
      AllCarved(realsize, j, m);
    }

    /** What mmap gives becomes a block, or a page of them. */
    method CarveFirst(k: Key, page: int)
      requires Valid() && k.idx >= 3 && FromMmap(h, page, MapSize(k.idx))
      modifies this
      ensures Valid() && IsLive(h, page) && h.blocks[page] == k.idx && page !in old(h).loc
      ensures KeepsOthers(old(h), h, page) && KeepsData(old(h), old(mem), mem, page)
      ensures h.mapped == old(h).mapped + Range(page, MapSize(k.idx))
    {
      ghost var h0, mem0 := h, mem;
      NotYet(h0, page);
      CarveKeeps(h, head, mem, page, k.idx);
      h := AddBlock(h, page, k.idx);
      AddData(h0, mem0, page, k.idx);
      if Pow2(k.idx) < PAGE {
        ghost var h1 := h;
        Adjacent(page, Pow2(k.idx), PAGE - Pow2(k.idx));
        CarveRest(k, page);
        KeptAgain(h0, h1, h, mem0, mem0, mem, page, 0);
      }
    }

    /** A block of the request's class that was not live: from the free list, or carved from
        what mmap gives, with the rest of the page put into the list. */
    method FlMalloc(rank: nat, size: nat, page: int) returns (p: int)
      requires Valid() && size <= LARGEST && FromMmap(h, page, MapSize(ClassOf(size)))
      modifies this
      ensures Valid() && IsLive(h, p) && h.blocks[p] == ClassOf(size) && !IsLive(old(h), p)
      ensures size <= Pow2(h.blocks[p])
      ensures KeepsOthers(old(h), h, p) && KeepsData(old(h), old(mem), mem, p)
      ensures h.mapped == old(h).mapped +
        if L(old(h), Key(rank, ClassOf(size))) == [] then Range(page, MapSize(ClassOf(size))) else {}
    {
      var k := Key(rank, SizeToIndex(AtLeast8(size)));
      ClassFits(AtLeast8(size));
      ClassHolds(size);
      NoNullBlock(h, k);
      PopIsFree(h, k);
      p := PopFree(k);
      if p == 0 {
        CarveFirst(k, page);
        p := page;
      }
    }

    /** Any worker may free a block: it goes to that worker's list. */
    method FlFree(rank: nat, size: nat, p: int)
      requires Valid() && IsLive(h, p) && h.blocks[p] == ClassOf(size)
      modifies this
      ensures Valid() && h == PushBlock(old(h), Key(rank, ClassOf(size)), p)
      ensures KeepsData(old(h), old(mem), mem, p)
    {
      PushFree(Key(rank, SizeToIndex(AtLeast8(size))), p);
    }

    /** A write by the owner of a live block, within the block; below a stack it leaves the word
        above the stack alone. */
    method UserWrite(a: int, x: int, v: int)
      requires Valid() && IsLive(h, a) && Within(h, a, x)
      modifies this`mem
      ensures Valid() && mem == old(mem)[x := v] && KeepsData(h, old(mem), mem, a)
      ensures forall stack, bytes :: Tagged(h, old(mem), stack, a, bytes) && x < stack ==> Tagged(h, mem, stack, a, bytes)
    {
      forall k, f | f in L(h, k) ensures f != x { LiveIsApart(h, a, x, k, f); }
      LinkedKept(h, head, mem, mem[x := v]);
      mem := mem[x := v];
    }

    /** memcpy from one live block into another. */
    method Copy(to: int, from: int, n: nat)
      requires Valid() && IsLive(h, to) && IsLive(h, from) && to != from
      requires n <= Pow2(h.blocks[to]) && n <= Pow2(h.blocks[from])
      modifies this`mem
      ensures Valid() && KeepsData(h, old(mem), mem, to)
      ensures Bytes(mem, to, n) == Bytes(old(mem), from, n)
    {
      var mem' := CopyBytes(mem, to, from, n);
      CopyStays(h, mem, to, from, n);
      LinkedKept(h, head, mem, mem');
      mem := mem';
    }

    /** The old contents, as far as both blocks go, and the old block freed. */
    method FlRealloc(rank: nat, oldsize: nat, p: int, size: nat, page: int) returns (ret: int)
      requires Valid() && size <= LARGEST && FromMmap(h, page, MapSize(ClassOf(size)))
      requires oldsize <= LARGEST && IsLive(h, p) && h.blocks[p] == ClassOf(oldsize)
      modifies this
      ensures Valid() && IsLive(h, ret) && h.blocks[ret] == ClassOf(size) && !IsLive(old(h), ret)
      ensures p in h.loc && h.loc[p] == Free(Key(rank, ClassOf(oldsize)))
      ensures var n := if size < oldsize then size else oldsize; Bytes(mem, ret, n) == Bytes(old(mem), p, n)
      ensures KeepsBut(old(h), h, p, ret)
      ensures KeepsData(old(h), old(mem), mem, p)
    {
      ghost var h0, mem0 := h, mem;
      ret := FlMalloc(rank, size, page);
      ClassHolds(size);
      ClassHolds(oldsize);
      var n := if size < oldsize then size else oldsize;
      BytesStay(h0, mem0, mem, p, n, ret);
      ghost var mem' := mem;
      Copy(ret, p, n);
      ghost var h1, mem1 := h, mem;
      DataStays(h0, h1, mem0, mem', mem1, ret, ret);
      FlFree(rank, oldsize, p);
      BytesStay(h1, mem1, mem, ret, n, p);
      DataStays(h0, h1, mem0, mem1, mem, p, ret);
    }

    /** A stack of a size of its own: the size, rounded up to pages, is stored in the top word of
        the block, and the stack starts one word below it. */
    method NewStack(rank: nat, size: nat, page: int) returns (stack: int, ghost block: int, ghost bytes: nat)
      requires Valid() && 0 < size <= LARGEST && FromMmap(h, page, MapSize(ClassOf(RoundUp(size))))
      modifies this
      ensures Valid() && IsLive(h, block) && !IsLive(old(h), block)
      ensures size <= bytes < size + 0x1000 && bytes % 0x1000 == 0 && Tagged(h, mem, stack, block, bytes)
      ensures bytes <= Pow2(h.blocks[block])
      ensures KeepsOthers(old(h), h, block) && KeepsData(old(h), old(mem), mem, block)
    {
      RoundUpIs(size);
      bytes := RoundUp(size);
      ghost var h0, mem0 := h, mem;
      var p := FlMalloc(rank, RoundUp(size), page);
      block := p;
      stack := p + RoundUp(size) - 16;
      ghost var mem1 := mem;
      TagStays(h, mem, p, stack + 8, bytes);
      LinkedKept(h, head, mem, StoreWord(mem, stack + 8, bytes));
      mem := StoreWord(mem, stack + 8, RoundUp(size));
      DataStays(h0, h, mem0, mem1, mem, p, p);
    }

    /** The word above the stack leads back to the block and its class. */
    method FreeStack(rank: nat, stack: int, ghost block: int, ghost bytes: nat)
      requires Valid() && IsLive(h, block) && Tagged(h, mem, stack, block, bytes) && 0 < bytes
      modifies this
      ensures Valid() && h == PushBlock(old(h), Key(rank, old(h).blocks[block]), block)
      ensures KeepsData(old(h), old(mem), mem, block)
    {
      var tag := Rd(mem, stack + 8);
      var start := stack - tag + 16;
      FlFree(rank, tag, start);
    }
  }

  /** Round up to 4096 bytes. */
  function RoundUp(size: nat): nat {
    (size + 0xFFF) / 0x1000 * 0x1000
  }

  /** The least multiple of the page that holds the size. */
  lemma RoundUpIs(size: nat)
    ensures size <= RoundUp(size) < size + 0x1000 && RoundUp(size) % 0x1000 == 0
    ensures size <= LARGEST ==> RoundUp(size) <= LARGEST
  {
  }

  /** The stack lies in the block, below the word that holds the block's size. */
  predicate Tagged(h: Heap, mem: map<int, int>, stack: int, block: int, bytes: nat) {
    && block in h.blocks && h.blocks[block] == ClassOf(bytes)
    && stack == block + bytes - 16 && Rd(mem, stack + 8) == bytes
  }

  /** The size word of a stack outlives all that keeps the data of its block. */
  lemma OtherStacksStay(
      h0: Heap, h: Heap, mem0: map<int, int>, mem: map<int, int>, stack: int, block: int, bytes: nat, p: int, q: int)
    requires Tagged(h0, mem0, stack, block, bytes) && IsLive(h0, block) && block != p && 8 <= bytes <= LARGEST
    requires KeepsBut(h0, h, p, q) && KeepsData(h0, mem0, mem, p)
    ensures Tagged(h, mem, stack, block, bytes)
  {
    ClassHolds(bytes);
    assert Within(h0, block, stack + 8);
  }

  /** The class of a request is the least, from 8 bytes up, whose blocks hold it. */
  lemma ClassHolds(size: nat)
    requires size <= LARGEST
    ensures size <= Pow2(ClassOf(size)) && 3 <= ClassOf(size) < CLASSES
    ensures forall c: nat :: c >= 3 && size <= Pow2(c) ==> ClassOf(size) <= c
  {
    ClassFits(AtLeast8(size));
    Pow2Values();
    forall c: nat | c >= 3 && size <= Pow2(c) ensures ClassOf(size) <= c { Pow2Grows(3, c); }
  }

  /** The contents of a live block are kept by what keeps its data. */
  lemma BytesStay(h: Heap, mem: map<int, int>, mem': map<int, int>, a: int, n: nat, but: int)
    requires IsLive(h, a) && a in h.blocks && n <= Pow2(h.blocks[a]) && a != but && KeepsData(h, mem, mem', but)
    ensures Bytes(mem', a, n) == Bytes(mem, a, n)
  {
    forall i | 0 <= i < n ensures Bytes(mem', a, n)[i] == Bytes(mem, a, n)[i] {
      assert Within(h, a, a + i);
    }
  }

  /** A block that was live has stayed live: what then keeps its data adds to what did before. */
  lemma DataStays(h0: Heap, h1: Heap, mem0: map<int, int>, mem1: map<int, int>, mem2: map<int, int>, p: int, q: int)
    requires KeepsOthers(h0, h1, q) && !IsLive(h0, q) && KeepsData(h0, mem0, mem1, q) && KeepsData(h1, mem1, mem2, p)
    requires forall a :: IsLive(h0, a) ==> a in h0.blocks
    ensures KeepsData(h0, mem0, mem2, p)
  {
    forall a, x | IsLive(h0, a) && a != p && Within(h0, a, x) ensures Rd(mem2, x) == Rd(mem0, x) {
      assert IsLive(h1, a) && Within(h1, a, x);
    }
  }

  /** A word written inside live block p touches no list and no other block. */
  lemma TagStays(h: Heap, mem: map<int, int>, p: int, at: int, v: int)
    requires Wf(h) && IsLive(h, p) && p <= at && at + 8 <= p + Pow2(h.blocks[p])
    ensures var mem' := StoreWord(mem, at, v);
      && Rd(mem', at) == v && KeepsData(h, mem, mem', p) && (forall k, f :: f in L(h, k) ==> Rd(mem', f) == Rd(mem, f))
  {
    var mem' := StoreWord(mem, at, v);
    assert InRange(at, at, 8);
    forall k, f | f in L(h, k) ensures Rd(mem', f) == Rd(mem, f) {
      if InRange(f, at, 8) { LiveIsApart(h, p, f, k, f); }
    }
    forall a, x | IsLive(h, a) && a != p && Within(h, a, x) ensures Rd(mem', x) == Rd(mem, x) {
      if InRange(x, at, 8) { assert Within(h, p, x); }
    }
  }

  lemma CopyStays(h: Heap, mem: map<int, int>, to: int, from: int, n: nat)
    requires Wf(h) && IsLive(h, to) && n <= Pow2(h.blocks[to])
    ensures var mem' := CopyBytes(mem, to, from, n);
      && KeepsData(h, mem, mem', to)
      && (forall k, f :: f in L(h, k) ==> Rd(mem', f) == Rd(mem, f))
      && Bytes(mem', to, n) == Bytes(mem, from, n)
  {
    var mem' := CopyBytes(mem, to, from, n);
    forall x | !(to <= x < to + n) ensures Rd(mem', x) == Rd(mem, x) {
      assert x in Range(to, n) <==> InRange(x, to, n);
    }
    forall k, f | f in L(h, k) ensures Rd(mem', f) == Rd(mem, f) {
      if to <= f < to + n { LiveIsApart(h, to, f, k, f); }
    }
    forall b, x | IsLive(h, b) && b != to && Within(h, b, x) ensures Rd(mem', x) == Rd(mem, x) {
      assert to <= x < to + n ==> Within(h, to, x);
    }
    forall i | 0 <= i < n ensures Bytes(mem', to, n)[i] == Bytes(mem, from, n)[i] {
      var x := to + i;
      assert InRange(x, to, n) && x in Range(to, n);
      assert from + (x - to) == from + i;
      assert Rd(mem', x) == mem'[x] == Rd(mem, from + i);
      assert Bytes(mem', to, n)[i] == Rd(mem', x) && Bytes(mem, from, n)[i] == Rd(mem, from + i);
    }
  }

  lemma PopIsFree(h: Heap, k: Key)
    requires Wf(h)
    ensures L(h, k) != [] ==> var a := L(h, k)[0];
      !IsLive(h, a) && a in h.blocks && h.blocks[a] == k.idx && KeepsOthers(h, PopBlock(h, k), a)
  {
    if L(h, k) != [] { assert L(h, k)[0] in L(h, k); }
  }

  /** Keeping, twice in a row. */
  lemma KeptAgain(h0: Heap, h1: Heap, h2: Heap, mem0: map<int, int>, mem1: map<int, int>, mem2: map<int, int>, b: int, c: int)
    requires KeepsOthers(h0, h1, b) && KeepsData(h0, mem0, mem1, b) && Located(h0)
    requires KeepsOthers(h1, h2, c) && KeepsData(h1, mem1, mem2, c) && c !in h0.loc
    ensures KeepsOthers(h0, h2, b) && KeepsData(h0, mem0, mem2, b)
  {
    forall a, x | IsLive(h0, a) && a != b && Within(h0, a, x) ensures Rd(mem2, x) == Rd(mem0, x) {
      assert IsLive(h1, a) && Within(h1, a, x);
    }
  }

  lemma AddData(h: Heap, mem: map<int, int>, a: int, i: nat)
    requires a !in h.blocks
    ensures KeepsOthers(h, AddBlock(h, a, i), a) && KeepsData(h, mem, mem, a)
  {
  }

  lemma Adjacent(a: int, m: nat, n: nat)
    ensures Range(a, m) + Range(a + m, n) == Range(a, m + n)
  {
    assert forall x :: x in Range(a, m + n) <==> InRange(x, a, m) || InRange(x, a + m, n);
  }

  lemma PageIsWhole(i: nat)
    requires Pow2(i) < PAGE
    ensures PAGE == (PAGE / Pow2(i)) * Pow2(i) && PAGE / Pow2(i) >= 1
  {
    hide Pow2;
    BelowPage(i);
    Pow2Values();
    Divides(i, 12);
    Whole(PAGE, Pow2(i));
  }

  lemma Whole(x: nat, p: nat)
    requires p > 0 && x % p == 0 && p <= x
    ensures x == (x / p) * p && x / p >= 1
  {
    assert x == p * (x / p) + x % p;
  }

  function ClassOf(size: nat): nat {
    SizeToIndex(AtLeast8(size))
  }

  lemma BelowPage(i: nat)
    requires Pow2(i) < PAGE
    ensures i <= 12
  {
    if i > 12 {
      Pow2Grows(12, i);
      Pow2Values();
    }
  }

  lemma NextFits(r: nat, j: nat, m: nat)
    requires j * r < m * r
    ensures (j + 1) * r <= m * r && j < m
  {
    if j >= m { MulLe(r, m, j); }
    MulLe(r, j + 1, m);
  }

  lemma AllCarved(r: nat, j: nat, m: nat)
    requires j <= m && j * r >= m * r
    ensures j * r == m * r
  {
    MulLe(r, j, m);
  }

  /** An address that mmap has not given out starts no block. */
  lemma NotYet(h: Heap, a: int)
    requires Wf(h) && a !in h.mapped
    ensures a !in h.blocks && a !in h.loc
  {
    Unmapped(h, a);
    assert !Within(h, a, a);
  }

  lemma CarveKeeps(h: Heap, head: map<Key, int>, mem: map<int, int>, a: int, i: nat)
    requires Wf(h) && AllLinked(h, head, mem) && i >= 3 && FromMmap(h, a, Pow2(i))
    ensures Wf(AddBlock(h, a, i)) && AllLinked(AddBlock(h, a, i), head, mem)
  {
    AddKeeps(h, a, i);
    assert forall k :: L(AddBlock(h, a, i), k) == L(h, k);
    forall k ensures Linked(L(AddBlock(h, a, i), k), HeadOf(head, k), mem) {
      assert Linked(L(h, k), HeadOf(head, k), mem);
    }
  }

  lemma NoNullBlock(h: Heap, k: Key)
    requires Located(h)
    ensures L(h, k) == [] || L(h, k)[0] > 0
  {
    if L(h, k) != [] {
      var a := L(h, k)[0];
      assert a in L(h, k);
      assert a in h.loc && a in h.blocks;
    }
  }

  /** Writing the link of block a touches no other block: blocks have eight bytes at least. */
  lemma StoreKeepsData(h: Heap, mem: map<int, int>, a: int, v: int)
    requires Wf(h) && a in h.blocks
    ensures KeepsData(h, mem, StoreWord(mem, a, v), a)
  {
    forall b, x | IsLive(h, b) && b != a && Within(h, b, x) ensures Rd(StoreWord(mem, a, v), x) == Rd(mem, x) {
      Apart8(h, a, b, x);
    }
  }

  lemma Apart8(h: Heap, a: int, b: int, x: int)
    requires Wf(h) && a in h.blocks && a != b && Within(h, b, x)
    ensures !(a <= x < a + 8)
  {
    Pow2Values();
    Pow2Grows(3, h.blocks[a]);
    assert a <= x < a + 8 ==> Within(h, a, x);
  }

  lemma StoreKeepsLists(h: Heap, head: map<Key, int>, mem: map<int, int>, a: int, v: int)
    requires Wf(h) && IsLive(h, a) && AllLinked(h, head, mem)
    ensures AllLinked(h, head, StoreWord(mem, a, v))
  {
    forall k, b | b in L(h, k) ensures Rd(StoreWord(mem, a, v), b) == Rd(mem, b) {
      assert Within(h, b, b);
      Apart8(h, a, b, b);
    }
    LinkedKept(h, head, mem, StoreWord(mem, a, v));
  }

  lemma PushLinks(h: Heap, head: map<Key, int>, mem: map<int, int>, k: Key, a: int)
    requires AllLinked(h, head, StoreWord(mem, a, HeadOf(head, k)))
    ensures AllLinked(PushBlock(h, k, a), head[k := a], StoreWord(mem, a, HeadOf(head, k)))
  {
    var h' := PushBlock(h, k, a);
    var mem' := StoreWord(mem, a, HeadOf(head, k));
    var l := L(h, k);
    assert Linked(l, HeadOf(head, k), mem');
    assert Rd(mem', a) == HeadOf(head, k) by { assert a in mem.Keys + Range(a, 8); }
    LinkedPush(l, HeadOf(head, k), mem', a);
    forall e ensures Linked(L(h', e), HeadOf(head[k := a], e), mem') {
      if e != k { assert L(h', e) == L(h, e) && Linked(L(h, e), HeadOf(head, e), mem'); }
    }
  }

  lemma PopLinks(h: Heap, head: map<Key, int>, mem: map<int, int>, k: Key)
    requires AllLinked(h, head, mem) && L(h, k) != []
    ensures AllLinked(PopBlock(h, k), head[k := Rd(mem, L(h, k)[0])], mem)
  {
    var h' := PopBlock(h, k);
    var l := L(h, k);
    assert Linked(l, HeadOf(head, k), mem);
    LinkedPop(l, HeadOf(head, k), mem);
    forall e ensures Linked(L(h', e), HeadOf(head[k := Rd(mem, l[0])], e), mem) {
      if e != k { assert L(h', e) == L(h, e) && Linked(L(h, e), HeadOf(head, e), mem); }
    }
  }
}
