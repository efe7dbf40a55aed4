/** What the allocator's lists mean: the blocks carved so far, where each of them is, and the
    bytes obtained from mmap. */
module AllocatorHeap {
  import opened Arithmetic

  /** A free list: of one worker, for one size class. */
  datatype Key = Key(rank: nat, idx: nat)

  datatype Loc = Live | Free(k: Key)

  datatype Heap = Heap(blocks: map<int, nat>, loc: map<int, Loc>, lists: map<Key, seq<int>>, mapped: set<int>)

  function L(h: Heap, k: Key): seq<int> {
    if k in h.lists then h.lists[k] else []
  }

  predicate InRange(x: int, a: int, n: nat) {
    a <= x < a + n
  }

  function Range(a: int, n: nat): set<int> {
    set x | a <= x < a + n && InRange(x, a, n)
  }

  predicate Within(h: Heap, a: int, x: int) {
    a in h.blocks && a <= x < a + Pow2(h.blocks[a])
  }

  predicate IsLive(h: Heap, a: int) {
    a in h.loc && h.loc[a] == Live
  }

  predicate NoDup(l: seq<int>) {
    forall i, j :: 0 <= i < j < |l| ==> l[i] != l[j]
  }

  /** Blocks never overlap, and every byte obtained from mmap is in one of them. */
  ghost predicate Tiled(h: Heap) {
    && (forall a, b, x :: Within(h, a, x) && Within(h, b, x) ==> a == b)
    && (forall x :: x in h.mapped <==> exists a :: Within(h, a, x))
  }

  /** A block is live or in one place of one list, which is of its class. */
  ghost predicate Located(h: Heap) {
    && (forall a :: a in h.loc <==> a in h.blocks)
    && (forall a :: a in h.blocks ==> a > 0 && h.blocks[a] >= 3)
    && (forall a :: a in h.loc && h.loc[a].Free? ==> h.loc[a].k.idx == h.blocks[a])
    && (forall k, a :: a in L(h, k) <==> a in h.loc && h.loc[a] == Free(k))
    && (forall k :: NoDup(L(h, k)))
  }

  ghost predicate Wf(h: Heap) {
    Tiled(h) && Located(h)
  }

  // ----- carving, freeing, allocating

  function AddBlock(h: Heap, a: int, i: nat): Heap {
    h.(blocks := h.blocks[a := i], loc := h.loc[a := Live], mapped := h.mapped + Range(a, Pow2(i)))
  }

  function PushBlock(h: Heap, k: Key, a: int): Heap {
    h.(lists := h.lists[k := [a] + L(h, k)], loc := h.loc[a := Free(k)])
  }

  function PopBlock(h: Heap, k: Key): Heap
    requires L(h, k) != []
  {
    h.(lists := h.lists[k := L(h, k)[1..]], loc := h.loc[L(h, k)[0] := Live])
  }

  lemma Unmapped(h: Heap, x: int)
    requires Tiled(h) && x !in h.mapped
    ensures forall a :: !Within(h, a, x)
  {
  }

  /** New bytes make a new live block. */
  lemma AddKeeps(h: Heap, a: int, i: nat)
    requires Wf(h) && a > 0 && i >= 3 && forall x :: a <= x < a + Pow2(i) ==> x !in h.mapped
    ensures Wf(AddBlock(h, a, i))
  {
    var h' := AddBlock(h, a, i);
    Unmapped(h, a);
    assert !Within(h, a, a);
    assert forall b, x :: b != a ==> (Within(h', b, x) <==> Within(h, b, x));
    assert forall x :: Within(h', a, x) <==> a <= x < a + Pow2(i);
    AddTiled(h, a, i);
    assert forall k :: L(h', k) == L(h, k);
  }

  lemma AddTiled(h: Heap, a: int, i: nat)
    requires Tiled(h) && a !in h.blocks && forall x :: a <= x < a + Pow2(i) ==> x !in h.mapped
    ensures Tiled(AddBlock(h, a, i))
  {
    var h' := AddBlock(h, a, i);
    assert forall b, x :: b != a ==> (Within(h', b, x) <==> Within(h, b, x));
    forall b, x | Within(h', a, x) && Within(h', b, x) ensures b == a {
      Unmapped(h, x);
      assert !Within(h, b, x);
    }
    forall x ensures x in h'.mapped <==> exists b :: Within(h', b, x) {
      assert x in Range(a, Pow2(i)) <==> InRange(x, a, Pow2(i));
      if x in h.mapped {
        var b :| Within(h, b, x);
        assert Within(h', b, x);
      } else if x in Range(a, Pow2(i)) {
        assert Within(h', a, x);
      }
    }
  }

  lemma SameTiles(h: Heap, h': Heap)
    requires Tiled(h) && h'.blocks == h.blocks && h'.mapped == h.mapped
    ensures Tiled(h')
  {
    assert forall a, x :: Within(h', a, x) <==> Within(h, a, x);
  }

  lemma PushKeeps(h: Heap, k: Key, a: int)
    requires Wf(h) && IsLive(h, a) && h.blocks[a] == k.idx
    ensures Wf(PushBlock(h, k, a))
  {
    var h' := PushBlock(h, k, a);
    SameTiles(h, h');
    assert forall e :: e != k ==> L(h', e) == L(h, e);
    assert L(h', k) == [a] + L(h, k);
    assert a !in L(h, k);
  }

  lemma PopKeeps(h: Heap, k: Key)
    requires Wf(h) && L(h, k) != []
    ensures Wf(PopBlock(h, k)) && IsLive(PopBlock(h, k), L(h, k)[0]) && h.blocks[L(h, k)[0]] == k.idx
  {
    var h' := PopBlock(h, k);
    var l := L(h, k);
    SameTiles(h, h');
    assert forall e :: e != k ==> L(h', e) == L(h, e);
    assert L(h', k) == l[1..] && l == [l[0]] + l[1..];
    assert l[0] in l;
    assert forall b :: b in l <==> b == l[0] || b in l[1..];
    assert l[0] !in l[1..];
  }

  // ----- memory

  /** Memory by the byte; a pointer fills eight of them. */
  function Rd(mem: map<int, int>, x: int): int {
    if x in mem then mem[x] else 0
  }

  function StoreWord(mem: map<int, int>, a: int, v: int): map<int, int> {
    map x | x in mem.Keys + Range(a, 8) :: if a <= x < a + 8 then v else mem[x]
  }

  function CopyBytes(mem: map<int, int>, to: int, from: int, n: nat): map<int, int> {
    map x | x in mem.Keys + Range(to, n) :: if to <= x < to + n then Rd(mem, from + (x - to)) else mem[x]
  }

  function Bytes(mem: map<int, int>, a: int, n: nat): seq<int> {
    seq(n, i requires 0 <= i < n => Rd(mem, a + i))
  }

  function HeadOf(head: map<Key, int>, k: Key): int {
    if k in head then head[k] else 0
  }

  function Nth(l: seq<int>, j: nat): int {
    if j < |l| then l[j] else 0
  }

  /** A list in memory: each free block starts with the address of the next one. */
  predicate Linked(l: seq<int>, head: int, mem: map<int, int>) {
    head == Nth(l, 0) && forall j :: 0 <= j < |l| ==> Rd(mem, l[j]) == Nth(l, j + 1)
  }

  ghost predicate AllLinked(h: Heap, head: map<Key, int>, mem: map<int, int>) {
    forall k :: Linked(L(h, k), HeadOf(head, k), mem)
  }

  /** Writes that stay out of free blocks' first bytes leave the lists alone. */
  lemma LinkedKept(h: Heap, head: map<Key, int>, mem: map<int, int>, mem': map<int, int>)
    requires AllLinked(h, head, mem) && forall k, a :: a in L(h, k) ==> Rd(mem', a) == Rd(mem, a)
    ensures AllLinked(h, head, mem')
  {
    forall k ensures Linked(L(h, k), HeadOf(head, k), mem') {
      var l := L(h, k);
      assert Linked(l, HeadOf(head, k), mem);
      assert forall j :: 0 <= j < |l| ==> l[j] in l;
    }
  }

  lemma LinkedPush(l: seq<int>, head: int, mem: map<int, int>, a: int)
    requires Linked(l, head, mem) && Rd(mem, a) == head
    ensures Linked([a] + l, a, mem)
  {
    var l' := [a] + l;
    forall j | 0 <= j < |l'| ensures Rd(mem, l'[j]) == Nth(l', j + 1) {
      assert Nth(l', j + 1) == Nth(l, j);
      if j > 0 { assert l'[j] == l[j - 1]; }
    }
  }

  lemma LinkedPop(l: seq<int>, head: int, mem: map<int, int>)
    requires Linked(l, head, mem) && l != []
    ensures Linked(l[1..], Rd(mem, l[0]), mem)
  {
    var l' := l[1..];
    forall j | 0 <= j < |l'| ensures Rd(mem, l'[j]) == Nth(l', j + 1) {
      assert l'[j] == l[j + 1] && Nth(l', j + 1) == Nth(l, j + 2);
    }
    assert Rd(mem, l[0]) == Nth(l, 1) == Nth(l', 0);
  }

  /** No byte of a live block is the first of a free one. */
  lemma LiveIsApart(h: Heap, a: int, x: int, k: Key, f: int)
    requires Wf(h) && IsLive(h, a) && Within(h, a, x) && f in L(h, k)
    ensures f != x
  {
    assert Within(h, f, f);
  }

  /** Nothing leaks: each byte obtained from mmap is in exactly one block, which is either live
      or in exactly one free list. */
  lemma EveryByteIsAccounted(h: Heap, x: int) returns (a: int)
    requires Wf(h) && x in h.mapped
    ensures Within(h, a, x) && forall b :: Within(h, b, x) ==> b == a
    ensures if IsLive(h, a) then forall k :: a !in L(h, k)
            else exists k :: a in L(h, k) && k.idx == h.blocks[a] && forall e :: a in L(h, e) ==> e == k
  {
    a :| Within(h, a, x);
    if !IsLive(h, a) {
      assert a in L(h, h.loc[a].k);
    }
  }
}
