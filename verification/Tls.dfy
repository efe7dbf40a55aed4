/** Thread-local storage: a page-table-like tree from keys to values, grown as keys are set, its
    first nodes taken from a buffer inside the thread descriptor. */
module Tls {
  import opened Base

  const CHILDREN: nat := 4
  const ENTRIES: nat := 16
  const DEPTH: nat := 3
  const KEYS: nat := 1024

  /** Sizes in bytes, type tag and padding included, and of the embedded buffer. */
  const NODE_SIZE: nat := 40
  const LEAF_SIZE: nat := 136
  const BUFFER: nat := 256

  datatype Node = Inner(children: seq<int>) | Leaf(entries: seq<int>)

  /** Where a node hangs: its depth, and the keys' leading bits. */
  datatype Pos = Pos(depth: nat, prefix: nat)

  function SizeOf(n: Node): nat {
    if n.Inner? then NODE_SIZE else LEAF_SIZE
  }

  /** The keys below one node of depth d. */
  function Stride(d: nat): nat
    requires d <= DEPTH
  {
    if d == 0 then 1024 else if d == 1 then 256 else if d == 2 then 64 else 16
  }

  /** The shift of the source at level i, as a divisor, and the mask. */
  function ChildIndex(key: nat, i: nat): (c: nat)
    requires i < DEPTH
    ensures c < CHILDREN
  {
    (key / Stride(i + 1)) % CHILDREN
  }

  lemma Descends(key: nat, i: nat)
    requires i < DEPTH
    ensures key / Stride(i + 1) == CHILDREN * (key / Stride(i)) + ChildIndex(key, i)
  {
    if i == 0 { assert key / 1024 == key / 256 / 4; }
    else if i == 1 { assert key / 256 == key / 64 / 4; }
    else { assert key / 64 == key / 16 / 4; }
  }

  /** All that is known of the nodes; `pos` says where each of them hangs. */
  datatype Shape = Shape(root: int, nodes: map<int, Node>, pos: map<int, Pos>)

  predicate NodeOk(t: Shape, a: int)
    requires a in t.nodes && a in t.pos
  {
    var p := t.pos[a];
    match t.nodes[a]
    case Leaf(entries) => p.depth == DEPTH && |entries| == ENTRIES
    case Inner(children) =>
      && p.depth < DEPTH && |children| == CHILDREN
      && forall i :: 0 <= i < CHILDREN && children[i] != 0 ==>
           && children[i] in t.nodes && children[i] in t.pos
           && t.pos[children[i]] == Pos(p.depth + 1, CHILDREN * p.prefix + i)
  }

  ghost predicate Wf(t: Shape) {
    && (forall a :: a in t.nodes <==> a in t.pos)
    && 0 !in t.nodes
    && (t.root != 0 ==> t.root in t.nodes && t.pos[t.root] == Pos(0, 0))
    && forall a :: a in t.nodes ==> NodeOk(t, a)
  }

  /** The child where a walk goes on, 0 where it ends. */
  function Child(t: Shape, a: int, c: nat): int
    requires c < CHILDREN
  {
    if a in t.nodes && t.nodes[a].Inner? && |t.nodes[a].children| == CHILDREN then t.nodes[a].children[c] else 0
  }

  /** The node of depth d on the way to a key; 0 if it does not exist. */
  function Walk(t: Shape, key: nat, d: nat): int
    requires d <= DEPTH
    decreases d
  {
    if d == 0 then t.root
    else Child(t, Walk(t, key, d - 1), ChildIndex(key, d - 1))
  }

  /** The map that the tree stands for; keys never set have the value 0. */
  function Lookup(t: Shape, key: nat): int {
    var a := Walk(t, key, DEPTH);
    if a in t.nodes && t.nodes[a].Leaf? && |t.nodes[a].entries| == ENTRIES then t.nodes[a].entries[key % ENTRIES] else 0
  }

  /** On the way to a key a node of depth d hangs under the key's leading bits: no node is on the
      way to keys with others. */
  lemma {:induction false} WalkIs(t: Shape, key: nat, d: nat)
    requires Wf(t) && key < KEYS && d <= DEPTH
    ensures var a := Walk(t, key, d);
      a != 0 ==> a in t.nodes && t.pos[a] == Pos(d, key / Stride(d)) && (t.nodes[a].Inner? <==> d < DEPTH)
    decreases d
  {
    if d > 0 {
      WalkIs(t, key, d - 1);
      Descends(key, d - 1);
      var b := Walk(t, key, d - 1);
      if b != 0 { assert NodeOk(t, b); }
    }
    var a := Walk(t, key, d);
    if a != 0 && a in t.nodes { assert NodeOk(t, a); }
  }

  // ----- growing

  function NewInner(): Node { Inner([0, 0, 0, 0]) }

  function NewLeaf(): Node { Leaf([0, 0, 0, 0, 0, 0, 0, 0, 0, 0, 0, 0, 0, 0, 0, 0]) }

  function Empty(d: nat): Node {
    if d < DEPTH then NewInner() else NewLeaf()
  }

  /** A new empty node a as child i of b, or as the root. */
  function Plant(t: Shape, a: int): Shape {
    Shape(a, t.nodes[a := NewInner()], t.pos[a := Pos(0, 0)])
  }

  function Graft(t: Shape, b: int, i: nat, a: int): Shape
    requires b in t.nodes && b in t.pos && t.nodes[b].Inner? && i < |t.nodes[b].children|
  {
    var p := t.pos[b];
    Shape(t.root,
      t.nodes[a := Empty(p.depth + 1)][b := Inner(t.nodes[b].children[i := a])],
      t.pos[a := Pos(p.depth + 1, CHILDREN * p.prefix + i)])
  }

  function Write(t: Shape, a: int, e: nat, v: int): Shape
    requires a in t.nodes && t.nodes[a].Leaf? && e < |t.nodes[a].entries|
  {
    t.(nodes := t.nodes[a := Leaf(t.nodes[a].entries[e := v])])
  }

  lemma PlantKeeps(t: Shape, a: int)
    requires Wf(t) && t.root == 0 && a != 0 && a !in t.nodes
    ensures Wf(Plant(t, a)) && forall key: nat :: Lookup(Plant(t, a), key) == Lookup(t, key)
  {
    var t' := Plant(t, a);
    forall b | b in t'.nodes ensures NodeOk(t', b) {
      if b != a { assert NodeOk(t, b); }
    }
    forall key: nat ensures Lookup(t', key) == Lookup(t, key) {
      assert Walk(t, key, 1) == 0 && Walk(t, key, 2) == 0 && Walk(t, key, 3) == 0;
      assert Walk(t', key, 1) == 0 && Walk(t', key, 2) == 0 && Walk(t', key, 3) == 0;
    }
  }

  lemma GraftKeeps(t: Shape, b: int, i: nat, a: int)
    requires Wf(t) && b in t.nodes && t.nodes[b].Inner? && i < CHILDREN && t.nodes[b].children[i] == 0
    requires a != 0 && a !in t.nodes
    ensures Wf(Graft(t, b, i, a))
  {
    var t' := Graft(t, b, i, a);
    assert NodeOk(t, b);
    forall c | c in t'.nodes ensures NodeOk(t', c) {
      if c in t.nodes { assert NodeOk(t, c); }
    }
  }

  lemma WriteKeeps(t: Shape, a: int, e: nat, v: int)
    requires Wf(t) && a in t.nodes && t.nodes[a].Leaf? && e < ENTRIES
    ensures |t.nodes[a].entries| == ENTRIES && Wf(Write(t, a, e, v))
  {
    assert NodeOk(t, a);
    var t' := Write(t, a, e, v);
    forall c | c in t'.nodes ensures NodeOk(t', c) {
      assert NodeOk(t, c);
    }
  }

  /** A graft only adds: every way to a node stays, and what is new is the empty node. */
  lemma GraftChild(t: Shape, b: int, i: nat, a: int, w: int, c: nat)
    requires b in t.nodes && b in t.pos && t.nodes[b].Inner? && i < CHILDREN && |t.nodes[b].children| == CHILDREN
    requires t.nodes[b].children[i] == 0 && a != b && c < CHILDREN && w != a
    ensures var x := Child(t, w, c); var x' := Child(Graft(t, b, i, a), w, c); x' == x || (x == 0 && x' == a)
    ensures Child(Graft(t, b, i, a), a, c) == 0
  {
  }

  lemma {:induction false} GraftWalk(t: Shape, b: int, i: nat, a: int, key: nat, d: nat)
    requires Wf(t) && b in t.nodes && t.nodes[b].Inner? && i < CHILDREN && |t.nodes[b].children| == CHILDREN
    requires t.nodes[b].children[i] == 0 && a != 0 && a !in t.nodes && d <= DEPTH
    ensures var w := Walk(t, key, d); var w' := Walk(Graft(t, b, i, a), key, d);
      w' == w || (w == 0 && w' == a)
    decreases d
  {
    if d > 0 {
      hide Graft, Child, Wf;
      var c := ChildIndex(key, d - 1);
      GraftWalk(t, b, i, a, key, d - 1);
      WalkIn(t, key, d - 1);
      NotYet(t, b, a);
      GraftChild(t, b, i, a, Walk(t, key, d - 1), c);
      NoChild(t, c);
    }
  }

  lemma NotYet(t: Shape, b: int, a: int)
    requires Wf(t) && b in t.nodes && a !in t.nodes
    ensures a != b && b in t.pos && 0 !in t.nodes
  {
  }

  lemma NoChild(t: Shape, c: nat)
    requires Wf(t) && c < CHILDREN
    ensures Child(t, 0, c) == 0
  {
  }

  /** A walk ends at a node or at 0. */
  lemma WalkIn(t: Shape, key: nat, d: nat)
    requires Wf(t) && d <= DEPTH
    ensures Walk(t, key, d) == 0 || Walk(t, key, d) in t.nodes
  {
    if d > 0 {
      var w := Walk(t, key, d - 1);
      if w in t.nodes { assert NodeOk(t, w); }
    }
  }

  lemma GraftLookup(t: Shape, b: int, i: nat, a: int, key: nat)
    requires Wf(t) && b in t.nodes && t.nodes[b].Inner? && i < CHILDREN && |t.nodes[b].children| == CHILDREN
    requires t.nodes[b].children[i] == 0 && a != 0 && a !in t.nodes
    ensures Lookup(Graft(t, b, i, a), key) == Lookup(t, key)
  {
    GraftWalk(t, b, i, a, key, DEPTH);
  }

  /** The way that leads to b goes on to the new node. */
  lemma GraftReaches(t: Shape, b: int, a: int, key: nat, d: nat)
    requires Wf(t) && d < DEPTH && b in t.nodes && t.nodes[b].Inner? && |t.nodes[b].children| == CHILDREN
    requires t.nodes[b].children[ChildIndex(key, d)] == 0 && a != 0 && a !in t.nodes && Walk(t, key, d) == b
    ensures Walk(Graft(t, b, ChildIndex(key, d), a), key, d + 1) == a
  {
    GraftWalk(t, b, ChildIndex(key, d), a, key, d);
  }

  lemma {:induction false} WriteWalk(t: Shape, a: int, e: nat, v: int, key: nat, d: nat)
    requires a in t.nodes && t.nodes[a].Leaf? && e < |t.nodes[a].entries| && d <= DEPTH
    ensures Walk(Write(t, a, e, v), key, d) == Walk(t, key, d)
    decreases d
  {
    if d > 0 { WriteWalk(t, a, e, v, key, d - 1); }
  }

  /** Distinct keys never share an entry. */
  lemma WriteLookup(t: Shape, key: nat, v: int, j: nat)
    requires Wf(t) && key < KEYS && j < KEYS
    requires var a := Walk(t, key, DEPTH); a in t.nodes && t.nodes[a].Leaf? && |t.nodes[a].entries| == ENTRIES
    ensures Lookup(Write(t, Walk(t, key, DEPTH), key % ENTRIES, v), j) == if j == key then v else Lookup(t, j)
  {
    var a := Walk(t, key, DEPTH);
    WriteWalk(t, a, key % ENTRIES, v, j, DEPTH);
    WalkIs(t, key, DEPTH);
    WalkIs(t, j, DEPTH);
  }

  // ----- where the nodes are

  predicate Apart(a: int, m: int, b: int, n: int) {
    a + m <= b || b + n <= a
  }

  predicate SpaceFor(nodes: map<int, Node>, a: int, size: nat) {
    forall b :: b in nodes ==> Apart(a, size, b, SizeOf(nodes[b]))
  }

  /** Nodes never overlap; those in the buffer lie below the bump pointer. */
  ghost predicate Spaced(nodes: map<int, Node>, buf: int, pre: int) {
    && 0 < buf <= pre <= buf + BUFFER
    && (forall a, b :: a in nodes && b in nodes && a != b ==> Apart(a, SizeOf(nodes[a]), b, SizeOf(nodes[b])))
    && forall a :: a in nodes ==> (buf <= a && a + SizeOf(nodes[a]) <= pre) || Apart(a, SizeOf(nodes[a]), buf, BUFFER)
  }

  function SizeAt(d: nat): nat {
    if d < DEPTH then NODE_SIZE else LEAF_SIZE
  }

  /** What malloc would give for the nodes from depth d on: new memory, outside the buffer. */
  ghost predicate FromMalloc(nodes: map<int, Node>, buf: int, m: seq<int>, d: nat) {
    && |m| == DEPTH + 1
    && (forall k :: d <= k <= DEPTH ==> m[k] > 0 && Apart(m[k], SizeAt(k), buf, BUFFER) && SpaceFor(nodes, m[k], SizeAt(k)))
    && forall k, l :: d <= k < l <= DEPTH ==> Apart(m[k], SizeAt(k), m[l], SizeAt(l))
  }

  class Tree {
    var root: int
    var nodes: map<int, Node>
    const buf: int
    var pre: int
    ghost var pos: map<int, Pos>

    ghost function Form(): Shape
      reads this
    {
      Shape(root, nodes, pos)
    }

    /** The buffer is unused before the first set and used up after it. */
    ghost predicate Valid()
      reads this
    {
      && Wf(Form()) && Spaced(nodes, buf, pre)
      && (if root == 0 then nodes == map[] && pre == buf else pre == buf + BUFFER)
    }

    constructor (at: int)
      requires at > 0
      ensures Valid() && forall key: nat :: Lookup(Form(), key) == 0
    {
      buf := at;
      root, nodes, pre, pos := 0, map[], at, map[];
    }

    /** The value of a key; 0 for one that was never set or is out of range. */
    method Get(idx: int) returns (v: int)
      requires Valid()
      ensures v == if 0 <= idx < KEYS then Lookup(Form(), idx) else 0
    {
      if idx < 0 || idx >= KEYS {
        return 0;
      }
      var n := root;
      if n == 0 {
        Missing(Form(), idx, 0);
        return 0;
      }
      var i := 0;
      while i < DEPTH
        invariant 0 <= i <= DEPTH && n == Walk(Form(), idx, i) && n != 0
      {
        WalkIs(Form(), idx, i);
        assert NodeOk(Form(), n);
        n := nodes[n].children[ChildIndex(idx, i)];
        i := i + 1;
        if n == 0 {
          Missing(Form(), idx, i);
          return 0;
        }
      }
      WalkIs(Form(), idx, DEPTH);
      assert NodeOk(Form(), n);
      v := nodes[n].entries[idx % ENTRIES];
    }

    /** Bump allocation, or malloc when the buffer does not have the room. */
    method NodeAlloc(d: nat, m: int) returns (p: int)
      requires d <= DEPTH && buf <= pre <= buf + BUFFER
      modifies this`pre
      ensures NewSpot(buf, old(pre), pre, p, SizeAt(d), m)
    {
      if pre + SizeAt(d) <= buf + BUFFER {
        p := pre;
        pre := pre + SizeAt(d);
      } else {
        p := m;
      }
    }

    /** The root, made if it is missing. */
    method Root(idx: nat, m: seq<int>) returns (n: int)
      requires idx < KEYS && Valid() && FromMalloc(nodes, buf, m, 0)
      modifies this
      ensures Growing(Form(), buf, pre, idx, 0, n, m) && SameMap(old(Form()), Form())
      ensures old(root) == 0 ==> InBuffer(nodes, buf) && pre < buf + BUFFER
    {
      n := root;
      if n == 0 {
        ghost var t := Form();
        n := NodeAlloc(0, m[0]);
        PlantGrows(t, buf, pre, n, idx, m);
        nodes := nodes[n := NewInner()];
        pos := pos[n := Pos(0, 0)];
        root := n;
      }
    }

    /** The child on the way to the key, made if it is missing. */
    method Child(idx: nat, i: nat, n: int, m: seq<int>) returns (c: int)
      requires idx < KEYS && i < DEPTH && Growing(Form(), buf, pre, idx, i, n, m)
      modifies this
      ensures Growing(Form(), buf, pre, idx, i + 1, c, m) && SameMap(old(Form()), Form())
      ensures InBuffer(old(nodes), buf) && old(pre) < buf + BUFFER ==>
        InBuffer(nodes, buf) && (i + 1 < DEPTH ==> pre < buf + BUFFER)
    {
      hide Growing, SameMap, InBuffer;
      ghost var t, pre0 := Form(), pre;
      InnerOf(t, buf, pre, idx, i, n, m);
      var cidx := ChildIndex(idx, i);
      c := nodes[n].children[cidx];
      if c == 0 {
        c := NodeAlloc(i + 1, m[i + 1]);
        GraftGrows(t, buf, pre0, pre, idx, i, n, c, m);
        ghost var p := pos[n];
        nodes := nodes[c := Empty(i + 1)][n := Inner(nodes[n].children[cidx := c])];
        pos := pos[c := Pos(p.depth + 1, CHILDREN * p.prefix + cidx)];
        assert Form() == Graft(t, n, cidx, c);
      } else {
        StepGrows(t, buf, pre, idx, i, n, m);
      }
    }

    /** The write into the leaf. */
    method Store(idx: nat, n: int, v: int, m: seq<int>)
      requires idx < KEYS && Growing(Form(), buf, pre, idx, DEPTH, n, m)
      modifies this`nodes
      ensures Valid() && root != 0 && (InBuffer(old(nodes), buf) ==> InBuffer(nodes, buf))
      ensures forall j: nat :: j < KEYS ==> Lookup(Form(), j) == if j == idx then v else Lookup(old(Form()), j)
    {
      ghost var t := Form();
      LeafAt(t, idx, n);
      WriteKeeps(t, n, idx % ENTRIES, v);
      forall j: nat | j < KEYS ensures Lookup(Write(t, n, idx % ENTRIES, v), j) == if j == idx then v else Lookup(t, j) {
        WriteLookup(t, idx, v, j);
      }
      nodes := nodes[n := Leaf(nodes[n].entries[idx % ENTRIES := v])];
      assert Form() == Write(t, n, idx % ENTRIES, v);
    }

    /** False for a key out of range.  The tree stands for the map with the key's value replaced,
        and its first nodes fill the buffer exactly. */
    method Set(idx: int, v: int, m: seq<int>) returns (ok: bool)
      requires Valid() && FromMalloc(nodes, buf, m, 0)
      modifies this
      ensures Valid() && ok == (0 <= idx < KEYS)
      ensures forall j: nat :: j < KEYS ==> Lookup(Form(), j) == if ok && j == idx then v else Lookup(old(Form()), j)
      ensures ok && old(root) == 0 ==> pre == buf + BUFFER && InBuffer(nodes, buf)
    {
      if idx < 0 || idx >= KEYS {
        return false;
      }
      ghost var t0, fits := Form(), root == 0;
      var n := Root(idx, m);
      var i := 0;
      while i < DEPTH
        invariant 0 <= i <= DEPTH && Growing(Form(), buf, pre, idx, i, n, m) && SameMap(t0, Form())
        invariant fits ==> InBuffer(nodes, buf) && (i < DEPTH ==> pre < buf + BUFFER)
      {
        n := Child(idx, i, n, m);
        i := i + 1;
      }
      Store(idx, n, v, m);
      ok := true;
    }
  }

  ghost predicate SameMap(t: Shape, t': Shape) {
    forall j: nat :: Lookup(t', j) == Lookup(t, j)
  }

  /** On the way to a key: the buffer is used up, or just the nodes down to n are in it. */
  ghost predicate Growing(t: Shape, buf: int, pre: int, idx: nat, i: nat, n: int, m: seq<int>)
    requires i <= DEPTH
  {
    && Wf(t) && Spaced(t.nodes, buf, pre) && FromMalloc(t.nodes, buf, m, i + 1)
    && n != 0 && t.root != 0 && n == Walk(t, idx, i)
    && (pre == buf + BUFFER || (pre == buf + NODE_SIZE * (i + 1) && i < DEPTH && n in t.nodes && t.nodes[n] == NewInner()))
  }

  lemma InnerAt(t: Shape, idx: nat, i: nat, n: int)
    requires Wf(t) && idx < KEYS && i < DEPTH && n == Walk(t, idx, i) && n != 0
    ensures n in t.nodes && n in t.pos && t.pos[n].depth == i && t.nodes[n].Inner? && |t.nodes[n].children| == CHILDREN
    ensures Walk(t, idx, i + 1) == t.nodes[n].children[ChildIndex(idx, i)]
  {
    WalkIs(t, idx, i);
    assert NodeOk(t, n);
  }

  lemma InnerOf(t: Shape, buf: int, pre: int, idx: nat, i: nat, n: int, m: seq<int>)
    requires idx < KEYS && i < DEPTH && Growing(t, buf, pre, idx, i, n, m)
    ensures n in t.nodes && n in t.pos && t.pos[n].depth == i && t.nodes[n].Inner? && |t.nodes[n].children| == CHILDREN
    ensures buf <= pre <= buf + BUFFER && |m| == DEPTH + 1
  {
    InnerAt(t, idx, i, n);
  }

  lemma StepGrows(t: Shape, buf: int, pre: int, idx: nat, i: nat, n: int, m: seq<int>)
    requires idx < KEYS && i < DEPTH && Growing(t, buf, pre, idx, i, n, m)
    requires n in t.nodes && t.nodes[n].Inner? && |t.nodes[n].children| == CHILDREN
    requires t.nodes[n].children[ChildIndex(idx, i)] != 0
    ensures Growing(t, buf, pre, idx, i + 1, t.nodes[n].children[ChildIndex(idx, i)], m) && SameMap(t, t)
    ensures pre == buf + BUFFER
  {
    InnerAt(t, idx, i, n);
    assert forall e :: 0 <= e < CHILDREN ==> NewInner().children[e] == 0;
  }

  lemma LeafAt(t: Shape, idx: nat, n: int)
    requires Wf(t) && idx < KEYS && n == Walk(t, idx, DEPTH) && n != 0
    ensures n in t.nodes && t.nodes[n].Leaf? && |t.nodes[n].entries| == ENTRIES
  {
    WalkIs(t, idx, DEPTH);
    assert NodeOk(t, n);
  }

  lemma PlantGrows(t: Shape, buf: int, pre: int, n: int, idx: nat, m: seq<int>)
    requires Wf(t) && t.root == 0 && t.nodes == map[] && Spaced(t.nodes, buf, buf) && FromMalloc(t.nodes, buf, m, 0)
    requires NewSpot(buf, buf, pre, n, SizeAt(0), m[0])
    ensures Growing(Plant(t, n), buf, pre, idx, 0, n, m) && SameMap(t, Plant(t, n))
    ensures InBuffer(Plant(t, n).nodes, buf) && pre < buf + BUFFER
  {
    hide Lookup;
    SpotIsNew(t.nodes, buf, buf, pre, n, m, 0);
    PlantKeeps(t, n);
    AddSpaced(t.nodes, Plant(t, n).nodes, buf, buf, pre, n, m, 0);
  }

  lemma GraftGrows(t: Shape, buf: int, pre0: int, pre: int, idx: nat, i: nat, n: int, c: int, m: seq<int>)
    requires idx < KEYS && i < DEPTH && Growing(t, buf, pre0, idx, i, n, m)
    requires n in t.nodes && n in t.pos && t.pos[n].depth == i && t.nodes[n].Inner? && |t.nodes[n].children| == CHILDREN
    requires t.nodes[n].children[ChildIndex(idx, i)] == 0
    requires NewSpot(buf, pre0, pre, c, SizeAt(i + 1), m[i + 1])
    ensures var t' := Graft(t, n, ChildIndex(idx, i), c);
      && Growing(t', buf, pre, idx, i + 1, c, m) && SameMap(t, t')
      && (InBuffer(t.nodes, buf) && pre0 < buf + BUFFER ==> InBuffer(t'.nodes, buf) && (i + 1 < DEPTH ==> pre < buf + BUFFER))
  {
    hide Lookup, Wf, Walk, Spaced, FromMalloc, SpaceFor;
    var cidx := ChildIndex(idx, i);
    var t' := Graft(t, n, cidx, c);
    SpotIsNew(t.nodes, buf, pre0, pre, c, m, i + 1);
    GraftKeeps(t, n, cidx, c);
    GraftReaches(t, n, c, idx, i);
    forall j: nat ensures Lookup(t', j) == Lookup(t, j) { GraftLookup(t, n, cidx, c, j); }
    AddSpaced(t.nodes, t'.nodes, buf, pre0, pre, c, m, i + 1);
    PreIsIn(t.nodes, buf, pre0);
  }

  lemma PreIsIn(nodes: map<int, Node>, buf: int, pre: int)
    requires Spaced(nodes, buf, pre)
    ensures 0 < buf <= pre <= buf + BUFFER
  {
  }

  predicate InBuffer(nodes: map<int, Node>, buf: int) {
    forall a :: a in nodes ==> buf <= a && a + SizeOf(nodes[a]) <= buf + BUFFER
  }

  predicate NewSpot(buf: int, pre0: int, pre: int, p: int, size: nat, m: int) {
    if pre0 + size <= buf + BUFFER then p == pre0 && pre == pre0 + size else p == m && pre == pre0
  }

  lemma SpotIsNew(nodes: map<int, Node>, buf: int, pre0: int, pre: int, p: int, m: seq<int>, d: nat)
    requires d <= DEPTH && Spaced(nodes, buf, pre0) && FromMalloc(nodes, buf, m, d)
    requires NewSpot(buf, pre0, pre, p, SizeAt(d), m[d])
    ensures p > 0 && p !in nodes && SpaceFor(nodes, p, SizeAt(d))
  {
    if pre0 + SizeAt(d) <= buf + BUFFER {
      assert SpaceFor(nodes, p, SizeAt(d));
    }
    assert p in nodes ==> Apart(p, SizeAt(d), p, SizeOf(nodes[p]));
  }

  /** A node more, and perhaps links to it, keeps all of them apart. */
  lemma AddSpaced(nodes: map<int, Node>, nodes': map<int, Node>, buf: int, pre0: int, pre: int, p: int, m: seq<int>, d: nat)
    requires d <= DEPTH && Spaced(nodes, buf, pre0) && FromMalloc(nodes, buf, m, d)
    requires NewSpot(buf, pre0, pre, p, SizeAt(d), m[d])
    requires SpaceFor(nodes, p, SizeAt(d))
    requires forall a :: a in nodes' <==> a in nodes || a == p
    requires forall a :: a in nodes && a != p ==> SizeOf(nodes'[a]) == SizeOf(nodes[a])
    requires SizeOf(nodes'[p]) == SizeAt(d)
    ensures Spaced(nodes', buf, pre) && FromMalloc(nodes', buf, m, d + 1)
  {
    forall k | d + 1 <= k <= DEPTH ensures SpaceFor(nodes', m[k], SizeAt(k)) {
      assert SpaceFor(nodes, m[k], SizeAt(k));
    }
  }

  lemma {:induction false} Missing(t: Shape, key: nat, d: nat)
    requires Wf(t) && d <= DEPTH && Walk(t, key, d) == 0
    ensures Lookup(t, key) == 0
    decreases DEPTH - d
  {
    if d < DEPTH { Missing(t, key, d + 1); }
  }
}
