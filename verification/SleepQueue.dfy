/** The locked sleep queue: a list linked through the sleepers' own `next` fields, and the
    collecting of n sleepers, which links them anew into the waker's private list. */
module SleepQueue {
  class Item {
    var next: Item?
    constructor ()
      ensures next == null
    {
      next := null;
    }
  }

  ghost function Nth(l: seq<Item>, j: nat): Item? {
    if j < |l| then l[j] else null
  }

  ghost predicate NoDup(l: seq<Item>) {
    forall i, j :: 0 <= i < j < |l| ==> l[i] != l[j]
  }

  /** The items are linked in this order, from head to null. */
  ghost predicate Chain(l: seq<Item>, head: Item?)
    reads l
  {
    head == Nth(l, 0) && NoDup(l) && forall i :: 0 <= i < |l| ==> l[i].next == Nth(l, i + 1)
  }

  lemma ChainRest(l: seq<Item>, head: Item?)
    requires Chain(l, head) && l != []
    ensures Chain(l[1..], l[0].next)
  {
    var r := l[1..];
    assert Nth(r, 0) == Nth(l, 1);
    forall i | 0 <= i < |r| ensures r[i].next == Nth(r, i + 1) {
      assert r[i] == l[i + 1] && Nth(r, i + 1) == Nth(l, i + 2);
    }
  }

  /** An item more at the end of a list. */
  method Append(ghost l: seq<Item>, head: Item?, tail: Item?, t: Item) returns (head': Item?)
    requires Chain(l, head) && tail == Last(l) && t !in l
    modifies t, tail
    ensures Chain(l + [t], head')
  {
    t.next := null;
    head' := head;
    if tail != null {
      tail.next := t;
    } else {
      head' := t;
    }
    ghost var r := l + [t];
    forall i | 0 <= i < |r| ensures r[i].next == Nth(r, i + 1) {
      if i + 1 < |l| { assert l[i].next == Nth(l, i + 1) && l[i] != Last(l); }
    }
  }

  ghost function Last(l: seq<Item>): Item? {
    if l == [] then null else l[|l| - 1]
  }

  class Queue {
    var head: Item?
    var tail: Item?
    ghost var items: seq<Item>

    ghost predicate Valid()
      reads this, items
    {
      Chain(items, head) && tail == Last(items)
    }

    constructor ()
      ensures Valid() && items == []
    {
      head := null;
      tail := null;
      items := [];
    }

    /** At the end of the queue; the caller is in no list. */
    method Enq(t: Item)
      requires Valid() && t !in items
      modifies this, t, tail
      ensures Valid() && items == old(items) + [t]
    {
      head := Append(items, head, tail, t);
      tail := t;
      items := items + [t];
    }

    /** The longest sleeper, or null. */
    method Deq() returns (t: Item?)
      requires Valid()
      modifies this
      ensures Valid()
      ensures if old(items) == [] then t == null && items == [] else t == old(items)[0] && items == old(items)[1..]
    {
      t := head;
      if t != null {
        assert items == [t] + items[1..];
        ChainRest(items, head);
        head := t.next;
        if t.next == null {
          tail := null;
        }
        items := items[1..];
      }
    }

    /** Sleepers that enter the queue on other workers, in this order. */
    method Arrive(l: seq<Item>)
      requires Valid() && NoDup(items + l)
      modifies this, items, l
      ensures Valid() && items == old(items) + l
    {
      hide Chain, NoDup;
      ghost var was := items;
      var i := 0;
      while i < |l|
        invariant 0 <= i <= |l| && Valid() && items == was + l[..i] && tail == Last(items)
      {
        NotYetIn(was, l, i);
        LastIn(items);
        Enq(l[i]);
        assert l[..i + 1] == l[..i] + [l[i]];
        i := i + 1;
      }
      assert l[..i] == l;
    }

    /** One poll of the queue, after others have entered it. */
    method Poll(l: seq<Item>) returns (t: Item?)
      requires Valid() && NoDup(items + l)
      modifies this, items, l
      ensures Valid() && (if t == null then [] else [t]) + items == old(items) + l
      ensures t == null ==> items == []
    {
      hide Chain, NoDup;
      Arrive(l);
      t := Deq();
    }

    /** The spin: dequeue again until there is a sleeper.  Poll after poll as many more of `late`
        as `arrive` says enter the queue before it, in the end all of them; p have before. */
    method Await(late: seq<Item>, p: nat, arrive: seq<nat>, k: nat) returns (t: Item, p': nat, k': nat)
      requires Valid() && p <= |late| && NoDup(items + late[p..]) && items + late[p..] != []
      modifies this, items, late[p..]
      ensures Valid() && p <= p' <= |late| && [t] + items == old(items) + late[p..p']
    {
      hide Chain, NoDup, Valid;
      ghost var was := items;
      p', k' := p, k;
      var got: Item? := null;
      while got == null
        invariant Valid() && p <= p' <= |late|
        invariant if got == null then items == was && p' == p else [got] + items == was + late[p..p']
        decreases got == null, |arrive| - k'
      {
        var q := if k' < |arrive| && p + arrive[k'] <= |late| then p + arrive[k'] else |late|;
        assert was + late[p..q] + late[q..] == was + late[p..];
        Front(was + late[p..q], late[q..]);
        got := Poll(late[p..q]);
        p', k' := q, k' + 1;
      }
      t := got;
    }

    /** One sleeper more for the private list. */
    method CollectOne(ghost taken: seq<Item>, first: Item?, last: Item?, late: seq<Item>, p: nat, arrive: seq<nat>, k: nat)
      returns (first': Item?, t: Item, p': nat, k': nat)
      requires Valid() && p <= |late| && NoDup(taken + (items + late[p..])) && items + late[p..] != []
      requires Chain(taken, first) && last == Last(taken)
      modifies this, items, late[p..], last
      ensures Valid() && p <= p' <= |late| && [t] + items == old(items) + late[p..p']
      ensures Chain(taken + [t], first')
    {
      hide NoDup, Chain, Valid;
      ghost var was := items;
      Separate(taken, items, late[p..]);
      t, p', k' := Await(late, p, arrive, k);
      Remain(t, items, taken, was, late, p, p');
      first' := Append(taken, first, last, t);
    }

    /** The collecting: n sleepers are taken out, whether they are in the queue yet or not, and
        linked into a list of their own. */
    method Collect(n: nat, late: seq<Item>, arrive: seq<nat>) returns (first: Item?, ghost taken: seq<Item>, p: nat)
      requires Valid() && NoDup(items + late) && n <= |items + late|
      modifies this, items, late
      ensures Valid() && p <= |late| && taken + items == old(items) + late[..p] && |taken| == n
      ensures Chain(taken, first)
    {
      hide Chain, NoDup, Valid;
      ghost var was := items;
      var last: Item? := null;
      NothingYet();
      first, taken, p := null, [], 0;
      var i, k := 0, 0;
      while i < n
        invariant 0 <= i == |taken| <= n && p <= |late| && taken + items == was + late[..p]
        invariant Valid() && Chain(taken, first) && last == Last(taken)
      {
        Ahead(was, late, p, taken, items);
        ghost var before := items;
        var t, q;
        first, t, q, k := CollectOne(taken, first, last, late, p, arrive, k);
        assert taken + [t] + items == taken + ([t] + items) == taken + before + late[p..q];
        assert was + late[..q] == was + late[..p] + late[p..q];
        taken, last, p, i := taken + [t], t, q, i + 1;
      }
    }
  }

  /** Of three lists without repetition, the first shares nothing with the others. */
  lemma Separate(a: seq<Item>, b: seq<Item>, c: seq<Item>)
    requires NoDup(a + (b + c))
    ensures NoDup(b + c) && forall i :: 0 <= i < |a| ==> a[i] !in b && a[i] !in c
  {
    var all := a + (b + c);
    forall i | 0 <= i < |a| ensures a[i] !in b && a[i] !in c {
      assert all[i] == a[i];
      forall j | 0 <= j < |b| ensures b[j] != a[i] { assert all[|a| + j] == b[j]; }
      forall j | 0 <= j < |c| ensures c[j] != a[i] { assert all[|a| + |b| + j] == c[j]; }
    }
    forall i, j | 0 <= i < j < |b + c| ensures (b + c)[i] != (b + c)[j] {
      assert all[|a| + i] == (b + c)[i] && all[|a| + j] == (b + c)[j];
    }
  }

  /** The one taken is none of the rest of the queue, nor is the one taken before. */
  lemma Remain(t: Item, items: seq<Item>, taken: seq<Item>, was: seq<Item>, late: seq<Item>, p: nat, q: nat)
    requires p <= q <= |late| && [t] + items == was + late[p..q] && NoDup(taken + (was + late[p..]))
    ensures t !in taken && (t in was || t in late[p..])
    ensures forall i :: 0 <= i < |items| ==> items[i] != t && items[i] != Last(taken)
  {
    var all := taken + (was + late[p..]);
    assert was + late[p..] == [t] + items + late[q..];
    assert all == taken + [t] + items + late[q..];
    assert all[|taken|] == t && (was + late[p..])[0] == t;
    forall i | 0 <= i < |taken| ensures taken[i] != t { assert all[i] == taken[i]; }
    forall i | 0 <= i < |items| ensures items[i] != t && items[i] != Last(taken) {
      assert all[|taken| + 1 + i] == items[i];
      if taken != [] { assert all[|taken| - 1] == Last(taken); }
    }
  }

  /** What has been taken, what is queued and what is still to arrive have nothing in common. */
  lemma Ahead(was: seq<Item>, late: seq<Item>, p: nat, taken: seq<Item>, items: seq<Item>)
    requires p <= |late| && taken + items == was + late[..p] && NoDup(was + late)
    ensures NoDup(taken + (items + late[p..])) && |taken| + |items + late[p..]| == |was + late|
    ensures forall i :: 0 <= i < |items| ==> items[i] in was || items[i] in late
    ensures Last(taken) != null ==> Last(taken) in was || Last(taken) in late
  {
    assert taken + (items + late[p..]) == taken + items + late[p..] == was + late;
    var all := was + late;
    forall i | 0 <= i < |items| ensures items[i] in was || items[i] in late {
      assert all[|taken| + i] == items[i];
    }
    if taken != [] { assert all[|taken| - 1] == Last(taken); }
  }

  lemma Front(a: seq<Item>, b: seq<Item>)
    requires NoDup(a + b)
    ensures NoDup(a)
  {
    forall i, j | 0 <= i < j < |a| ensures a[i] != a[j] { assert (a + b)[i] == a[i] && (a + b)[j] == a[j]; }
  }

  lemma NotYetIn(was: seq<Item>, l: seq<Item>, i: nat)
    requires NoDup(was + l) && i < |l|
    ensures l[i] !in was + l[..i]
  {
    var all := was + l;
    forall j | 0 <= j < |was| + i ensures (was + l[..i])[j] != l[i] {
      assert (was + l[..i])[j] == all[j] && all[|was| + i] == l[i];
    }
  }

  lemma LastIn(l: seq<Item>)
    ensures Last(l) != null ==> Last(l) in l
  {
  }

  lemma NothingYet()
    ensures Chain([], null)
  {
  }

  /** The waking: the private list is walked and each thread pushed, its link read before. */
  method PushAll(first: Item?, n: nat, ghost taken: seq<Item>) returns (pushed: seq<Item>)
    requires Chain(taken, first) && n == |taken|
    ensures pushed == taken
  {
    pushed := [];
    var t := first;
    var i := 0;
    while i < n
      invariant 0 <= i <= n && pushed == taken[..i] && t == Nth(taken, i)
    {
      var next := t.next;
      assert next == Nth(taken, i + 1);
      pushed := pushed + [t];
      t := next;
      i := i + 1;
    }
  }
}
