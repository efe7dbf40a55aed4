/** The allocator of thread-local keys, used by one thread at a time: a free list threaded
    through the entries, where a mark instead of a link says that a key is in use. */
module TlsKeys {
  const KEYS: nat := 1024
  const NIL: int := 1024
  const IN_USE: int := -1
  const FAIL: int := -1

  function Nth(l: seq<int>, j: nat): int {
    if j < |l| then l[j] else NIL
  }

  /** The keys of the free list, first to last. */
  predicate Linked(l: seq<int>, head: int, next: seq<int>) {
    && |next| == KEYS && head == Nth(l, 0)
    && (forall j :: 0 <= j < |l| ==> 0 <= l[j] < KEYS && next[l[j]] == Nth(l, j + 1))
    && (forall i, j :: 0 <= i < j < |l| ==> l[i] != l[j])
    && forall k :: 0 <= k < KEYS ==> (next[k] == IN_USE <==> k !in l)
  }

  lemma HeadOf(l: seq<int>, head: int, next: seq<int>)
    requires Linked(l, head, next)
    ensures head == NIL <==> l == []
    ensures l != [] ==> 0 <= head < KEYS && l == [head] + l[1..] && head !in l[1..]
  {
  }

  lemma UnlinkFirst(l: seq<int>, head: int, next: seq<int>)
    requires Linked(l, head, next) && l != []
    ensures 0 <= head < KEYS && Linked(l[1..], next[head], next[head := IN_USE])
  {
    HeadOf(l, head, next);
    var l', next' := l[1..], next[head := IN_USE];
    forall j | 0 <= j < |l'| ensures 0 <= l'[j] < KEYS && next'[l'[j]] == Nth(l', j + 1) {
      assert l'[j] in l' && l'[j] == l[j + 1] && Nth(l', j + 1) == Nth(l, j + 2);
    }
    assert next[l[0]] == Nth(l, 1) == Nth(l', 0);
    forall k | 0 <= k < KEYS ensures next'[k] == IN_USE <==> k !in l' {
      assert k in l <==> k == head || k in l';
    }
  }

  lemma LinkFirst(l: seq<int>, head: int, next: seq<int>, k: int)
    requires Linked(l, head, next) && 0 <= k < KEYS && next[k] == IN_USE
    ensures Linked([k] + l, k, next[k := head])
  {
    var l', next' := [k] + l, next[k := head];
    forall j | 0 <= j < |l'| ensures 0 <= l'[j] < KEYS && next'[l'[j]] == Nth(l', j + 1) {
      assert Nth(l', j + 1) == Nth(l, j);
      if j > 0 { assert l'[j] == l[j - 1]; }
    }
    forall e | 0 <= e < KEYS ensures next'[e] == IN_USE <==> e !in l' {
      assert e in l' <==> e == k || e in l;
      if e == k && l != [] { assert head == l[0]; }
    }
  }

  class KeyAllocator {
    const next: array<int>
    const destructors: array<int>
    var free: int
    ghost var list: seq<int>

    ghost predicate Valid()
      reads this, next, destructors
    {
      next != destructors && next.Length == destructors.Length == KEYS && Linked(list, free, next[..])
    }

    /** The keys in use. */
    ghost function Used(): set<int>
      reads this
    {
      set k | 0 <= k < KEYS && k !in list
    }

    constructor ()
      ensures Valid() && fresh(next) && fresh(destructors) && Used() == {}
    {
      next := new int[KEYS](_ => IN_USE);
      destructors := new int[KEYS](_ => 0);
      free := 0;
      new;
      var i := 0;
      while i < KEYS - 1
        invariant 0 <= i <= KEYS - 1 && free == 0
        invariant forall k :: 0 <= k < i ==> next[k] == k + 1
      {
        next[i] := i + 1;
        i := i + 1;
      }
      next[KEYS - 1] := NIL;
      list := seq(KEYS, k => k);
      forall k | 0 <= k < KEYS ensures k in list { assert list[k] == k; }
    }

    /** A key that was not in use, or FAIL when all of them are. */
    method Alloc(destructor: int) returns (key: int)
      requires Valid()
      modifies this, next, destructors
      ensures Valid()
      ensures if forall k :: 0 <= k < KEYS ==> k in old(Used())
              then key == FAIL && Used() == old(Used()) && destructors[..] == old(destructors[..])
              else 0 <= key < KEYS && key !in old(Used()) && Used() == old(Used()) + {key}
                   && destructors[..] == old(destructors[..])[key := destructor]
    {
      hide Linked;
      HeadOf(list, free, next[..]);
      assert list != [] ==> free in list && free !in Used();
      if free != NIL {
        key := free;
        UnlinkFirst(list, free, next[..]);
        ghost var was, links := list, next[..];
        list := list[1..];
        assert forall k :: k in was <==> k == key || k in list;
        free := next[key];
        next[key] := IN_USE;
        assert next[..] == links[key := IN_USE];
        destructors[key] := destructor;
      } else {
        key := FAIL;
      }
    }

    /** The destructor of a key in use, which is then free; FAIL for any other key. */
    method Dealloc(key: int) returns (ok: bool, f: int)
      requires Valid()
      modifies this, next
      ensures Valid() && ok == (key in old(Used()))
      ensures Used() == old(Used()) - {key}
      ensures f == if ok then destructors[key] else FAIL
    {
      if key < 0 || key >= KEYS {
        return false, FAIL;
      }
      if next[key] != IN_USE {
        return false, FAIL;
      }
      f := destructors[key];
      LinkFirst(list, free, next[..], key);
      ghost var was := list;
      next[key] := free;
      free := key;
      list := [key] + list;
      assert forall k :: k in list <==> k == key || k in was;
      ok := true;
    }
  }
}
