/** The run queue as one worker uses it when nobody interferes: an array with two ends, and the
    compaction at either of them.  What the operations do to the queued sequence is said with
    the operations of the double-ended queue that the concurrent machine refines. */
module RunQueue {
  import opened Base
  import opened RunQueueTsoInv

  type Thread = nat
  const NULL: Thread := 0

  class Queue {
    var top: int
    var base: int
    const ptr: array<Thread>
    var hint: Thread          // the thread pointer of the hint cache

    ghost predicate Valid()
      reads this
    {
      0 <= base <= top <= ptr.Length && ptr.Length > 0
    }

    ghost function Contents(): (q: seq<Thread>)
      reads this, ptr
      requires Valid()
    {
      ptr[base..top]
    }

    /** A hint names the thread at the base. */
    ghost predicate HintOk()
      reads this, ptr
      requires Valid()
    {
      hint != NULL ==> Contents() != [] && hint == Contents()[0]
    }

    constructor (size: nat)
      requires size > 0
      ensures Valid() && fresh(ptr) && ptr.Length == size && Contents() == [] && base == size / 2 && HintOk()
    {
      ptr := new Thread[size](_ => NULL);
      base := size / 2;
      top := size / 2;
      hint := NULL;
    }

    /** The contents must be gone. */
    method Clear()
      requires Valid() && Contents() == []
      modifies this
      ensures Valid() && Contents() == [] && top == base == ptr.Length / 2 && hint == old(hint)
    {
      base := ptr.Length / 2;
      top := base;
    }

    /** memmove of the contents by `offset`, and the new ends. */
    method Shift(offset: int)
      requires Valid() && 0 <= base + offset && top + offset <= ptr.Length
      modifies this, ptr
      ensures Valid() && Contents() == old(Contents())
      ensures base == old(base) + offset && top == old(top) + offset && hint == old(hint)
    {
      ghost var was := Contents();
      var lo := base + offset;
      forall i | 0 <= i < top - base {
        ptr[lo + i] := ptr[base + i];
      }
      assert ptr[lo..lo + (top - base)] == was;
      base := lo;
      top := top + offset;
    }

    /** False is the abort for an overflow. */
    method Push(th: Thread) returns (ok: bool)
      requires Valid()
      modifies this, ptr
      ensures Valid() && ok == (|old(Contents())| < ptr.Length)
      ensures Apply(old(Contents()), if ok then AddTop(th) else Nop) == Some(Contents())
      ensures hint == old(hint) && (old(HintOk()) ==> HintOk())
    {
      if top == ptr.Length {
        if base == 0 {
          return false;
        }
        // the division of the source truncates toward zero
        var offset := -((base + 1) / 2);
        Shift(offset);
      }
      ghost var was := Contents();
      ptr[top] := th;
      top := top + 1;
      assert Contents() == was + [th];
      ok := true;
    }

    method Pop() returns (th: Thread)
      requires Valid()
      modifies this, ptr
      ensures Valid()
      ensures if old(Contents()) == [] then th == NULL && Contents() == []
              else Apply(old(Contents()), RemTop(th)) == Some(Contents())
      ensures old(HintOk()) ==> HintOk()
    {
      if top <= base {
        return NULL;
      }
      ghost var was := Contents();
      top := top - 1;
      th := ptr[top];
      assert th == was[|was| - 1] && ptr[base..top] == was[..|was| - 1];
      if base + 1 < top {
        return;
      } else if base <= top {
        ptr[top] := NULL;
        assert ptr[base..top] == was[..|was| - 1];
        if top <= base {
          hint := NULL;
        }
      } else {
        assert false;
      }
    }

    method Take() returns (th: Thread)
      requires Valid()
      modifies this
      ensures Valid() && hint == old(hint)
      ensures if old(Contents()) == [] then th == NULL && Contents() == []
              else Apply(old(Contents()), RemBase(th)) == Some(Contents())
    {
      if top - base <= 0 {
        return NULL;
      }
      var b := base;
      base := b + 1;
      if b < top {
        th := ptr[b];
      } else {
        assert false;
      }
    }

    /** It makes no room: at the very bottom of the array it refuses. */
    method TryPass(th: Thread) returns (ok: bool)
      requires Valid()
      modifies this, ptr
      ensures Valid() && ok == (old(base) != 0) && hint == old(hint)
      ensures Apply(old(Contents()), if ok then AddBase(th) else Nop) == Some(Contents())
    {
      ghost var was := Contents();
      if base == 0 {
        ok := false;
      } else {
        ptr[base - 1] := th;
        base := base - 1;
        ok := true;
        assert Contents() == [th] + was;
      }
    }

    /** False is the abort for an overflow. */
    method Put(th: Thread) returns (ok: bool)
      requires Valid()
      modifies this, ptr
      ensures Valid() && ok == (|old(Contents())| < ptr.Length) && hint == old(hint)
      ensures Apply(old(Contents()), if ok then AddBase(th) else Nop) == Some(Contents())
    {
      if base == 0 {
        if top == ptr.Length {
          return false;
        }
        var offset := (ptr.Length - top + 1) / 2;
        Shift(offset);
      }
      ghost var was := Contents();
      var b := base - 1;
      ptr[b] := th;
      base := b;
      assert Contents() == [th] + was;
      ok := true;
    }

    /** The take of the work-stealing interface; `accepts` is the answer of its decision
        function.  A thread that leaves takes the hint with it. */
    method HintedTake(accepts: bool) returns (th: Thread)
      requires Valid() && HintOk()
      modifies this
      ensures Valid() && HintOk()
      ensures if old(Contents()) == [] || !accepts then th == NULL && Contents() == old(Contents())
              else Apply(old(Contents()), RemBase(th)) == Some(Contents())
    {
      if top - base <= 0 {
        return NULL;
      }
      var b := base;
      base := b + 1;
      if b < top {
        th := ptr[b];
        if accepts {
          hint := NULL;
          return;
        }
      } else {
        assert false;
      }
      base := b;
      th := NULL;
    }

    /** The peek fills the hint cache if it is empty, and answers from it. */
    method HintedPeek() returns (th: Thread)
      requires Valid() && HintOk()
      modifies this
      ensures Valid() && HintOk() && Contents() == old(Contents())
      ensures th == if Contents() == [] then NULL else Contents()[0]
      ensures hint == if Contents() == [] then old(hint) else Contents()[0]
    {
      if top - base <= 0 {
        return NULL;
      }
      if hint == NULL {
        var b := base;
        base := b + 1;
        if b < top {
          hint := ptr[b];
        }
        base := b;
      }
      th := hint;
    }
  }
}
