/** The size classes of the internal allocator: blocks of 2^i bytes, and the macros that take a
    size to its class through a 32-bit count of leading zeros. */
module SizeClass {
  import opened Arithmetic

  const CLASSES: nat := 31
  const PAGE: nat := 4096
  const LARGEST: nat := 0x4000_0000

  /** 32 minus the leading zeros of a 32-bit word. */
  function BitLength(x: nat): nat {
    if x == 0 then 0 else 1 + BitLength(x / 2)
  }

  /** The argument of the count is cut to 32 bits. */
  function SizeToIndex(size: nat): nat
    requires size > 0
  {
    BitLength((size - 1) % 0x1_0000_0000)
  }

  function AtLeast8(size: nat): nat {
    if size < 8 then 8 else size
  }

  lemma {:induction false} BitLengthIs(x: nat, b: nat)
    ensures BitLength(x) <= b <==> x < Pow2(b)
    decreases b
  {
    if b > 0 { BitLengthIs(x / 2, b - 1); }
  }

  lemma Pow2Values()
    ensures Pow2(3) == 8 && Pow2(11) == 2048 && Pow2(12) == PAGE && Pow2(30) == LARGEST
  {
    assert Pow2(6) == 64;
    assert Pow2(12) == 4096 by { assert Pow2(9) == 512; }
    assert Pow2(18) == 0x4_0000 by { assert Pow2(15) == 0x8000; }
    assert Pow2(24) == 0x100_0000 by { assert Pow2(21) == 0x20_0000; }
    assert Pow2(27) == 0x800_0000;
  }

  /** From 8 bytes to 1 GiB the class is the least that holds the request, and wastes less
      than half of its block. */
  lemma ClassFits(size: nat)
    requires 8 <= size <= LARGEST
    ensures var i := SizeToIndex(size);
      && 3 <= i < CLASSES
      && size <= Pow2(i) < 2 * size
      && forall c: nat :: size <= Pow2(c) ==> i <= c
  {
    hide Pow2, BitLength;
    var i := BitLength(size - 1);
    assert i == SizeToIndex(size);
    Pow2Values();
    BitLengthIs(size - 1, i);
    BitLengthIs(size - 1, 30);
    BitLengthIs(size - 1, 2);
    TwoIs();
    HalfFits(size, i);
    forall c: nat | size <= Pow2(c) ensures i <= c {
      BitLengthIs(size - 1, c);
    }
  }

  lemma TwoIs()
    ensures Pow2(2) == 4
  {
  }

  lemma HalfFits(size: nat, i: nat)
    requires i > 0 && size > 0 && i == BitLength(size - 1)
    ensures Pow2(i) < 2 * size
  {
    hide BitLength;
    BitLengthIs(size - 1, i - 1);
  }

  /** No larger request can be served: either it has no free list, or, cut to 32 bits, a class
      with blocks too small for it. */
  lemma ServedIff(size: nat)
    ensures var s := AtLeast8(size);
      SizeToIndex(s) < CLASSES && s <= Pow2(SizeToIndex(s)) <==> size <= LARGEST
  {
    var s := AtLeast8(size);
    Pow2Values();
    if s <= LARGEST {
      ClassFits(s);
    } else if SizeToIndex(s) <= 30 {
      Pow2Grows(SizeToIndex(s), 30);
    }
  }

  /** A class below a page divides the page. */
  lemma {:induction false} Divides(i: nat, b: nat)
    requires i <= b
    ensures Pow2(b) % Pow2(i) == 0
    decreases b
  {
    if i < b {
      Divides(i, b - 1);
      DivMod(Pow2(b), Pow2(i), 2 * (Pow2(b - 1) / Pow2(i)), 0);
    } else {
      DivMod(Pow2(b), Pow2(i), 1, 0);
    }
  }
}
