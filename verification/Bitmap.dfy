/** The two-level ready index of prio_sched.c: a byte `y` over eight bytes `c`, and the lowest-bit table. */
module Bitmap {
  const SYSTEM_WORD := 32

  /** Row r, column k is the position of the lowest set bit of 16 * r + k. */
  const BITMAP: seq<seq<nat>> := [
    [0, 0, 1, 0, 2, 0, 1, 0, 3, 0, 1, 0, 2, 0, 1, 0],
    [4, 0, 1, 0, 2, 0, 1, 0, 3, 0, 1, 0, 2, 0, 1, 0],
    [5, 0, 1, 0, 2, 0, 1, 0, 3, 0, 1, 0, 2, 0, 1, 0],
    [4, 0, 1, 0, 2, 0, 1, 0, 3, 0, 1, 0, 2, 0, 1, 0],
    [6, 0, 1, 0, 2, 0, 1, 0, 3, 0, 1, 0, 2, 0, 1, 0],
    [4, 0, 1, 0, 2, 0, 1, 0, 3, 0, 1, 0, 2, 0, 1, 0],
    [5, 0, 1, 0, 2, 0, 1, 0, 3, 0, 1, 0, 2, 0, 1, 0],
    [4, 0, 1, 0, 2, 0, 1, 0, 3, 0, 1, 0, 2, 0, 1, 0],
    [7, 0, 1, 0, 2, 0, 1, 0, 3, 0, 1, 0, 2, 0, 1, 0],
    [4, 0, 1, 0, 2, 0, 1, 0, 3, 0, 1, 0, 2, 0, 1, 0],
    [5, 0, 1, 0, 2, 0, 1, 0, 3, 0, 1, 0, 2, 0, 1, 0],
    [4, 0, 1, 0, 2, 0, 1, 0, 3, 0, 1, 0, 2, 0, 1, 0],
    [6, 0, 1, 0, 2, 0, 1, 0, 3, 0, 1, 0, 2, 0, 1, 0],
    [4, 0, 1, 0, 2, 0, 1, 0, 3, 0, 1, 0, 2, 0, 1, 0],
    [5, 0, 1, 0, 2, 0, 1, 0, 3, 0, 1, 0, 2, 0, 1, 0],
    [4, 0, 1, 0, 2, 0, 1, 0, 3, 0, 1, 0, 2, 0, 1, 0]
  ]

  function LowNibble(k: nat): nat {
    if k % 2 == 1 then 0 else if k % 4 == 2 then 1 else if k % 8 == 4 then 2 else 3
  }

  lemma RowMeaning(r: nat, k: nat)
    requires r < 16 && k < 16
    ensures |BITMAP| == 16 && |BITMAP[r]| == 16
    ensures BITMAP[r][k] == if k != 0 then LowNibble(k) else if r != 0 then 4 + LowNibble(r) else 0
  {
  }

  predicate Bit(x: bv8, k: nat)
    requires k < 8
  {
    (x >> k) & 1 == 1
  }

  function SetBit(x: bv8, a: nat): bv8
    requires a < 8
  {
    x | (1 << a)
  }

  function ClearBit(x: bv8, a: nat): bv8
    requires a < 8
  {
    x & !(1 << a)
  }

  lemma SetBitMeaning(x: bv8, a: nat, k: nat)
    requires a < 8 && k < 8
    ensures Bit(SetBit(x, a), k) <==> k == a || Bit(x, k)
  {
  }

  lemma ClearBitMeaning(x: bv8, a: nat, k: nat)
    requires a < 8 && k < 8
    ensures Bit(ClearBit(x, a), k) <==> k != a && Bit(x, k)
  {
  }

  lemma SomeBit(x: bv8)
    ensures x != 0 <==> Bit(x, 0) || Bit(x, 1) || Bit(x, 2) || Bit(x, 3) || Bit(x, 4) || Bit(x, 5) || Bit(x, 6)
                        || Bit(x, 7)
  {
  }

  lemma ZeroHasNoBit(x: bv8)
    ensures x == 0 <==> forall k | 0 <= k < 8 :: !Bit(x, k)
  {
    SomeBit(x);
    if x == 0 {
      forall k | 0 <= k < 8
        ensures !Bit(x, k)
      {
        assert (x >> k) & 1 == 0;
      }
    }
  }

  function Digit(b: bool): nat { if b then 1 else 0 }

  lemma ValueOfBits(x: bv8)
    ensures x as int == Digit(Bit(x, 0)) + 2 * Digit(Bit(x, 1)) + 4 * Digit(Bit(x, 2)) + 8 * Digit(Bit(x, 3))
                        + 16 * Digit(Bit(x, 4)) + 32 * Digit(Bit(x, 5)) + 64 * Digit(Bit(x, 6)) + 128 * Digit(Bit(x, 7))
  {
  }

  /** bitmap[x]: the position of the lowest set bit, and 0 for an empty byte. */
  function Lowest(x: bv8): (r: nat)
    ensures r < 8
  {
    RowMeaning(x as int / 16, x as int % 16);
    BITMAP[x as int / 16][x as int % 16]
  }

  lemma LowNibbleMeaning(b0: bool, b1: bool, b2: bool, b3: bool)
    ensures var n := Digit(b0) + 2 * Digit(b1) + 4 * Digit(b2) + 8 * Digit(b3);
            && (n == 0 <==> !(b0 || b1 || b2 || b3))
            && (n != 0 ==> LowNibble(n) == FirstOf(b0, b1, b2, b3))
  {
  }

  function FirstOf(b0: bool, b1: bool, b2: bool, b3: bool): nat {
    if b0 then 0 else if b1 then 1 else if b2 then 2 else 3
  }

  lemma Split(n: nat, hi: nat, lo: nat)
    requires n == 16 * hi + lo && lo < 16 && hi < 16
    ensures n / 16 == hi && n % 16 == lo
  {
  }

  /** The table entry of a number given by its binary digits. */
  lemma TableEntry(n: nat, b0: bool, b1: bool, b2: bool, b3: bool, b4: bool, b5: bool, b6: bool, b7: bool)
    requires n == Digit(b0) + 2 * Digit(b1) + 4 * Digit(b2) + 8 * Digit(b3)
                  + 16 * Digit(b4) + 32 * Digit(b5) + 64 * Digit(b6) + 128 * Digit(b7)
    ensures n < 256
    ensures BITMAP[n / 16][n % 16] ==
            if b0 || b1 || b2 || b3 then FirstOf(b0, b1, b2, b3)
            else if b4 || b5 || b6 || b7 then 4 + FirstOf(b4, b5, b6, b7)
            else 0
  {
    hide LowNibble, FirstOf;
    var lo := Digit(b0) + 2 * Digit(b1) + 4 * Digit(b2) + 8 * Digit(b3);
    var hi := Digit(b4) + 2 * Digit(b5) + 4 * Digit(b6) + 8 * Digit(b7);
    Split(n, hi, lo);
    LowNibbleMeaning(b0, b1, b2, b3);
    LowNibbleMeaning(b4, b5, b6, b7);
    RowMeaning(hi, lo);
  }

  /** The table is right: it names a set bit, and no lower bit is set. */
  lemma LowestMeaning(x: bv8)
    requires x != 0
    ensures Lowest(x) < 8 && Bit(x, Lowest(x))
    ensures forall j | 0 <= j < Lowest(x) :: !Bit(x, j)
  {
    hide Bit, Digit;
    SomeBit(x);
    ValueOfBits(x);
    TableEntry(x as int, Bit(x, 0), Bit(x, 1), Bit(x, 2), Bit(x, 3), Bit(x, 4), Bit(x, 5), Bit(x, 6), Bit(x, 7));
  }

  /** The index as stored: bit b of y says whether c[b] is non-empty, bit a of c[b] stands for priority 8 * b + a. */
  datatype Index = Index(y: bv8, c: Bytes8)

  type Bytes8 = c: seq<bv8> | |c| == 8 witness [0, 0, 0, 0, 0, 0, 0, 0]

  predicate Valid(x: Index) {
    forall b | 0 <= b < 8 :: Bit(x.y, b) <==> x.c[b] != 0
  }

  const EMPTY := Index(0, [0, 0, 0, 0, 0, 0, 0, 0])

  /** Priority `prio` is marked. */
  predicate Marked(x: Index, prio: nat)
    requires prio < 64
  {
    Bit(x.c[prio / 8], prio % 8)
  }

  /** bitmap_set */
  function Set(x: Index, prio: nat): Index
    requires prio < 64
  {
    Index(SetBit(x.y, prio / 8), x.c[prio / 8 := SetBit(x.c[prio / 8], prio % 8)])
  }

  /** bitmap_clear */
  function Clear(x: Index, prio: nat): Index
    requires prio < 64
  {
    var c := ClearBit(x.c[prio / 8], prio % 8);
    Index(if c == 0 then ClearBit(x.y, prio / 8) else x.y, x.c[prio / 8 := c])
  }

  /** bitmap_get */
  function Get(x: Index): nat
  {
    var b := Lowest(x.y);
    b * 8 + Lowest(x.c[b])
  }

  lemma EmptyMeaning()
    ensures Valid(EMPTY) && forall p: nat | p < 64 :: !Marked(EMPTY, p)
  {
  }

  lemma SetMeaning(x: Index, prio: nat)
    requires Valid(x) && prio < 64
    ensures Valid(Set(x, prio))
    ensures forall p: nat | p < 64 :: Marked(Set(x, prio), p) <==> p == prio || Marked(x, p)
  {
    hide Bit, SetBit, ClearBit;
    var b, a := prio / 8, prio % 8;
    forall k: nat | k < 8
      ensures Bit(SetBit(x.c[b], a), k) <==> k == a || Bit(x.c[b], k)
      ensures Bit(SetBit(x.y, b), k) <==> k == b || Bit(x.y, k)
    {
      SetBitMeaning(x.c[b], a, k);
      SetBitMeaning(x.y, b, k);
    }
    ZeroHasNoBit(SetBit(x.c[b], a));
    assert Bit(SetBit(x.c[b], a), a);
  }

  lemma ClearMeaning(x: Index, prio: nat)
    requires Valid(x) && prio < 64
    ensures Valid(Clear(x, prio))
    ensures forall p: nat | p < 64 :: Marked(Clear(x, prio), p) <==> p != prio && Marked(x, p)
  {
    hide Bit, SetBit, ClearBit;
    var b, a := prio / 8, prio % 8;
    forall k: nat | k < 8
      ensures Bit(ClearBit(x.c[b], a), k) <==> k != a && Bit(x.c[b], k)
      ensures Bit(ClearBit(x.y, b), k) <==> k != b && Bit(x.y, k)
    {
      ClearBitMeaning(x.c[b], a, k);
      ClearBitMeaning(x.y, b, k);
    }
    ZeroHasNoBit(x.c[b]);
    ZeroHasNoBit(ClearBit(x.c[b], a));
  }

  /** The table lookup finds the smallest marked priority whenever any is marked. */
  lemma GetIsMinimum(x: Index, prio: nat)
    requires Valid(x) && prio < 64 && Marked(x, prio)
    ensures Get(x) <= prio && Marked(x, Get(x))
    ensures forall p: nat | p < Get(x) :: !Marked(x, p)
  {
    hide Bit, Lowest;
    ZeroHasNoBit(x.c[prio / 8]);
    ZeroHasNoBit(x.y);
    assert x.y != 0;
    LowestMeaning(x.y);
    var b := Lowest(x.y);
    LowestMeaning(x.c[b]);
    assert Get(x) / 8 == b && Get(x) % 8 == Lowest(x.c[b]);
    forall p: nat | p < Get(x)
      ensures !Marked(x, p)
    {
      if p / 8 < b {
        ZeroHasNoBit(x.c[p / 8]);
      }
    }
  }

  /** The static variables of prio_sched.c. */
  class ReadyIndex {
    var y: bv8
    const c: array<bv8>

    function V(): (x: Index)
      requires c.Length == 8
      reads this, c
    {
      Index(y, c[..])
    }

    constructor ()
      ensures c.Length == 8 && V() == EMPTY && fresh(c)
    {
      y := 0;
      c := new bv8[8](_ => 0);
      new;
      assert c[..] == [0, 0, 0, 0, 0, 0, 0, 0];
    }

    method BitmapSet(prio: nat)
      requires c.Length == 8 && prio < 64
      modifies this, c
      ensures V() == Set(old(V()), prio)
    {
      hide SetBit;
      var a, b := prio % 8, prio / 8;
      c[b] := SetBit(c[b], a);
      y := SetBit(y, b);
    }

    method BitmapClear(prio: nat)
      requires c.Length == 8 && prio < 64
      modifies this, c
      ensures V() == Clear(old(V()), prio)
    {
      hide ClearBit;
      var a, b := prio % 8, prio / 8;
      c[b] := ClearBit(c[b], a);
      if c[b] == 0 {
        y := ClearBit(y, b);
      }
    }

    method BitmapGet() returns (prio: nat)
      requires c.Length == 8
      ensures prio == Get(V())
    {
      hide Lowest;
      var b := Lowest(y);
      var a := Lowest(c[b]);
      prio := b * 8 + a;
    }
  }
}
