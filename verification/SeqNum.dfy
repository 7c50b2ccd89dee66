/** TCP sequence numbers as uip.c keeps them: four bytes, most significant first (section 3.3 of RFC 793). */
module SeqNum {
  import opened Words

  datatype Bytes4 = Bytes4(b0: u8, b1: u8, b2: u8, b3: u8)

  const MODULUS := 0x1_0000_0000

  function Val(b: Bytes4): u32 {
    ((b.b0 as int * 0x100 + b.b1) * 0x100 + b.b2) * 0x100 + b.b3
  }

  function ToBytes(n: u32): Bytes4 {
    Bytes4(n / 0x100 / 0x100 / 0x100, n / 0x100 / 0x100 % 0x100, n / 0x100 % 0x100, n % 0x100)
  }

  lemma ToBytesInverse(n: u32)
    ensures Val(ToBytes(n)) == n
  {
  }

  lemma LastDigit(n: int, front: int, last: u8)
    requires n == front * 0x100 + last
    ensures n / 0x100 == front && n % 0x100 == last
  {
  }

  lemma ValUnfolds(b: Bytes4)
    ensures Val(b) == ((b.b0 as int * 0x100 + b.b1) * 0x100 + b.b2) * 0x100 + b.b3
  {
  }

  lemma ValInverse(b: Bytes4)
    ensures ToBytes(Val(b)) == b
  {
    hide Val;
    var top2 := b.b0 as int * 0x100 + b.b1;
    var top3 := top2 * 0x100 + b.b2;
    assert Val(b) == top3 * 0x100 + b.b3 by { ValUnfolds(b); }
    LastDigit(Val(b), top3, b.b3);
    LastDigit(top3, top2, b.b2);
    LastDigit(top2, b.b0, b.b1);
  }

  lemma Reduced(n: nat, r: u32)
    requires n == r || n == r + MODULUS
    ensures n % MODULUS == r
  {
  }

  /** The number `n` beyond `b`, modulo 2^32. */
  function Plus(b: Bytes4, n: nat): Bytes4 { ToBytes((Val(b) + n) % MODULUS) }

  /** The carry test of the byte-wise addition: the wrapped sum is below an addend exactly when it wrapped. */
  lemma CarryDetected(x: u8, y: u8)
    ensures Wrap8(x as int + y) == x as int + y - if Wrap8(x as int + y) < y then 0x100 else 0
  {
  }

  lemma IncrementWraps(x: u8)
    ensures Wrap8(x as int + 1) == x as int + 1 - if Wrap8(x as int + 1) == 0 then 0x100 else 0
  {
  }

  /** Any four bytes whose value is off by at most one modulus are the bytes of the sum. */
  lemma ReducedBytes(b: Bytes4, n: nat, r: Bytes4)
    requires Val(r) == Val(b) + n || Val(r) == Val(b) + n - MODULUS
    ensures r == Plus(b, n)
  {
    Reduced(Val(b) + n, Val(r));
    ValInverse(r);
  }

  /** uip_add32: byte-wise addition with the carries found by comparison and rippled by hand. */
  method Add32(op32: Bytes4, op16: u16) returns (acc: Bytes4)
    ensures acc == Plus(op32, op16)
  {
    hide ToBytes, Wrap8, Plus;
    var low: u8, high: u8 := op16 % 0x100, op16 / 0x100;
    CarryDetected(op32.b3, low);
    CarryDetected(op32.b2, high);
    acc := Bytes4(op32.b0, op32.b1, Wrap8(op32.b2 as int + high), Wrap8(op32.b3 as int + low));
    if acc.b2 < high {
      IncrementWraps(acc.b1);
      acc := acc.(b1 := Wrap8(acc.b1 as int + 1));
      if acc.b1 == 0 {
        IncrementWraps(acc.b0);
        acc := acc.(b0 := Wrap8(acc.b0 as int + 1));
      }
    }
    ghost var carried := Bytes4(acc.b0, acc.b1, acc.b2, op32.b3);
    assert Val(carried) == Val(op32) + high * 0x100 || Val(carried) == Val(op32) + high * 0x100 - MODULUS;
    if acc.b3 < low {
      IncrementWraps(acc.b2);
      acc := acc.(b2 := Wrap8(acc.b2 as int + 1));
      if acc.b2 == 0 {
        IncrementWraps(acc.b1);
        acc := acc.(b1 := Wrap8(acc.b1 as int + 1));
        if acc.b1 == 0 {
          IncrementWraps(acc.b0);
          acc := acc.(b0 := Wrap8(acc.b0 as int + 1));
        }
      }
    }
    assert Val(acc) == Val(carried) + low || Val(acc) == Val(carried) + low - MODULUS;
    ReducedBytes(op32, op16, acc);
  }

  /** The four-byte increment the timer applies to iss and the reset path applies to an acknowledgment number. */
  method Increment(b: Bytes4) returns (r: Bytes4)
    ensures r == Plus(b, 1)
  {
    hide ToBytes, Wrap8, Plus;
    IncrementWraps(b.b3);
    r := b.(b3 := Wrap8(b.b3 as int + 1));
    if r.b3 == 0 {
      IncrementWraps(r.b2);
      r := r.(b2 := Wrap8(r.b2 as int + 1));
      if r.b2 == 0 {
        IncrementWraps(r.b1);
        r := r.(b1 := Wrap8(r.b1 as int + 1));
        if r.b1 == 0 {
          IncrementWraps(r.b0);
          r := r.(b0 := Wrap8(r.b0 as int + 1));
        }
      }
    }
    ReducedBytes(b, 1, r);
  }

  /** The sequence number of stream position `pos` counted from `base`. */
  function At(base: u32, pos: nat): Bytes4 { ToBytes((base + pos) % MODULUS) }

  lemma ModAdd(x: nat, n: nat)
    ensures (x % MODULUS + n) % MODULUS == (x + n) % MODULUS
  {
  }

  lemma AtPlus(base: u32, pos: nat, n: nat)
    ensures Plus(At(base, pos), n) == At(base, pos + n)
  {
    hide Val, ToBytes;
    ToBytesInverse((base + pos) % MODULUS);
    ModAdd(base + pos, n);
  }

  /** Positions less than 2^32 apart are told apart by their sequence numbers, and only those. */
  lemma AtInjective(base: u32, p: nat, q: nat)
    requires p < q + MODULUS && q < p + MODULUS
    ensures At(base, p) == At(base, q) <==> p == q
  {
    hide Val, ToBytes;
    ToBytesInverse((base + p) % MODULUS);
    ToBytesInverse((base + q) % MODULUS);
  }
}
