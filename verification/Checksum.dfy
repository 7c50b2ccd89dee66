/** The Internet checksum loop of uip.c (sections 1 and 2 of RFC 1071). */
module Checksum {
  import opened Words

  /** The exact sum of the big-endian 16-bit words of `data`, an odd last byte padded with zero. */
  function WordSum(data: seq<u8>): nat {
    if |data| == 0 then 0
    else if |data| == 1 then Word(data[0], 0)
    else Word(data[0], data[1]) + WordSum(data[2..])
  }

  /** The one's-complement reduction of an exact sum: 0 stays 0, anything else lands in 1..0xffff. */
  function Fold(n: nat): u16 {
    if n == 0 then 0 else (n - 1) % 0xffff + 1
  }

  /** Every number has exactly one reduction: its residue mod 0xffff, with 0 kept apart from 0xffff. */
  lemma FoldMeaning(n: nat, r: u16)
    ensures r == Fold(n) <==> r % 0xffff == n % 0xffff && (r == 0 <==> n == 0)
  {
    if n != 0 {
      var m := (n - 1) % 0xffff;
      assert n == (n - 1) / 0xffff * 0xffff + m + 1;
      assert n % 0xffff == (m + 1) % 0xffff by {
        ModShift(m + 1, (n - 1) / 0xffff);
      }
    }
  }

  lemma ModShift(a: int, q: int)
    ensures (a + q * 0xffff) % 0xffff == a % 0xffff
  {
  }

  lemma FoldCongruent(a: nat, b: nat)
    requires a % 0xffff == b % 0xffff
    requires a == 0 <==> b == 0
    ensures Fold(a) == Fold(b)
  {
    FoldMeaning(a, Fold(a));
    FoldMeaning(b, Fold(a));
  }

  /** Reducing early changes nothing: a reduced partial sum may stand in for the exact one. */
  lemma FoldAbsorbs(a: nat, b: nat)
    ensures Fold(Fold(a) + b) == Fold(a + b)
  {
    FoldMeaning(a, Fold(a));
    AddCongruent(Fold(a), a, b);
    FoldCongruent(Fold(a) + b, a + b);
  }

  lemma AddCongruent(a: int, b: int, c: int)
    requires a % 0xffff == b % 0xffff
    ensures (a + c) % 0xffff == (b + c) % 0xffff
  {
  }

  /** Summing a concatenation is summing its parts, as long as the first part has even length. */
  lemma {:induction false} WordSumConcat(a: seq<u8>, b: seq<u8>)
    requires |a| % 2 == 0
    ensures WordSum(a + b) == WordSum(a) + WordSum(b)
  {
    if |a| == 0 {
      assert a + b == b;
    } else {
      assert (a + b)[2..] == a[2..] + b;
      WordSumConcat(a[2..], b);
    }
  }

  lemma {:induction false} WordSumZero(data: seq<u8>)
    ensures WordSum(data) == 0 <==> forall i | 0 <= i < |data| :: data[i] == 0
  {
    if |data| >= 2 {
      WordSumZero(data[2..]);
      assert forall i | 2 <= i < |data| :: data[i] == data[2..][i - 2];
    }
  }

  /** Overwriting the aligned word at `k` moves the sum by exactly the difference of the two words. */
  lemma WordSumUpdate(data: seq<u8>, k: nat, hi: u8, lo: u8)
    requires k % 2 == 0 && k + 1 < |data|
    ensures WordSum(data[k := hi][k + 1 := lo]) + Word(data[k], data[k + 1])
            == WordSum(data) + Word(hi, lo)
  {
    var rest := data[k + 2..];
    var before, after := [data[k], data[k + 1]], [hi, lo];
    assert data == data[..k] + (before + rest);
    assert data[k := hi][k + 1 := lo] == data[..k] + (after + rest);
    WordSumConcat(data[..k], before + rest);
    WordSumConcat(data[..k], after + rest);
    assert (before + rest)[2..] == rest && (after + rest)[2..] == rest;
  }

  /** chksum: the loop that adds words into a u16 and re-adds the carry it detects by comparison. */
  method Chksum(seed: u16, data: seq<u8>) returns (sum: u16)
    ensures sum == Fold(seed + WordSum(data))
  {
    sum := seed;
    var dataptr, lastByte := 0, |data| - 1;
    while dataptr < lastByte
      invariant 0 <= dataptr <= |data| && lastByte == |data| - 1
      invariant Fold(sum + WordSum(data[dataptr..])) == Fold(seed + WordSum(data))
    {
      var t := Word(data[dataptr], data[dataptr + 1]);
      assert data[dataptr..][2..] == data[dataptr + 2..];
      EndAroundCarry(sum, t, WordSum(data[dataptr + 2..]));
      sum := Wrap16(sum + t);
      if sum < t {
        sum := Wrap16(sum + 1);
      }
      dataptr := dataptr + 2;
    }
    if dataptr == lastByte {
      var t := Word(data[dataptr], 0);
      EndAroundCarry(sum, t, 0);
      sum := Wrap16(sum + t);
      if sum < t {
        sum := Wrap16(sum + 1);
      }
    }
    FoldMeaning(sum, sum);
  }

  /** One wrapped addition with its carry added back keeps the reduction of every completed sum. */
  lemma EndAroundCarry(sum: u16, t: u16, rest: nat)
    ensures var s := Wrap16(sum + t);
            var carried := if s < t then Wrap16(s + 1) else s;
            Fold(carried + rest) == Fold(sum + (t + rest))
  {
    var s := Wrap16(sum + t);
    var carried := if s < t then Wrap16(s + 1) else s;
    assert carried == sum + t || (carried == sum + t - 0xffff && sum + t > 0xffff);
    if carried != sum + t {
      ModShift(carried + rest, 1);
      FoldCongruent(carried + rest, sum + t + rest);
    }
  }

  /** The result is 0 only when the seed and every byte are 0, and is congruent to the true sum. */
  lemma ChksumMeaning(seed: u16, data: seq<u8>)
    ensures Fold(seed + WordSum(data)) % 0xffff == (seed + WordSum(data)) % 0xffff
    ensures Fold(seed + WordSum(data)) == 0 <==> seed == 0 && forall i | 0 <= i < |data| :: data[i] == 0
  {
    FoldMeaning(seed + WordSum(data), Fold(seed + WordSum(data)));
    WordSumZero(data);
  }

  /** Feeding one result in as the next seed equals one pass over the concatenation. */
  lemma ChksumChains(seed: u16, a: seq<u8>, b: seq<u8>)
    requires |a| % 2 == 0
    ensures Fold(Fold(seed + WordSum(a)) + WordSum(b)) == Fold(seed + WordSum(a + b))
  {
    WordSumConcat(a, b);
    FoldAbsorbs(seed + WordSum(a), WordSum(b));
  }
}
