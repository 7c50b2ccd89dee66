/** The number printer of libc/printf.c and the number parser of libc/lib.c. */
module Digits {
  import opened Words

  const INT_MAX := 0x7fff_ffff

  function DigitChar(d: nat): (c: char)
    requires d < 36
    ensures DigitValue(c) == d
  {
    if d > 9 then 'a' + (d - 10) as char else '0' + d as char
  }

  function DigitValue(c: char): int {
    if 'a' <= c then c as int - 'a' as int + 10 else c as int - '0' as int
  }

  /** Least significant digit first, as the digit loop produces them. */
  function Reversed(val: nat, radix: nat): (s: string)
    requires 2 <= radix <= 36
    ensures |s| > 0
  {
    [DigitChar(val % radix)] + if val < radix then [] else (Shrinks(val, radix); Reversed(val / radix, radix))
  }

  lemma Shrinks(val: nat, radix: nat)
    requires 2 <= radix <= val
    ensures 0 <= val / radix < val
  {
  }

  /** The value a numeral denotes, least significant digit first. */
  function ReversedValue(s: string, radix: nat): int {
    if s == [] then 0 else DigitValue(s[0]) + radix * ReversedValue(s[1..], radix)
  }

  function Flip(s: string): string {
    seq(|s|, i requires 0 <= i < |s| => s[|s| - 1 - i])
  }

  /** What itoa leaves in the buffer before the terminator. */
  function Numeral(val: nat, radix: nat): string
    requires 2 <= radix <= 36
  {
    Flip(Reversed(val, radix))
  }

  /** The numeral denotes the printed value, its digits are legal in the radix, and it has no leading zero. */
  lemma {:induction false} NumeralDenotes(val: nat, radix: nat)
    requires 2 <= radix <= 36
    ensures ReversedValue(Flip(Numeral(val, radix)), radix) == val
    ensures forall i | 0 <= i < |Numeral(val, radix)| :: exists d: nat ::
        d < radix && Numeral(val, radix)[i] == DigitChar(d)
    ensures |Numeral(val, radix)| > 1 ==> Numeral(val, radix)[0] != '0'
  {
    var s := Reversed(val, radix);
    assert Flip(Flip(s)) == s;
    ReversedDenotes(val, radix);
    forall i | 0 <= i < |s|
      ensures exists d: nat :: d < radix && Flip(s)[i] == DigitChar(d)
    {
      ReversedDigit(val, radix, |s| - 1 - i);
    }
    if |s| > 1 {
      LastNotZero(val, radix);
    }
  }

  lemma Unfold(val: nat, radix: nat)
    requires 2 <= radix <= 36
    ensures Reversed(val, radix) == [DigitChar(val % radix)] + if val < radix then [] else Reversed(val / radix, radix)
  {
  }

  lemma ValueUnfolds(s: string, radix: nat)
    ensures ReversedValue(s, radix) == if s == [] then 0 else DigitValue(s[0]) + radix * ReversedValue(s[1..], radix)
  {
  }

  lemma Quotient(val: nat, radix: nat)
    requires 2 <= radix <= val
    ensures 0 < val / radix < val && val % radix + radix * (val / radix) == val
  {
  }

  lemma {:induction false} ReversedDenotes(val: nat, radix: nat)
    requires 2 <= radix <= 36
    ensures ReversedValue(Reversed(val, radix), radix) == val
    decreases val
  {
    hide Reversed, DigitChar, DigitValue, ReversedValue;
    Unfold(val, radix);
    ValueUnfolds(Reversed(val, radix), radix);
    if val < radix {
      ValueUnfolds([], radix);
    } else {
      Quotient(val, radix);
      ReversedDenotes(val / radix, radix);
      assert Reversed(val, radix)[1..] == Reversed(val / radix, radix);
    }
  }

  lemma {:induction false} ReversedDigit(val: nat, radix: nat, i: nat)
    requires 2 <= radix <= 36 && i < |Reversed(val, radix)|
    ensures exists d: nat :: d < radix && Reversed(val, radix)[i] == DigitChar(d)
    decreases val
  {
    hide Reversed, DigitChar, DigitValue;
    Unfold(val, radix);
    if i == 0 {
      assert val % radix < radix && Reversed(val, radix)[0] == DigitChar(val % radix);
    } else {
      Quotient(val, radix);
      ReversedDigit(val / radix, radix, i - 1);
    }
  }

  lemma {:induction false} LastNotZero(val: nat, radix: nat)
    requires 2 <= radix <= 36 && val > 0
    ensures Reversed(val, radix)[|Reversed(val, radix)| - 1] != '0'
    decreases val
  {
    hide Reversed;
    Unfold(val, radix);
    if val >= radix {
      Quotient(val, radix);
      LastNotZero(val / radix, radix);
    }
  }

  /** The digit loop of itoa; `p` ends one past the last digit written. */
  method EmitDigits(value: nat, buf: array<char>, radix: nat) returns (p: nat)
    requires 2 <= radix <= 36
    requires |Reversed(value, radix)| < buf.Length
    modifies buf
    ensures p == |Reversed(value, radix)| && buf[..p] == Reversed(value, radix) && buf[p..] == old(buf[p..])
  {
    hide Reversed, DigitChar, DigitValue;
    ghost var digits := Reversed(value, radix);
    var val := value;
    p := 0;
    var more := true;
    while more
      invariant 0 <= p <= |digits| && val >= 0
      invariant more ==> digits == buf[..p] + Reversed(val, radix)
      invariant !more ==> digits == buf[..p]
      invariant buf[|digits|..] == old(buf[|digits|..])
      decreases more, val
    {
      Unfold(val, radix);
      ghost var before := buf[..p];
      assert p < |digits|;
      buf[p] := DigitChar(val % radix);
      assert buf[..p + 1] == before + [DigitChar(val % radix)];
      p := p + 1;
      more := val >= radix;
      if more {
        Quotient(val, radix);
      }
      val := val / radix;
    }
  }

  /** itoa: a digit loop, a terminator, and an in-place reversal with two cursors. */
  method Itoa(value: nat, buf: array<char>, radix: nat)
    requires 2 <= radix <= 36
    requires |Numeral(value, radix)| < buf.Length
    modifies buf
    ensures var n := |Numeral(value, radix)|;
            buf[..n] == Numeral(value, radix) && buf[n] == '\0' && buf[n + 1..] == old(buf[n + 1..])
  {
    hide Reversed;
    var n := EmitDigits(value, buf, radix);
    ghost var digits := buf[..n];
    buf[n] := '\0';
    var firstdig, p := 0, n - 1;
    var more := true;
    while more
      invariant 0 <= firstdig <= n && firstdig + p == n - 1
      invariant more ==> firstdig <= p
      invariant !more ==> firstdig >= p
      invariant forall k | 0 <= k < firstdig :: buf[k] == digits[n - 1 - k]
      invariant forall k | p < k < n :: buf[k] == digits[n - 1 - k]
      invariant forall k | firstdig <= k <= p :: buf[k] == digits[k]
      invariant buf[n] == '\0' && buf[n + 1..] == old(buf[n + 1..])
      decreases more, p
    {
      var temp := buf[p];
      buf[p] := buf[firstdig];
      buf[firstdig] := temp;
      p := p - 1;
      firstdig := firstdig + 1;
      more := firstdig < p;
    }
  }

  predicate IsDigit(c: char) { '0' <= c <= '9' }

  /** The parser's meaning with `acc` already read; None is signed overflow of the intermediate i * 10 + c. */
  function Parse(s: string, acc: nat): Option<nat> {
    if s == [] || !IsDigit(s[0]) then Some(acc)
    else if acc * 10 + s[0] as int > INT_MAX then None
    else Parse(s[1..], acc * 10 + s[0] as int - '0' as int)
  }

  /** skip_atoi: accumulates while the pointed-to character is a digit; `at` is where the pointer ends up. */
  method SkipAtoi(s: string) returns (r: Option<nat>, at: nat)
    requires exists j :: 0 <= j < |s| && !IsDigit(s[j])
    ensures r == Parse(s, 0)
    ensures at < |s| && forall k | 0 <= k < at :: IsDigit(s[k])
    ensures r.Some? ==> !IsDigit(s[at])
  {
    var i := 0;
    at := 0;
    ghost var j :| 0 <= j < |s| && !IsDigit(s[j]);
    while IsDigit(s[at])
      invariant at <= j && forall k | 0 <= k < at :: IsDigit(s[k])
      invariant i >= 0 && Parse(s[at..], i) == Parse(s, 0)
      decreases j - at
    {
      if i * 10 + s[at] as int > INT_MAX {
        return None, at;
      }
      i := i * 10 + s[at] as int - '0' as int;
      assert s[at..][1..] == s[at + 1..];
      at := at + 1;
    }
    r := Some(i);
  }

  lemma NumeralSplits(val: nat)
    ensures Numeral(val, 10) == (if val < 10 then [] else Numeral(val / 10, 10)) + ['0' + (val % 10) as char]
  {
    hide Reversed;
    Unfold(val, 10);
  }

  lemma {:induction false} ParseNumeral(val: nat, rest: string)
    ensures Parse(Numeral(val, 10) + rest, 0) == if val + 48 <= INT_MAX then Parse(rest, val) else None
    decreases val
  {
    hide Numeral;
    var d := '0' + (val % 10) as char;
    assert ([d] + rest)[1..] == rest;
    NumeralSplits(val);
    if val < 10 {
      assert Numeral(val, 10) + rest == [d] + rest;
    } else {
      assert Numeral(val, 10) + rest == Numeral(val / 10, 10) + ([d] + rest);
      ParseNumeral(val / 10, [d] + rest);
    }
  }

  /** Parsing what was printed in base 10 gives the value back exactly up to 2^31 - 1 - 48, and overflows beyond. */
  lemma PrintThenParse(val: nat, rest: string)
    requires rest != [] && !IsDigit(rest[0])
    ensures Parse(Numeral(val, 10) + rest, 0) == if val <= 0x7fff_ffff - 48 then Some(val) else None
  {
    ParseNumeral(val, rest);
  }
}
