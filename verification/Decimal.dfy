/** Decimal text of natural numbers: what `toString`, `padStart`, `BigInt(...)` and `Number(...)`
    do on strings of digits. Money, merchant references and PDF offsets are all printed with it. */
module Decimal {

  predicate IsDigit(c: char) {
    '0' <= c <= '9'
  }

  predicate AllDigits(s: string) {
    forall i :: 0 <= i < |s| ==> IsDigit(s[i])
  }

  function Digit(d: nat): (c: char)
    requires d < 10
    ensures IsDigit(c) && DigitValue(c) == d
  {
    ('0' as int + d) as char
  }

  function DigitValue(c: char): (d: nat)
    requires IsDigit(c)
    ensures d < 10
  {
    c as int - '0' as int
  }

  function Print(n: nat): (s: string)
    ensures s != [] && AllDigits(s)
  {
    if n < 10 then [Digit(n)] else Print(n / 10) + [Digit(n % 10)]
  }

  /** The number a string of digits denotes; the empty string denotes zero. */
  function Value(s: string): nat
    requires AllDigits(s)
  {
    if s == [] then 0 else 10 * Value(s[..|s| - 1]) + DigitValue(s[|s| - 1])
  }

  function Pow10(k: nat): (p: nat)
    ensures p > 0
  {
    if k == 0 then 1 else 10 * Pow10(k - 1)
  }

  function Zeros(k: nat): (s: string)
    ensures |s| == k && AllDigits(s)
  {
    seq(k, _ => '0')
  }

  /** `s.padStart(width, '0')` */
  function PadStart(s: string, width: nat): (r: string)
    ensures |r| == if |s| < width then width else |s|
    ensures AllDigits(s) ==> AllDigits(r)
  {
    if |s| < width then Zeros(width - |s|) + s else s
  }

  /** `(s + '0'.repeat(width)).slice(0, width)` */
  function PadEnd(s: string, width: nat): (r: string)
    ensures |r| == width
    ensures AllDigits(s) ==> AllDigits(r)
  {
    (s + Zeros(width))[..width]
  }

  /** Reading back what was printed gives the number. */
  lemma {:induction false} ValueOfPrint(n: nat)
    ensures Value(Print(n)) == n
  {
    if n >= 10 {
      ValueOfPrint(n / 10);
      assert Print(n)[..|Print(n)| - 1] == Print(n / 10);
    }
  }

  lemma PrintInjective(m: nat, n: nat)
    requires Print(m) == Print(n)
    ensures m == n
  {
    ValueOfPrint(m);
    ValueOfPrint(n);
  }

  lemma ShiftByTen(v: nat, p: nat)
    ensures v * (10 * p) == 10 * (v * p)
  {
  }

  /** Appending digits shifts the value by their width. */
  lemma {:induction false} ValueOfConcat(s: string, t: string)
    requires AllDigits(s) && AllDigits(t)
    ensures AllDigits(s + t)
    ensures Value(s + t) == Value(s) * Pow10(|t|) + Value(t)
  {
    if t == [] {
      assert s + t == s;
    } else {
      var front := t[..|t| - 1];
      ValueOfConcat(s, front);
      assert (s + t)[..|s + t| - 1] == s + front;
      ShiftByTen(Value(s), Pow10(|front|));
    }
  }

  lemma {:induction false} ValueOfZeros(k: nat)
    ensures Value(Zeros(k)) == 0
  {
    if k > 0 {
      ValueOfZeros(k - 1);
      assert Zeros(k)[..k - 1] == Zeros(k - 1);
    }
  }

  lemma ValueOfPadStart(s: string, width: nat)
    requires AllDigits(s)
    ensures Value(PadStart(s, width)) == Value(s)
  {
    if |s| < width {
      var zeros := Zeros(width - |s|);
      ValueOfConcat(zeros, s);
      ValueOfZeros(width - |s|);
      assert 0 * Pow10(|s|) == 0;
    }
  }

  /** A number has at most k digits exactly when it is below 10^k. */
  lemma {:induction false} PrintLength(n: nat, k: nat)
    requires k > 0
    ensures |Print(n)| <= k <==> n < Pow10(k)
  {
    if n < 10 {
      if k > 1 {
        PrintLength(n, k - 1);
      }
    } else if k == 1 {
      assert Print(n / 10) != [];
    } else {
      PrintLength(n / 10, k - 1);
    }
  }

  lemma {:induction false} ValueBound(s: string)
    requires AllDigits(s)
    ensures Value(s) < Pow10(|s|)
  {
    if s != [] {
      ValueBound(s[..|s| - 1]);
    }
  }

  /** Zero-padded to its width, a string of digits is the print of its value. */
  lemma {:induction false} PrintOfValue(s: string)
    requires AllDigits(s) && s != []
    requires s[0] != '0' || |s| == 1
    ensures Print(Value(s)) == s
  {
    if |s| > 1 {
      var front := s[..|s| - 1];
      PrintOfValue(front);
      if |front| == 1 {
        assert front[..0] == [];
      } else {
        PrintLength(Value(front), |front| - 1);
        PrintLength(Value(front), 1);
        assert Value(front) >= Pow10(|front| - 1) >= Pow10(1) by { Pow10Monotone(1, |front| - 1); }
      }
      assert Value(front) >= 1;
      assert Value(s) / 10 == Value(front) && Value(s) % 10 == DigitValue(s[|s| - 1]);
    } else {
      assert s[..0] == [];
    }
  }

  lemma {:induction false} Pow10Monotone(j: nat, k: nat)
    requires j <= k
    ensures Pow10(j) <= Pow10(k)
  {
    if j < k {
      Pow10Monotone(j, k - 1);
    }
  }
}
