/** Exact money (src/common/money.ts): amounts are whole paise, rates whole millionths, text only
    at the boundary. Errors thrown by the parsers are None. */
module Money {
  import opened Wrappers
  import opened Decimal

  const PAISE_PER_RUPEE := 100
  const MILLION := 1_000_000

  // ---- Decimal text ------------------------------------------------------------------------

  /** The characters `String.prototype.trim` removes. */
  predicate IsSpace(c: char) {
    '\t' <= c <= '\r' || c in [' ', '\U{00A0}', '\U{1680}', '\U{2028}', '\U{2029}', '\U{202F}', '\U{205F}', '\U{3000}',
                               '\U{FEFF}']
    || '\U{2000}' <= c <= '\U{200A}'
  }

  function TrimStart(s: string): string {
    if s != [] && IsSpace(s[0]) then TrimStart(s[1..]) else s
  }

  function TrimEnd(s: string): string {
    if s != [] && IsSpace(s[|s| - 1]) then TrimEnd(s[..|s| - 1]) else s
  }

  function Trim(s: string): string {
    TrimEnd(TrimStart(s))
  }

  lemma TrimKeeps(s: string)
    requires s == [] || (!IsSpace(s[0]) && !IsSpace(s[|s| - 1]))
    ensures Trim(s) == s
  {
  }

  /** The first i characters are spaces, and the next one is not. */
  ghost predicate SpacesUpTo(s: string, i: nat) {
    i <= |s| && (forall j :: 0 <= j < i ==> IsSpace(s[j])) && (i < |s| ==> !IsSpace(s[i]))
  }

  /** From i on there are only spaces, and the one before is none. */
  ghost predicate SpacesFrom(s: string, i: nat) {
    i <= |s| && (forall j :: i <= j < |s| ==> IsSpace(s[j])) && (i > 0 ==> !IsSpace(s[i - 1]))
  }

  lemma {:induction false} TrimStartIs(s: string) returns (i: nat)
    ensures SpacesUpTo(s, i) && TrimStart(s) == s[i..]
  {
    hide IsSpace;
    if s != [] && IsSpace(s[0]) {
      i := TrimStartIs(s[1..]);
      assert s[1..][i..] == s[i + 1..];
      assert forall j :: 0 < j < |s| ==> s[1..][j - 1] == s[j];
      i := i + 1;
    } else {
      assert s[0..] == s;
      i := 0;
    }
  }

  lemma {:induction false} TrimEndIs(s: string) returns (i: nat)
    ensures SpacesFrom(s, i) && TrimEnd(s) == s[..i]
  {
    hide IsSpace;
    if s != [] && IsSpace(s[|s| - 1]) {
      var front := s[..|s| - 1];
      i := TrimEndIs(front);
      assert front[..i] == s[..i];
      assert forall j :: 0 <= j < |front| ==> front[j] == s[j];
    } else {
      assert s[..|s|] == s;
      i := |s|;
    }
  }

  lemma SpacesInRest(s: string, i: nat, n: nat)
    requires SpacesUpTo(s, i) && SpacesFrom(s[i..], n) && n > 0
    ensures SpacesFrom(s, i + n)
  {
    hide IsSpace;
    assert forall k :: i <= k < |s| ==> s[i..][k - i] == s[k];
  }

  /** Trimming takes all the spaces at both ends, and nothing else; a text of spaces only becomes empty. */
  lemma TrimExactly(s: string)
    ensures (forall j :: 0 <= j < |s| ==> IsSpace(s[j])) ==> Trim(s) == ""
    ensures (exists j :: 0 <= j < |s| && !IsSpace(s[j])) ==>
              exists i: nat, j: nat :: i < j && SpacesUpTo(s, i) && SpacesFrom(s, j) && Trim(s) == s[i..j]
  {
    hide IsSpace, TrimStart, TrimEnd;
    var i := TrimStartIs(s);
    var n := TrimEndIs(s[i..]);
    assert s[i..][..n] == s[i..i + n];
    if i < |s| {
      assert s[i..][0] == s[i];
      SpacesInRest(s, i, n);
    }
  }

  /** The first position of `c`, or the length when it does not occur. */
  function IndexOf(s: string, c: char): (i: nat)
    ensures i <= |s|
    ensures c !in s[..i]
    ensures i < |s| ==> s[i] == c
  {
    if s == [] || s[0] == c then 0 else
      var i := 1 + IndexOf(s[1..], c);
      assert s[..i] == [s[0]] + s[1..][..i - 1];
      i
  }

  /** The parts of a decimal numeral: sign, digits before the point, digits after it. */
  datatype Numeral = Numeral(negative: bool, whole: string, frac: string) {
    ghost predicate Valid() {
      AllDigits(whole) && AllDigits(frac) && whole != []
    }
  }

  /** The regular expression `^(-?)(\d+)(?:\.(\d+))?$`. */
  function MatchNumeral(s: string): (r: Option<Numeral>)
    ensures r.Some? ==> r.value.Valid()
  {
    var negative := s != [] && s[0] == '-';
    var body := if negative then s[1..] else s;
    var dot := IndexOf(body, '.');
    var whole := body[..dot];
    var frac := if dot < |body| then body[dot + 1..] else [];
    if whole == [] || !AllDigits(whole) || !AllDigits(frac) || (dot < |body| && frac == []) then None
    else Some(Numeral(negative, whole, frac))
  }

  function Body(n: Numeral): string {
    n.whole + (if n.frac == [] then "" else "." + n.frac)
  }

  function NumeralText(n: Numeral): string {
    if n.negative then "-" + Body(n) else Body(n)
  }

  /** Splitting at the first point. */
  lemma {:induction false} IndexOfSplit(before: string, c: char, after: string)
    requires c !in before
    ensures IndexOf(before, c) == |before|
    ensures IndexOf(before + [c] + after, c) == |before|
  {
    var s := before + [c] + after;
    if before != [] {
      assert before[0] in before;
      IndexOfSplit(before[1..], c, after);
      assert s[1..] == before[1..] + [c] + after;
    }
  }

  lemma BodySplits(n: Numeral)
    requires n.Valid()
    ensures var dot := IndexOf(Body(n), '.');
            dot == |n.whole| && Body(n)[..dot] == n.whole
            && (if n.frac == [] then dot == |Body(n)| else dot < |Body(n)| && Body(n)[dot + 1..] == n.frac)
  {
    assert '.' !in n.whole;
    IndexOfSplit(n.whole, '.', n.frac);
    if n.frac == [] {
      assert Body(n) == n.whole;
    } else {
      assert Body(n) == n.whole + ['.'] + n.frac;
    }
  }

  /** Matching and writing a numeral undo each other. */
  lemma MatchOfText(n: Numeral)
    requires n.Valid()
    ensures MatchNumeral(NumeralText(n)) == Some(n)
  {
    var s := NumeralText(n);
    BodySplits(n);
    assert IsDigit(n.whole[0]);
    if n.negative {
      assert s == ['-'] + Body(n);
      assert s[1..] == Body(n);
    } else {
      assert s == Body(n);
    }
  }

  lemma BodyRejoins(body: string, dot: nat)
    requires dot == IndexOf(body, '.')
    ensures body == body[..dot] + (if dot < |body| then "." + body[dot + 1..] else "")
  {
    hide IndexOf;
    assert body == body[..dot] + body[dot..];
    if dot < |body| {
      assert body[dot..] == [body[dot]] + body[dot + 1..];
    }
  }

  lemma TextOfMatch(s: string)
    requires MatchNumeral(s).Some?
    ensures NumeralText(MatchNumeral(s).value) == s
  {
    var negative := s != [] && s[0] == '-';
    var body := if negative then s[1..] else s;
    var dot := IndexOf(body, '.');
    BodyRejoins(body, dot);
    var n := MatchNumeral(s).value;
    assert n.frac == (if dot < |body| then body[dot + 1..] else []);
    assert Body(n) == body;
    if negative {
      assert s == "-" + body;
    }
  }

  // ---- Rupees and paise ----------------------------------------------------------------------

  /** "1234.56" is 123456 paise: at most four decimals, the last two of them zero. */
  function RupeesToPaise(value: string): Option<int> {
    var m := MatchNumeral(Trim(value));
    if m.None? then None else PaiseOf(m.value)
  }

  function PaiseOf(n: Numeral): Option<int>
    requires n.Valid()
  {
    if |n.frac| > 4 then None else
      var frac := PadEnd(n.frac, 4);
      if frac[2..] != "00" then None else
        var paise := Value(n.whole) * PAISE_PER_RUPEE + Value(frac[..2]);
        Some(if n.negative then -paise else paise)
  }

  function Abs(n: int): nat {
    if n < 0 then -n else n
  }

  /** 123456 paise is "1234.56". */
  function PaiseToRupees(paise: int): string {
    var amount := Print(Abs(paise) / PAISE_PER_RUPEE) + ("." + PadStart(Print(Abs(paise) % PAISE_PER_RUPEE), 2));
    if paise < 0 then "-" + amount else amount
  }

  /** The numeral an amount is printed as. */
  function PaiseNumeral(paise: int): (n: Numeral)
    ensures n.Valid() && |n.frac| == 2
    ensures NumeralText(n) == PaiseToRupees(paise)
    ensures n.negative <==> paise < 0
    ensures Value(n.whole) * PAISE_PER_RUPEE + Value(n.frac) == Abs(paise)
  {
    var rest := Abs(paise) % PAISE_PER_RUPEE;
    PrintLength(rest, 2);
    assert Pow10(2) == 10 * Pow10(1) && Pow10(1) == 10 * Pow10(0);
    ValueOfPrint(Abs(paise) / PAISE_PER_RUPEE);
    ValueOfPrint(rest);
    ValueOfPadStart(Print(rest), 2);
    Numeral(paise < 0, Print(Abs(paise) / PAISE_PER_RUPEE), PadStart(Print(rest), 2))
  }

  /** A printed amount carries no space to trim. */
  lemma PrintedIsTrimmed(n: Numeral)
    requires n.Valid() && |n.frac| == 2
    ensures Trim(NumeralText(n)) == NumeralText(n)
  {
    var text := NumeralText(n);
    assert text[|text| - 1] == n.frac[1];
    assert text[0] == if n.negative then '-' else n.whole[0];
    TrimKeeps(text);
  }

  lemma PadTwo(frac: string)
    requires |frac| == 2
    ensures PadEnd(frac, 4)[..2] == frac && PadEnd(frac, 4)[2..] == "00"
  {
    assert PadEnd(frac, 4) == frac + "00";
  }

  ghost function Signed(n: Numeral): int
    requires n.Valid()
  {
    var paise := Value(n.whole) * PAISE_PER_RUPEE + Value(n.frac);
    if n.negative then -paise else paise
  }

  lemma PaiseOfTwoDecimals(n: Numeral)
    requires n.Valid() && |n.frac| == 2
    ensures PaiseOf(n) == Some(Signed(n))
  {
    PadTwo(n.frac);
  }

  /** What the parser makes of a trimmed numeral with two decimals. */
  lemma ParseTwoDecimals(n: Numeral)
    requires n.Valid() && |n.frac| == 2
    ensures RupeesToPaise(NumeralText(n)) == Some(Signed(n))
  {
    var text := NumeralText(n);
    assert Trim(text) == text by { PrintedIsTrimmed(n); }
    assert MatchNumeral(text) == Some(n) by { MatchOfText(n); }
    PaiseOfTwoDecimals(n);
  }

  /** Parsing undoes printing, for every amount, negative ones included. */
  lemma ParseOfPrint(paise: int)
    ensures RupeesToPaise(PaiseToRupees(paise)) == Some(paise)
  {
    var n := PaiseNumeral(paise);
    ParseTwoDecimals(n);
    assert Signed(n) == paise;
  }

  /** The text form the printer uses: two decimals, no superfluous leading zero, no negative zero. */
  predicate Canonical(n: Numeral)
    requires n.Valid()
  {
    |n.frac| == 2 && (n.whole[0] != '0' || |n.whole| == 1)
    && (n.negative ==> Value(n.whole) + Value(n.frac) > 0)
  }

  lemma PaiseNumeralCanonical(paise: int)
    ensures Canonical(PaiseNumeral(paise))
  {
    PrintNoLeadingZero(Abs(paise) / PAISE_PER_RUPEE);
  }

  lemma {:induction false} PrintNoLeadingZero(n: nat)
    ensures Print(n)[0] == '0' ==> n == 0 && |Print(n)| == 1
  {
    if n >= 10 {
      PrintNoLeadingZero(n / 10);
      assert Print(n)[0] == Print(n / 10)[0];
    } else {
      assert DigitValue(Digit(n)) == n;
    }
  }

  lemma TwoDigitBound(a: string)
    requires AllDigits(a) && |a| == 2
    ensures Value(a) < 100
  {
    ValueBound(a);
    assert Pow10(2) == 10 * Pow10(1) && Pow10(1) == 10 * Pow10(0);
  }

  lemma TwoDigits(a: string, b: string)
    requires AllDigits(a) && AllDigits(b) && |a| == |b| == 2
    requires Value(a) == Value(b)
    ensures a == b
  {
    assert a[..1][..0] == [] && b[..1][..0] == [];
    assert Value(a[..1]) == DigitValue(a[0]) && Value(b[..1]) == DigitValue(b[0]);
    assert Value(a) == 10 * DigitValue(a[0]) + DigitValue(a[1]);
    assert Value(b) == 10 * DigitValue(b[0]) + DigitValue(b[1]);
  }

  /** Canonical numerals of equal amounts are the same numeral. */
  lemma CanonicalUnique(m: Numeral, n: Numeral)
    requires m.Valid() && n.Valid() && Canonical(m) && Canonical(n)
    requires m.negative == n.negative
    requires Value(m.whole) * PAISE_PER_RUPEE + Value(m.frac) == Value(n.whole) * PAISE_PER_RUPEE + Value(n.frac)
    ensures m == n
  {
    TwoDigitBound(m.frac);
    TwoDigitBound(n.frac);
    assert Value(m.whole) == Value(n.whole) && Value(m.frac) == Value(n.frac);
    assert m.whole == Print(Value(m.whole)) == n.whole by {
      PrintOfValue(m.whole);
      PrintOfValue(n.whole);
    }
    TwoDigits(m.frac, n.frac);
  }

  /** Printing undoes parsing exactly on the trimmed canonical texts: of all the texts that parse,
      those and no others come back unchanged. */
  lemma PrintOfParse(text: string)
    requires RupeesToPaise(text).Some?
    ensures PaiseToRupees(RupeesToPaise(text).value) == text
            <==> Trim(text) == text && Canonical(MatchNumeral(Trim(text)).value)
  {
    var paise := RupeesToPaise(text).value;
    var out := PaiseNumeral(paise);
    PaiseNumeralCanonical(paise);
    if PaiseToRupees(paise) == text {
      PrintedIsTrimmed(out);
      MatchOfText(out);
    }
    if Trim(text) == text && Canonical(MatchNumeral(text).value) {
      var m := MatchNumeral(text).value;
      TextOfMatch(text);
      ParseTwoDecimals(m);
      CanonicalUnique(m, out);
    }
  }

  lemma PaddedValue(frac: string)
    requires AllDigits(frac) && |frac| <= 4
    ensures Value(PadEnd(frac, 4)) == Value(frac) * Pow10(4 - |frac|)
  {
    var zeros := Zeros(4 - |frac|);
    assert PadEnd(frac, 4) == frac + zeros;
    hide Value, Pow10, PadEnd, Zeros;
    ValueOfConcat(frac, zeros);
    ValueOfZeros(|zeros|);
  }

  lemma FourDigits(padded: string)
    requires AllDigits(padded) && |padded| == 4
    ensures Value(padded) == 100 * Value(padded[..2]) + Value(padded[2..]) && Value(padded[2..]) < 100
  {
    assert padded == padded[..2] + padded[2..];
    assert Pow10(2) == 10 * Pow10(1) && Pow10(1) == 10 * Pow10(0);
    hide Value, Pow10;
    ValueOfConcat(padded[..2], padded[2..]);
    TwoDigitBound(padded[2..]);
  }

  lemma TwoZeros(rest: string)
    requires AllDigits(rest) && |rest| == 2
    ensures rest == "00" <==> Value(rest) == 0
  {
    ValueOfZeros(2);
    assert Zeros(2) == "00";
    hide Value, Zeros;
    if Value(rest) == 0 {
      TwoDigits(rest, "00");
    }
  }

  lemma TenThousand(k: nat)
    requires k <= 4
    ensures Pow10(k) * Pow10(4 - k) == 10000
  {
    assert Pow10(0) == 1 && Pow10(1) == 10 && Pow10(2) == 10 * Pow10(1) && Pow10(3) == 10 * Pow10(2)
           && Pow10(4) == 10 * Pow10(3);
  }

  lemma CancelFactor(a: nat, b: nat, k: nat)
    requires k > 0
    ensures a == b <==> a * k == b * k
  {
    if a * k == b * k {
      MultiplesApart(k, a, b);
    }
  }

  lemma ScaleUp(paise: nat, whole: nat, frac: nat, unit: nat, rest: nat)
    requires unit * rest == 10000
    ensures paise * unit == 100 * (whole * unit + frac) <==> 100 * paise == 10000 * whole + frac * rest
  {
    assert rest > 0;
    CancelFactor(paise * unit, 100 * (whole * unit + frac), rest);
    assert paise * unit * rest == paise * (unit * rest) == 10000 * paise;
    assert 100 * (whole * unit + frac) * rest == 100 * (whole * (unit * rest) + frac * rest);
  }

  /** A text parses to an amount if and only if it is a numeral of at most four decimals that denotes exactly
      that many hundredths. */
  lemma ParseIsExact(text: string, paise: int)
    ensures RupeesToPaise(text) == Some(paise) <==>
            var m := MatchNumeral(Trim(text));
            && m.Some? && |m.value.frac| <= 4
            && Abs(paise) * Pow10(|m.value.frac|) == 100 * (Value(m.value.whole) * Pow10(|m.value.frac|)
                                                            + Value(m.value.frac))
            && (if m.value.negative then paise <= 0 else paise >= 0)
  {
    hide MatchNumeral, Trim, Value, Pow10, PaiseOf;
    var m := MatchNumeral(Trim(text));
    if m.Some? {
      if |m.value.frac| <= 4 {
        PaiseIsExact(m.value, paise);
      } else {
        TooManyDecimals(m.value);
      }
    }
  }

  lemma TooManyDecimals(n: Numeral)
    requires n.Valid() && |n.frac| > 4
    ensures PaiseOf(n).None?
  {
  }

  lemma WholeHundredths(paise: nat, whole: nat, kept: nat, rest: nat)
    requires rest < 100
    ensures 100 * paise == 10000 * whole + (100 * kept + rest) <==> rest == 0 && paise == whole * 100 + kept
  {
  }

  lemma PaiseIsExact(n: Numeral, paise: int)
    requires n.Valid() && |n.frac| <= 4
    ensures PaiseOf(n) == Some(paise) <==>
            Abs(paise) * Pow10(|n.frac|) == 100 * (Value(n.whole) * Pow10(|n.frac|) + Value(n.frac))
            && (if n.negative then paise <= 0 else paise >= 0)
  {
    var padded := PadEnd(n.frac, 4);
    PaddedValue(n.frac);
    FourDigits(padded);
    TwoZeros(padded[2..]);
    TenThousand(|n.frac|);
    hide Value, Pow10, PadEnd;
    ScaleUp(Abs(paise), Value(n.whole), Value(n.frac), Pow10(|n.frac|), Pow10(4 - |n.frac|));
    WholeHundredths(Abs(paise), Value(n.whole), Value(padded[..2]), Value(padded[2..]));
    assert PaiseOf(n).Some? <==> padded[2..] == "00";
  }

  // ---- Rounding -------------------------------------------------------------------------------

  /** Half-up division; None is the thrown error. */
  function DivRoundHalfUp(numerator: int, denominator: int): Option<int> {
    if denominator <= 0 || numerator < 0 then None else
      var q := numerator / denominator;
      var r := numerator % denominator;
      Some(if r * 2 >= denominator then q + 1 else q)
  }

  /** q is numerator/denominator rounded to the nearest integer, ties upward. */
  ghost predicate NearestHalfUp(q: int, numerator: int, denominator: int) {
    2 * denominator * q - denominator <= 2 * numerator < 2 * denominator * q + denominator
  }

  /** The quotient is within half a unit, ties upward, and it is the only such integer. */
  lemma DivRoundHalfUpIsNearest(numerator: nat, denominator: nat, q: int)
    requires denominator > 0
    ensures DivRoundHalfUp(numerator, denominator) == Some(q) <==> NearestHalfUp(q, numerator, denominator)
  {
    var p := DivRoundHalfUp(numerator, denominator).value;
    var d := numerator / denominator;
    assert numerator == d * denominator + numerator % denominator;
    assert 2 * denominator * p == 2 * (p * denominator);
    if p == d + 1 {
      assert p * denominator == d * denominator + denominator;
    }
    assert NearestHalfUp(p, numerator, denominator);
    if NearestHalfUp(q, numerator, denominator) {
      NearestUnique(p, q, numerator, denominator);
    }
  }

  /** Multiples of d that are less than d apart are equal. */
  lemma MultiplesApart(d: int, p: int, q: int)
    requires d > 0 && d * p < d * q + d && d * q < d * p + d
    ensures p == q
  {
    assert d * (p - q) == d * p - d * q;
    if p - q >= 1 {
      MulMonotone(d, 1, p - q);
    } else if q - p >= 1 {
      MulMonotone(d, 1, q - p);
    }
  }

  lemma MulMonotone(d: int, j: int, k: int)
    requires d >= 0 && j <= k
    ensures d * j <= d * k
  {
    assert d * k - d * j == d * (k - j);
  }

  lemma NearestUnique(p: int, q: int, numerator: int, denominator: nat)
    requires denominator > 0
    requires NearestHalfUp(p, numerator, denominator) && NearestHalfUp(q, numerator, denominator)
    ensures p == q
  {
    MultiplesApart(2 * denominator, p, q);
  }

  function ApplyRate(amount: int, rate: int): Option<int> {
    DivRoundHalfUp(amount * rate, MILLION)
  }

  function SumComponents(components: seq<int>): int {
    if components == [] then 0 else SumComponents(components[..|components| - 1]) + components[|components| - 1]
  }

  /** One charge: an amount of paise and the rate applied to it. */
  datatype Charge = Charge(amount: nat, rate: nat)

  ghost function ExactMillionths(charges: seq<Charge>): int {
    if charges == [] then 0 else
      var last := charges[|charges| - 1];
      ExactMillionths(charges[..|charges| - 1]) + last.amount * last.rate
  }

  function Rounded(c: Charge): (r: int)
    ensures ApplyRate(c.amount, c.rate) == Some(r)
  {
    assert c.amount * c.rate >= 0;
    ApplyRate(c.amount, c.rate).value
  }

  /** A total of n rounded components is within n/2 paise of the exact total. */
  lemma {:induction false} TotalWithinHalfPaisePerComponent(charges: seq<Charge>)
    ensures var total := SumComponents(seq(|charges|, i requires 0 <= i < |charges| => Rounded(charges[i])));
            Abs(2 * (total * MILLION - ExactMillionths(charges))) <= |charges| * MILLION
  {
    var rounded := seq(|charges|, i requires 0 <= i < |charges| => Rounded(charges[i]));
    if charges != [] {
      var front, last := charges[..|charges| - 1], charges[|charges| - 1];
      TotalWithinHalfPaisePerComponent(front);
      assert rounded[..|rounded| - 1] == seq(|front|, i requires 0 <= i < |front| => Rounded(front[i]));
      assert last.amount * last.rate >= 0;
      DivRoundHalfUpIsNearest(last.amount * last.rate, MILLION, Rounded(last));
    }
  }

  function CeilDiv(a: int, b: int): Option<int> {
    if b <= 0 then None else if a <= 0 then Some(0) else Some((a + b - 1) / b)
  }

  ghost predicate LeastCover(q: int, a: int, b: int) {
    a <= b * q && (q > 0 ==> b * (q - 1) < a)
  }

  /** The least number of steps of b that covers a. */
  lemma CeilDivIsLeast(a: int, b: int, q: nat)
    requires b > 0
    ensures CeilDiv(a, b) == Some(q) <==> LeastCover(q, a, b)
  {
    var p := CeilDiv(a, b).value;
    assert p >= 0 && LeastCover(p, a, b) by {
      if a > 0 {
        var n := a + b - 1;
        assert n == b * p + n % b;
        assert b * (p - 1) == b * p - b;
      }
    }
    if LeastCover(q, a, b) && p != q {
      MulMonotone(b, (if p < q then p else q), (if p < q then q - 1 else p - 1));
      assert false;
    }
  }
}
