/** Provider amounts at the Blue Dart boundary (src/modules/bluedart/bluedart-api.map.ts): text is
    rounded half-up to paise on its magnitude, and the quote total is the sum of the components kept. */
module ProviderAmounts {
  import opened Wrappers
  import opened Decimal
  import opened Money

  /** A JSON value: text, a finite number already rounded to paise by the boundary, or neither. */
  datatype ProviderValue = Text(text: string) | Rounded(paise: int) | Other

  /** Integer minor units of an exact decimal text. */
  function ParseUnits(n: Numeral, scale: nat): int
    requires n.Valid()
  {
    var v := Value(n.whole) * Pow10(scale) + Value(PadEnd(n.frac, scale));
    if n.negative then -v else v
  }

  /** The magnitude in paise: two decimals kept, one paise more when the third is 5 or above. */
  function HalfUpPaise(n: Numeral): nat
    requires n.Valid()
  {
    var kept := Value(n.whole) * 100 + Value(PadEnd(n.frac, 2));
    if |n.frac| > 2 && DigitValue(n.frac[2]) >= 5 then kept + 1 else kept
  }

  function AmountPaise(v: ProviderValue): Option<int> {
    match v
    case Rounded(paise) => Some(paise)
    case Text(text) =>
      var m := MatchNumeral(Trim(text));
      if m.None? then None else
        var paise: int := HalfUpPaise(m.value);
        Some(if m.value.negative then -paise else paise)
    case Other => None
  }

  function AmountText(v: ProviderValue): Option<string> {
    var paise := AmountPaise(v);
    if paise.None? then None else Some(PaiseToRupees(paise.value))
  }

  /** The denoted magnitude times 10^|frac|: an integer, however many decimals the text has. */
  ghost function ExactUnits(n: Numeral): nat
    requires n.Valid()
  {
    Value(n.whole) * Pow10(|n.frac|) + Value(n.frac)
  }

  lemma PaddedFraction(n: Numeral)
    requires n.Valid() && |n.frac| <= 2
    ensures Value(PadEnd(n.frac, 2)) * Pow10(|n.frac|) == 100 * Value(n.frac)
  {
    var pad := Zeros(2 - |n.frac|);
    assert PadEnd(n.frac, 2) == n.frac + pad;
    ValueOfConcat(n.frac, pad);
    ValueOfZeros(|pad|);
    assert Pow10(2) == 10 * Pow10(1) && Pow10(1) == 10 * Pow10(0);
    assert Pow10(|pad|) * Pow10(|n.frac|) == 100;
    assert Value(n.frac) * Pow10(|pad|) * Pow10(|n.frac|) == Value(n.frac) * (Pow10(|pad|) * Pow10(|n.frac|));
  }

  lemma ScaledTogether(scale: nat, whole: nat, padded: nat, fraction: nat)
    requires padded * scale == 100 * fraction
    ensures scale * (whole * 100 + padded) == 100 * (whole * scale + fraction)
  {
    assert scale * (whole * 100 + padded) == scale * (whole * 100) + scale * padded;
    assert scale * (whole * 100) == 100 * (whole * scale);
  }

  lemma ShortAmountIsExact(n: Numeral)
    requires n.Valid() && |n.frac| <= 2
    ensures Pow10(|n.frac|) * HalfUpPaise(n) == 100 * ExactUnits(n)
  {
    PaddedFraction(n);
    hide Value, Pow10, PadEnd;
    ScaledTogether(Pow10(|n.frac|), Value(n.whole), Value(PadEnd(n.frac, 2)), Value(n.frac));
  }

  lemma LongAmountSplits(n: Numeral)
    requires n.Valid() && |n.frac| > 2
    ensures var kept := Value(n.whole) * 100 + Value(PadEnd(n.frac, 2));
            Pow10(|n.frac|) == 100 * Pow10(|n.frac| - 2)
            && ExactUnits(n) == kept * Pow10(|n.frac| - 2) + Value(n.frac[2..])
  {
    var two, rest := n.frac[..2], n.frac[2..];
    assert n.frac == two + rest && PadEnd(n.frac, 2) == two;
    ValueOfConcat(two, rest);
    assert Pow10(|n.frac|) == 10 * Pow10(|n.frac| - 1) && Pow10(|n.frac| - 1) == 10 * Pow10(|n.frac| - 2);
    SplitAtPaise(Value(n.whole), Value(two), Value(rest), Pow10(|rest|));
  }

  /** The paise of a text amount are its magnitude rounded half-up: ties go away from zero. */
  lemma TextAmountIsHalfUp(n: Numeral)
    requires n.Valid()
    ensures NearestHalfUp(HalfUpPaise(n), 100 * ExactUnits(n), Pow10(|n.frac|))
  {
    var scale := Pow10(|n.frac|);
    if |n.frac| <= 2 {
      ShortAmountIsExact(n);
      assert 2 * scale * HalfUpPaise(n) == 2 * (scale * HalfUpPaise(n));
    } else {
      var rest := n.frac[2..];
      LongAmountSplits(n);
      HalfByFirstDigit(rest);
      NearestFromTail(Value(n.whole) * 100 + Value(PadEnd(n.frac, 2)), Value(rest), Pow10(|rest|),
                      DigitValue(rest[0]) >= 5);
    }
  }

  /** A text is an amount if and only if it is a numeral, spaces around it aside; the paise are its magnitude
      rounded half-up, with its sign, and they print to the text that is kept. */
  lemma AmountIsHalfUp(text: string)
    ensures AmountPaise(Text(text)).None? <==> MatchNumeral(Trim(text)).None?
    ensures AmountText(Text(text)).None? <==> MatchNumeral(Trim(text)).None?
    ensures AmountPaise(Text(text)).Some? ==>
              var paise, n := AmountPaise(Text(text)).value, MatchNumeral(Trim(text)).value;
              && NearestHalfUp(Abs(paise), 100 * ExactUnits(n), Pow10(|n.frac|))
              && (if n.negative then paise <= 0 else paise >= 0)
              && AmountText(Text(text)) == Some(PaiseToRupees(paise))
  {
    hide MatchNumeral, Trim, PaiseToRupees;
    var m := MatchNumeral(Trim(text));
    if m.Some? {
      TextAmountIsHalfUp(m.value);
      hide HalfUpPaise, ExactUnits, Pow10;
    }
  }

  /** The value of a text by its first digit. */
  lemma FirstDigit(text: string)
    requires AllDigits(text) && text != []
    ensures Value(text) == DigitValue(text[0]) * Pow10(|text| - 1) + Value(text[1..])
  {
    var head, tail := text[..1], text[1..];
    assert text == head + tail;
    assert head[..0] == [] && Value(head) == DigitValue(text[0]);
    ValueOfConcat(head, tail);
  }

  /** Digit times unit plus less than a unit is at least half of ten units exactly from five on. */
  lemma HalfOfTen(digit: nat, unit: nat, tail: nat)
    requires tail < unit
    ensures digit >= 5 <==> 2 * (digit * unit + tail) >= 10 * unit
  {
    if digit >= 5 {
      MulMonotone(unit, 5, digit);
    } else {
      MulMonotone(unit, digit, 4);
    }
  }

  /** Whether a tail of digits is at least half of its unit is decided by its first digit. */
  lemma HalfByFirstDigit(rest: string)
    requires AllDigits(rest) && rest != []
    ensures Value(rest) < Pow10(|rest|)
    ensures DigitValue(rest[0]) >= 5 <==> 2 * Value(rest) >= Pow10(|rest|)
  {
    FirstDigit(rest);
    ValueBound(rest[1..]);
    ValueBound(rest);
    assert Pow10(|rest|) == 10 * Pow10(|rest| - 1);
    hide Value, Pow10, DigitValue;
    HalfOfTen(DigitValue(rest[0]), Pow10(|rest| - 1), Value(rest[1..]));
  }

  lemma SplitAtPaise(whole: nat, two: nat, tail: nat, unit: nat)
    ensures whole * (100 * unit) + (two * unit + tail) == (whole * 100 + two) * unit + tail
  {
    assert whole * (100 * unit) == whole * 100 * unit;
  }

  lemma NearestFromTail(kept: nat, tail: nat, unit: nat, up: bool)
    requires tail < unit
    requires up <==> 2 * tail >= unit
    ensures NearestHalfUp(if up then kept + 1 else kept, 100 * (kept * unit + tail), 100 * unit)
  {
    assert 2 * (100 * unit) * kept == 200 * (kept * unit);
    assert 2 * (100 * unit) * (kept + 1) == 200 * (kept * unit) + 200 * unit;
  }

  // ---- The quote ------------------------------------------------------------------------------

  datatype ChargeKey = ChargeKey(key: string, code: string)

  const CHARGE_COMPONENT_MAP: seq<ChargeKey> :=
    [ChargeKey("freightCharge", "BD_FREIGHT"), ChargeKey("fuelSurcharge", "BD_FUEL"),
     ChargeKey("codCharge", "BD_COD"), ChargeKey("serviceTax", "BD_GST"), ChargeKey("gstAmount", "BD_GST")]

  datatype Component = Component(code: string, amount: string)

  /** Printed amounts are read back exactly. */
  lemma UnitsOfPrinted(paise: int)
    ensures MatchNumeral(PaiseToRupees(paise)).Some?
    ensures ParseUnits(MatchNumeral(PaiseToRupees(paise)).value, 2) == paise
  {
    var n := PaiseNumeral(paise);
    hide MatchNumeral, PaiseNumeral, PaiseToRupees, NumeralText;
    MatchOfText(n);
    assert PadEnd(n.frac, 2) == n.frac;
    assert Pow10(2) == 100 by {
      assert Pow10(2) == 10 * Pow10(1) && Pow10(1) == 10 * Pow10(0);
    }
    hide Value, PadEnd, Pow10;
  }

  ghost function Units(c: Component): int {
    var m := MatchNumeral(c.amount);
    if m.Some? then ParseUnits(m.value, 2) else 0
  }

  ghost function TotalUnits(components: seq<Component>): int {
    if components == [] then 0
    else TotalUnits(components[..|components| - 1]) + Units(components[|components| - 1])
  }

  predicate Priced(row: map<string, ProviderValue>, key: string) {
    key in row && AmountText(row[key]).Some?
  }

  /** Entry i supplies a component: its amount parses and no earlier entry supplied the same code. */
  ghost predicate Supplies(row: map<string, ProviderValue>, i: nat)
    requires i < |CHARGE_COMPONENT_MAP|
  {
    Priced(row, CHARGE_COMPONENT_MAP[i].key)
    && forall j :: 0 <= j < i && CHARGE_COMPONENT_MAP[j].code == CHARGE_COMPONENT_MAP[i].code ==>
         !Priced(row, CHARGE_COMPONENT_MAP[j].key)
  }

  ghost function Supplied(row: map<string, ProviderValue>, n: nat): seq<Component>
    requires n <= |CHARGE_COMPONENT_MAP|
  {
    if n == 0 then [] else
      var before := Supplied(row, n - 1);
      if Supplies(row, n - 1)
      then before + [Component(CHARGE_COMPONENT_MAP[n - 1].code,
                               AmountText(row[CHARGE_COMPONENT_MAP[n - 1].key]).value)]
      else before
  }

  predicate HasCode(components: seq<Component>, code: string) {
    exists c :: c in components && c.code == code
  }

  /** One of the first n entries has the code and an amount that parses. */
  ghost predicate PricedBefore(row: map<string, ProviderValue>, n: nat, code: string)
    requires n <= |CHARGE_COMPONENT_MAP|
  {
    exists j :: 0 <= j < n && CHARGE_COMPONENT_MAP[j].code == code && Priced(row, CHARGE_COMPONENT_MAP[j].key)
  }

  lemma HasCodeSnoc(components: seq<Component>, last: Component, code: string)
    ensures HasCode(components + [last], code) <==> HasCode(components, code) || last.code == code
  {
    if HasCode(components, code) {
      var c :| c in components && c.code == code;
      assert c in components + [last];
    }
    assert last in components + [last];
  }

  lemma PricedSnoc(row: map<string, ProviderValue>, n: nat, code: string)
    requires 0 < n <= |CHARGE_COMPONENT_MAP|
    ensures var m := CHARGE_COMPONENT_MAP[n - 1];
            && (PricedBefore(row, n, code) <==>
                PricedBefore(row, n - 1, code) || (m.code == code && Priced(row, m.key)))
            && (Supplies(row, n - 1) <==> Priced(row, m.key) && !PricedBefore(row, n - 1, m.code))
  {
    hide Priced;
  }

  lemma {:induction false} SuppliedCodes(row: map<string, ProviderValue>, n: nat, code: string)
    requires n <= |CHARGE_COMPONENT_MAP|
    ensures HasCode(Supplied(row, n), code) <==> PricedBefore(row, n, code)
  {
    hide HasCode, PricedBefore, Supplies, Priced, AmountText;
    if n == 0 {
      NothingPriced(row, code);
    } else {
      SuppliedCodes(row, n - 1, code);
      PricedSnoc(row, n, code);
      if Supplies(row, n - 1) {
        HasCodeSnoc(Supplied(row, n - 1), Supplied(row, n)[|Supplied(row, n - 1)|], code);
      }
    }
  }

  lemma NothingPriced(row: map<string, ProviderValue>, code: string)
    ensures !HasCode([], code) && !PricedBefore(row, 0, code)
  {
  }

  /** One component per code, from the first entry of that code that parses. */
  lemma {:induction false} SuppliedDistinct(row: map<string, ProviderValue>, n: nat)
    requires n <= |CHARGE_COMPONENT_MAP|
    ensures var cs := Supplied(row, n);
            forall i, j :: 0 <= i < j < |cs| ==> cs[i].code != cs[j].code
  {
    if n > 0 {
      SuppliedDistinct(row, n - 1);
      var before, after, code := Supplied(row, n - 1), Supplied(row, n), CHARGE_COMPONENT_MAP[n - 1].code;
      SuppliedCodes(row, n - 1, code);
      if Supplies(row, n - 1) {
        assert !HasCode(before, code);
      }
      forall i, j | 0 <= i < j < |after|
        ensures after[i].code != after[j].code
      {
        assert before[i] in before;
      }
    }
  }

  /** An amount that parses prints to a text that reads back. */
  lemma AmountReadsBack(v: ProviderValue)
    requires AmountText(v).Some?
    ensures MatchNumeral(AmountText(v).value).Some?
  {
    hide PaiseToRupees, MatchNumeral, AmountPaise;
    UnitsOfPrinted(AmountPaise(v).value);
  }

  lemma TotalSnoc(components: seq<Component>, last: Component)
    ensures TotalUnits(components + [last]) == TotalUnits(components) + Units(last)
  {
    hide Units;
    assert (components + [last])[..|components|] == components;
  }

  /** One turn of the loop: entry i adds its component exactly when it supplies one. */
  lemma SuppliedStep(row: map<string, ProviderValue>, i: nat)
    requires i < |CHARGE_COMPONENT_MAP|
    ensures var m, before := CHARGE_COMPONENT_MAP[i], Supplied(row, i);
            if Priced(row, m.key) && !HasCode(before, m.code)
            then var amount := AmountText(row[m.key]).value;
                 MatchNumeral(amount).Some?
                 && Supplied(row, i + 1) == before + [Component(m.code, amount)]
                 && TotalUnits(Supplied(row, i + 1)) == TotalUnits(before) + ParseUnits(MatchNumeral(amount).value, 2)
            else Supplied(row, i + 1) == before
  {
    hide HasCode, PricedBefore, Supplies, AmountText, MatchNumeral, ParseUnits, TotalUnits;
    var m, before := CHARGE_COMPONENT_MAP[i], Supplied(row, i);
    SuppliedCodes(row, i, m.code);
    PricedSnoc(row, i + 1, m.code);
    if Priced(row, m.key) && !HasCode(before, m.code) {
      AmountReadsBack(row[m.key]);
      TotalSnoc(before, Component(m.code, AmountText(row[m.key]).value));
    }
  }

  /** The component of one provider field, if its amount parses. */
  ghost function Charge(row: map<string, ProviderValue>, key: string, code: string): seq<Component> {
    if key in row && AmountText(row[key]).Some? then [Component(code, AmountText(row[key]).value)] else []
  }

  /** The components are freight, fuel, cash on delivery and tax, in this order, each where its amount parses;
      the tax is `serviceTax`, and `gstAmount` only where that one does not parse. */
  lemma ChargesInOrder(row: map<string, ProviderValue>)
    ensures Supplied(row, |CHARGE_COMPONENT_MAP|)
            == Charge(row, "freightCharge", "BD_FREIGHT") + Charge(row, "fuelSurcharge", "BD_FUEL")
               + Charge(row, "codCharge", "BD_COD")
               + if Charge(row, "serviceTax", "BD_GST") != [] then Charge(row, "serviceTax", "BD_GST")
                 else Charge(row, "gstAmount", "BD_GST")
  {
    FirstCharges(row);
    LastCharge(row);
    hide AmountText, Supplied, Charge;
  }

  lemma FirstCharges(row: map<string, ProviderValue>)
    ensures Supplied(row, 0) == []
    ensures Supplied(row, 1) == Supplied(row, 0) + Charge(row, "freightCharge", "BD_FREIGHT")
    ensures Supplied(row, 2) == Supplied(row, 1) + Charge(row, "fuelSurcharge", "BD_FUEL")
    ensures Supplied(row, 3) == Supplied(row, 2) + Charge(row, "codCharge", "BD_COD")
    ensures Supplied(row, 4) == Supplied(row, 3) + Charge(row, "serviceTax", "BD_GST")
  {
    hide AmountText, Charge;
    OneCharge(row, 0);
    OneCharge(row, 1);
    OneCharge(row, 2);
    OneCharge(row, 3);
  }

  lemma OneCharge(row: map<string, ProviderValue>, n: nat)
    requires n < 4
    ensures var m := CHARGE_COMPONENT_MAP[n];
            Supplied(row, n + 1) == Supplied(row, n) + Charge(row, m.key, m.code)
  {
    hide AmountText;
    assert Supplies(row, n) <==> Priced(row, CHARGE_COMPONENT_MAP[n].key);
  }

  lemma LastCharge(row: map<string, ProviderValue>)
    ensures Supplied(row, 5)
            == Supplied(row, 4) + if Charge(row, "serviceTax", "BD_GST") != [] then []
                                  else Charge(row, "gstAmount", "BD_GST")
  {
    hide AmountText;
    assert CHARGE_COMPONENT_MAP[3] == ChargeKey("serviceTax", "BD_GST");
    assert Supplies(row, 4) <==> Priced(row, "gstAmount") && !Priced(row, "serviceTax");
  }

  /** The components kept and the printed total: the exact sum of the components, whatever total the
      provider claims. */
  method ParseQuoteCharges(row: map<string, ProviderValue>) returns (components: seq<Component>, total: string)
    ensures components == Supplied(row, |CHARGE_COMPONENT_MAP|)
    ensures forall i, j :: 0 <= i < j < |components| ==> components[i].code != components[j].code
    ensures total == PaiseToRupees(TotalUnits(components))
  {
    components := [];
    var totalPaise := 0;
    for i := 0 to |CHARGE_COMPONENT_MAP|
      invariant components == Supplied(row, i)
      invariant totalPaise == TotalUnits(components)
    {
      var m := CHARGE_COMPONENT_MAP[i];
      SuppliedStep(row, i);
      if m.key in row {
        var amount := AmountText(row[m.key]);
        if amount.Some? && !HasCode(components, m.code) {
          components := components + [Component(m.code, amount.value)];
          totalPaise := totalPaise + ParseUnits(MatchNumeral(amount.value).value, 2);
        }
      }
    }
    SuppliedDistinct(row, |CHARGE_COMPONENT_MAP|);
    total := PaiseToRupees(totalPaise);
  }
}
