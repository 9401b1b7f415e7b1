/** What normalising an AWB number does to its characters, and which numbers it identifies. */
module AwbNumbers {
  import opened BookingSnapshot

  const LOWER := "abcdefghijklmnopqrstuvwxyz"
  const UPPER := "ABCDEFGHIJKLMNOPQRSTUVWXYZ"

  /** Hyphens and everything `\s` matches. */
  const SEPARATORS := "-\t\n\U{000B}\U{000C}\r \U{00A0}\U{1680}\U{2000}\U{2001}\U{2002}\U{2003}\U{2004}\U{2005}"
                      + "\U{2006}\U{2007}\U{2008}\U{2009}\U{200A}\U{2028}\U{2029}\U{202F}\U{205F}\U{3000}\U{FEFF}"

  predicate CasesOf(i: int, x: char, y: char)
    requires 0 <= i < 26
  {
    (x == LOWER[i] && y == UPPER[i]) || (x == UPPER[i] && y == LOWER[i])
  }

  /** Two characters are the same, or one letter in its two cases. */
  predicate SameLetter(x: char, y: char) {
    x == y || exists i :: 0 <= i < 26 && CasesOf(i, x, y)
  }

  lemma LetterCodes(i: int)
    requires 0 <= i < 26
    ensures LOWER[i] as int == 'a' as int + i && UPPER[i] as int == 'A' as int + i
  {
  }

  lemma UpperOfCases(i: int, x: char, y: char)
    requires 0 <= i < 26 && CasesOf(i, x, y)
    ensures Upper(x) == Upper(y)
  {
    hide LOWER, UPPER;
    LetterCodes(i);
  }

  lemma UpperSame(x: char, y: char)
    ensures Upper(x) == Upper(y) <==> SameLetter(x, y)
  {
    hide LOWER, UPPER;
    if i :| 0 <= i < 26 && CasesOf(i, x, y) {
      UpperOfCases(i, x, y);
    }
    if Upper(x) == Upper(y) && x != y {
      var i := if 'a' <= x <= 'z' then x as int - 'a' as int else y as int - 'a' as int;
      LetterCodes(i);
      assert CasesOf(i, x, y);
    }
  }

  lemma LetterCount()
    ensures |LOWER| == |UPPER| == 26
  {
  }

  lemma UpperIsCapital(c: char)
    ensures |LOWER| == |UPPER| == 26
    ensures forall i :: 0 <= i < 26 && c == LOWER[i] ==> Upper(c) == UPPER[i]
    ensures c !in LOWER ==> Upper(c) == c
    ensures Upper(c) !in LOWER
  {
    LetterCount();
    hide LOWER, UPPER;
    forall i | 0 <= i < 26
      ensures c == LOWER[i] ==> Upper(c) == UPPER[i]
      ensures Upper(c) != LOWER[i]
    {
      LetterCodes(i);
    }
    if 'a' <= c <= 'z' {
      LetterCodes(c as int - 'a' as int);
    }
  }

  lemma SeparatorsAreStripped(c: char)
    ensures Stripped(c) <==> c in SEPARATORS
  {
  }

  // ---- Positions --------------------------------------------------------------------------------------------------

  /** The positions of the characters that are not separators, in order. */
  ghost predicate KeptAt(raw: string, at: seq<nat>) {
    && (forall j :: 0 <= j < |at| ==> at[j] < |raw| && raw[at[j]] !in SEPARATORS)
    && (forall i, j :: 0 <= i < j < |at| ==> at[i] < at[j])
    && (forall i: nat :: i < |raw| && raw[i] !in SEPARATORS ==> i in at)
  }

  function Kept(raw: string): (at: seq<nat>)
    ensures KeptAt(raw, at)
  {
    if raw == [] then []
    else
      var n := |raw| - 1;
      var front := Kept(raw[..n]);
      assert KeptAt(raw[..n], front) && forall i :: 0 <= i < n ==> raw[..n][i] == raw[i];
      if raw[n] in SEPARATORS then front else
        var at := front + [n];
        assert forall i :: i in front ==> i in at;
        at
  }

  lemma {:induction false} NormalizeSnoc(raw: string, c: char)
    ensures NormalizeAwb(raw + [c]) == NormalizeAwb(raw) + if c in SEPARATORS then [] else [Upper(c)]
  {
    if raw == [] {
      SeparatorsAreStripped(c);
    } else {
      NormalizeSnoc(raw[1..], c);
      assert (raw + [c])[1..] == raw[1..] + [c];
    }
  }

  lemma EmptyNumber()
    ensures NormalizeAwb([]) == []
  {
  }

  lemma KeptInside(raw: string, at: seq<nat>)
    requires KeptAt(raw, at)
    ensures forall j :: 0 <= j < |at| ==> at[j] < |raw| && raw[at[j]] !in SEPARATORS
  {
    hide SEPARATORS;
  }

  lemma CapitalStays(c: char)
    requires c !in SEPARATORS
    ensures Upper(c) !in SEPARATORS
  {
    hide SEPARATORS;
    SeparatorsAreStripped(c);
    SeparatorsAreStripped(Upper(c));
  }

  lemma {:induction false} NormalizeAt(raw: string)
    ensures var n, at := NormalizeAwb(raw), Kept(raw);
            |n| == |at| && forall j :: 0 <= j < |at| ==> n[j] == Upper(raw[at[j]])
  {
    hide SEPARATORS, Upper, KeptAt, NormalizeAwb;
    if raw == [] {
      EmptyNumber();
    } else {
      var front, last := raw[..|raw| - 1], raw[|raw| - 1];
      NormalizeAt(front);
      NormalizeSnoc(front, last);
      assert front + [last] == raw;
      var n := NormalizeAwb(front);
      assert KeptAt(front, Kept(front));
      KeptInside(front, Kept(front));
      assert forall j :: 0 <= j < |n| ==> raw[Kept(front)[j]] == front[Kept(front)[j]];
    }
  }

  // ---- What normalising means -------------------------------------------------------------------------------------

  /** Exactly the separators go, the rest stays in order, every letter a-z as its capital. */
  lemma NormalizeKeeps(raw: string)
    ensures var n := NormalizeAwb(raw);
            exists at: seq<nat> ::
              && KeptAt(raw, at) && |n| == |at|
              && (forall j, i :: 0 <= j < |at| && 0 <= i < 26 && raw[at[j]] == LOWER[i] ==> n[j] == UPPER[i])
              && (forall j :: 0 <= j < |at| && raw[at[j]] !in LOWER ==> n[j] == raw[at[j]])
    ensures forall c :: c in NormalizeAwb(raw) ==> c !in LOWER && c !in SEPARATORS
  {
    hide SEPARATORS, LOWER, UPPER, Upper, NormalizeAwb, KeptAt;
    NormalizeAt(raw);
    var n, at := NormalizeAwb(raw), Kept(raw);
    KeptInside(raw, at);
    forall j | 0 <= j < |at|
      ensures |LOWER| == |UPPER| == 26 && forall i :: 0 <= i < 26 && raw[at[j]] == LOWER[i] ==> n[j] == UPPER[i]
      ensures raw[at[j]] !in LOWER ==> n[j] == raw[at[j]]
      ensures n[j] !in LOWER && n[j] !in SEPARATORS
    {
      UpperIsCapital(raw[at[j]]);
      CapitalStays(raw[at[j]]);
    }
  }

  /** Two AWB numbers are one after normalising if and only if they agree once their separators are dropped and
      case is ignored. */
  lemma SameNumber(a: string, b: string)
    ensures NormalizeAwb(a) == NormalizeAwb(b) <==>
            var at, bt := Kept(a), Kept(b);
            |at| == |bt| && forall j :: 0 <= j < |at| ==> SameLetter(a[at[j]], b[bt[j]])
  {
    hide SEPARATORS, Upper, NormalizeAwb, SameLetter, KeptAt;
    var at, bt := Kept(a), Kept(b);
    NormalizeAt(a);
    NormalizeAt(b);
    KeptInside(a, at);
    KeptInside(b, bt);
    if |at| == |bt| {
      forall j | 0 <= j < |at|
        ensures NormalizeAwb(a)[j] == NormalizeAwb(b)[j] <==> SameLetter(a[at[j]], b[bt[j]])
      {
        UpperSame(a[at[j]], b[bt[j]]);
      }
    }
  }
}
