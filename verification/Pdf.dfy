/** The single-page PDF writer (src/modules/booking-ops/pdf.ts) and a reader that undoes it. The input is
    text in UTF-16 code units; the file is in characters below 0x7F, so a character is a byte. */
module Pdf {
  import opened Wrappers
  import opened Decimal

  type Unit = u: int | 0 <= u < 0x10000

  // ---- Literal strings, section 7.3.4.2 of ISO 32000-1 --------------------------------------------------------

  /** `[^\x20-\x7E]` becomes a question mark, unit by unit. */
  function Flatten(text: seq<Unit>): (s: string)
    ensures |s| == |text|
  {
    if text == [] then ""
    else [if 0x20 <= text[0] <= 0x7E then text[0] as char else '?'] + Flatten(text[1..])
  }

  function ReplaceAll(s: string, c: char, put: string): string {
    if s == "" then "" else (if s[0] == c then put else [s[0]]) + ReplaceAll(s[1..], c, put)
  }

  /** The three successive replacements of the code. */
  function EscapeText(text: seq<Unit>): string {
    ReplaceAll(ReplaceAll(ReplaceAll(Flatten(text), '\\', "\\\\"), '(', "\\("), ')', "\\)")
  }

  predicate Special(c: char) {
    c == '\\' || c == '(' || c == ')'
  }

  /** One pass: a backslash before each delimiter. */
  function EscapeOnce(s: string): string {
    if s == "" then "" else (if Special(s[0]) then ['\\', s[0]] else [s[0]]) + EscapeOnce(s[1..])
  }

  lemma Associate(a: string, b: string, c: string)
    ensures a + (b + c) == a + b + c
  {
  }

  lemma {:induction false} ReplaceConcat(a: string, b: string, c: char, put: string)
    ensures ReplaceAll(a + b, c, put) == ReplaceAll(a, c, put) + ReplaceAll(b, c, put)
  {
    if a == "" {
      assert a + b == b;
    } else {
      ReplaceConcat(a[1..], b, c, put);
      assert (a + b)[1..] == a[1..] + b && (a + b)[0] == a[0];
      var head := if a[0] == c then put else [a[0]];
      Associate(head, ReplaceAll(a[1..], c, put), ReplaceAll(b, c, put));
    }
  }

  lemma ReplaceShort(a: char, b: char, c: char, put: string)
    ensures ReplaceAll([a], c, put) == if a == c then put else [a]
    ensures a != c && b != c ==> ReplaceAll([a, b], c, put) == [a, b]
    ensures a != c && b == c ==> ReplaceAll([a, b], c, put) == [a] + put
  {
    assert [a][1..] == "" && [a, b][1..] == [b] && [b][1..] == "";
  }

  /** The later replacements leave the backslashes of the earlier ones alone. */
  lemma {:induction false} ThreePassesAreOne(s: string)
    ensures ReplaceAll(ReplaceAll(ReplaceAll(s, '\\', "\\\\"), '(', "\\("), ')', "\\)") == EscapeOnce(s)
  {
    if s != "" {
      ThreePassesAreOne(s[1..]);
      var first := ReplaceAll(s[1..], '\\', "\\\\");
      var head1 := if s[0] == '\\' then "\\\\" else [s[0]];
      var head2 := if s[0] == '(' then "\\(" else head1;
      ReplaceConcat(head1, first, '(', "\\(");
      ReplaceConcat(head2, ReplaceAll(first, '(', "\\("), ')', "\\)");
      ReplaceShort(s[0], '\\', '(', "\\(");
      ReplaceShort(s[0], '\\', ')', "\\)");
      ReplaceShort('\\', '\\', '(', "\\(");
      ReplaceShort('\\', '\\', ')', "\\)");
      ReplaceShort('\\', '(', ')', "\\)");
    }
  }

  lemma EscapeIsOnePass(text: seq<Unit>)
    ensures EscapeText(text) == EscapeOnce(Flatten(text))
  {
    ThreePassesAreOne(Flatten(text));
  }

  function Unescape(c: char): char {
    match c
    case 'n' => '\n'
    case 'r' => '\r'
    case 't' => '\t'
    case 'b' => 8 as char
    case 'f' => 12 as char
    case _ => c
  }

  /** The text of a literal string after its opening parenthesis, and what follows it; parentheses balance. */
  function ReadLiteral(s: string, depth: nat): (r: (string, string))
    ensures |r.1| <= |s|
    decreases |s|
  {
    if s == "" then ("", "")
    else if s[0] == '\\' && |s| > 1 then var r := ReadLiteral(s[2..], depth); ([Unescape(s[1])] + r.0, r.1)
    else if s[0] == ')' && depth == 0 then ("", s[1..])
    else
      var r := ReadLiteral(s[1..], if s[0] == '(' then depth + 1 else if s[0] == ')' then depth - 1 else depth);
      ([s[0]] + r.0, r.1)
  }

  /** Every literal string of a content stream. */
  function ReadStrings(s: string): seq<string>
    decreases |s|
  {
    if s == "" then []
    else if s[0] == '(' then var r := ReadLiteral(s[1..], 0); [r.0] + ReadStrings(r.1)
    else ReadStrings(s[1..])
  }

  lemma ReadEscaped(c: char, tail: string)
    requires Special(c)
    ensures ReadLiteral(['\\', c] + tail, 0) == ([c] + ReadLiteral(tail, 0).0, ReadLiteral(tail, 0).1)
  {
    assert (['\\', c] + tail)[2..] == tail;
  }

  lemma ReadPlain(c: char, tail: string)
    requires !Special(c)
    ensures ReadLiteral([c] + tail, 0) == ([c] + ReadLiteral(tail, 0).0, ReadLiteral(tail, 0).1)
  {
    assert ([c] + tail)[1..] == tail;
  }

  lemma ReadEnd(rest: string)
    ensures ReadLiteral([')'] + rest, 0) == ("", rest)
  {
    assert ([')'] + rest)[1..] == rest;
  }

  lemma {:induction false} LiteralRoundTrip(text: string, rest: string)
    ensures ReadLiteral(EscapeOnce(text) + ")" + rest, 0) == (text, rest)
  {
    hide ReadLiteral, Special;
    if text == "" {
      assert "" + ")" + rest == [')'] + rest;
      ReadEnd(rest);
    } else {
      LiteralRoundTrip(text[1..], rest);
      var tail := EscapeOnce(text[1..]) + ")" + rest;
      var head := if Special(text[0]) then ['\\', text[0]] else [text[0]];
      assert EscapeOnce(text) + ")" + rest == head + tail;
      if Special(text[0]) {
        ReadEscaped(text[0], tail);
      } else {
        ReadPlain(text[0], tail);
      }
      assert text == [text[0]] + text[1..];
    }
  }

  lemma {:induction false} SkipPlain(plain: string, rest: string)
    requires '(' !in plain
    ensures ReadStrings(plain + rest) == ReadStrings(rest)
  {
    if plain == "" {
      assert plain + rest == rest;
    } else {
      SkipPlain(plain[1..], rest);
      assert (plain + rest)[1..] == plain[1..] + rest;
    }
  }

  // ---- The content stream -------------------------------------------------------------------------------------

  const SETUP := ["BT", "/F1 14 Tf", "20 TL", "50 782 Td"]
  const SETUP_TEXT := "BT\n/F1 14 Tf\n20 TL\n50 782 Td\n"

  function ShowPart(line: seq<Unit>): string {
    "(" + EscapeText(line) + ") Tj"
  }

  /** `parts` before the closing ET. */
  function Parts(lines: seq<seq<Unit>>): seq<string> {
    if lines == [] then SETUP
    else
      var n := |lines| - 1;
      Parts(lines[..n]) + (if n > 0 then ["T*"] else []) + [ShowPart(lines[n])]
  }

  /** `parts.join('\n')` */
  function Join(parts: seq<string>): string {
    if parts == [] then "" else if |parts| == 1 then parts[0]
       else Join(parts[..|parts| - 1]) + "\n" + parts[|parts| - 1]
  }

  function StreamOf(lines: seq<seq<Unit>>): string {
    Join(Parts(lines) + ["ET"]) + "\n"
  }

  /** contentStream. */
  method ContentStream(lines: seq<seq<Unit>>) returns (stream: string)
    ensures stream == StreamOf(lines)
  {
    hide EscapeText, Join;
    var parts := SETUP;
    var i := 0;
    while i < |lines|
      invariant 0 <= i <= |lines|
      invariant parts == Parts(lines[..i])
    {
      assert lines[..i + 1][..i] == lines[..i];
      if i > 0 {
        parts := parts + ["T*"];
      }
      parts := parts + [ShowPart(lines[i])];
      i := i + 1;
    }
    assert lines[..i] == lines;
    parts := parts + ["ET"];
    stream := Join(parts) + "\n";
  }

  lemma JoinSnoc(parts: seq<string>, part: string)
    requires parts != []
    ensures Join(parts + [part]) == Join(parts) + "\n" + part
  {
    assert (parts + [part])[..|parts|] == parts;
  }

  function ShowLine(first: bool, line: seq<Unit>): string {
    (if first then "(" else "T*\n(") + EscapeText(line) + ") Tj\n"
  }

  /** What the stream shows, line by line. */
  function Shown(lines: seq<seq<Unit>>): string {
    if lines == [] then SETUP_TEXT
    else
      var n := |lines| - 1;
      Shown(lines[..n]) + ShowLine(n == 0, lines[n])
  }

  lemma JoinFour(a: string, b: string, c: string, d: string)
    ensures Join([a, b, c, d]) == a + "\n" + b + "\n" + c + "\n" + d
  {
    assert [a, b, c, d] == [a] + [b] + [c] + [d];
    JoinSnoc([a] + [b] + [c], d);
    JoinSnoc([a] + [b], c);
    JoinSnoc([a], b);
  }

  lemma JoinSetup()
    ensures Join(SETUP) + "\n" == SETUP_TEXT
  {
    hide Join;
    JoinFour("BT", "/F1 14 Tf", "20 TL", "50 782 Td");
  }

  /** The parts with one line more. */
  lemma JoinOneMore(front: seq<string>, first: bool, line: seq<Unit>, text: string)
    requires front != [] && Join(front) + "\n" == text
    ensures Join(front + (if first then [] else ["T*"]) + [ShowPart(line)]) + "\n" == text + ShowLine(first, line)
  {
    hide EscapeText, Join, ShowPart, ShowLine;
    PartIsLine(first, line);
    var show := ShowPart(line);
    if first {
      assert front + [] + [show] == front + [show];
      JoinSnoc(front, show);
    } else {
      JoinSnoc(front, "T*");
      JoinSnoc(front + ["T*"], show);
    }
  }

  lemma {:induction false} JoinShown(lines: seq<seq<Unit>>)
    ensures Parts(lines) != [] && Join(Parts(lines)) + "\n" == Shown(lines)
  {
    hide EscapeText, Join, ShowPart, ShowLine;
    if lines == [] {
      JoinSetup();
    } else {
      var n := |lines| - 1;
      JoinShown(lines[..n]);
      JoinOneMore(Parts(lines[..n]), n == 0, lines[n], Shown(lines[..n]));
      assert Parts(lines) == Parts(lines[..n]) + (if n == 0 then [] else ["T*"]) + [ShowPart(lines[n])];
    }
  }

  lemma PartIsLine(first: bool, line: seq<Unit>)
    ensures ShowLine(first, line) == (if first then "" else "T*\n") + (ShowPart(line) + "\n")
  {
    hide EscapeText;
    assert EscapeText(line) + ") Tj" + "\n" == EscapeText(line) + ") Tj\n";
    assert "T*\n" + "(" == "T*\n(";
  }

  lemma StreamShown(lines: seq<seq<Unit>>)
    ensures StreamOf(lines) == Shown(lines) + "ET\n"
  {
    JoinShown(lines);
    JoinSnoc(Parts(lines), "ET");
    hide Join, Parts, Shown;
    assert Join(Parts(lines)) + "\n" + "ET" + "\n" == Join(Parts(lines)) + "\n" + "ET\n";
  }

  function FlattenAll(lines: seq<seq<Unit>>): seq<string> {
    seq(|lines|, i requires 0 <= i < |lines| => Flatten(lines[i]))
  }

  lemma ReadLine(first: bool, line: seq<Unit>, rest: string)
    ensures ReadStrings(ShowLine(first, line) + rest) == [Flatten(line)] + ReadStrings(rest)
  {
    EscapeIsOnePass(line);
    LiteralRoundTrip(Flatten(line), " Tj\n" + rest);
    hide EscapeText, EscapeOnce, ReadLiteral;
    var step, text := if first then "" else "T*\n", EscapeText(line);
    var after := text + ")" + (" Tj\n" + rest);
    assert ShowLine(first, line) + rest == step + ("(" + after) by {
      hide ReadStrings;
      assert "T*\n(" == "T*\n" + "(" && ") Tj\n" == ")" + " Tj\n";
      Regroup(step, "(", text, ")", " Tj\n", rest);
    }
    SkipPlain(step, "(" + after);
    assert ("(" + after)[1..] == after;
    SkipPlain(" Tj\n", rest);
  }

  lemma Regroup(step: string, open: string, text: string, close: string, show: string, rest: string)
    ensures (step + open) + text + (close + show) + rest == step + (open + (text + close + (show + rest)))
  {
  }

  lemma {:induction false} ReadShown(lines: seq<seq<Unit>>, rest: string)
    ensures ReadStrings(Shown(lines) + rest) == FlattenAll(lines) + ReadStrings(rest)
  {
    hide ReadStrings, ShowLine;
    if lines == [] {
      SkipPlain(SETUP_TEXT, rest);
      assert FlattenAll(lines) == [];
    } else {
      var n := |lines| - 1;
      assert Shown(lines) + rest == Shown(lines[..n]) + (ShowLine(n == 0, lines[n]) + rest);
      ReadShown(lines[..n], ShowLine(n == 0, lines[n]) + rest);
      ReadLine(n == 0, lines[n], rest);
      assert FlattenAll(lines) == FlattenAll(lines[..n]) + [Flatten(lines[n])];
    }
  }

  // ---- Where the lines stand ----------------------------------------------------------------------------------

  /** Every literal string of a content stream with its baseline: `T*` outside a string moves down by the leading,
      20 units. */
  function ReadPlaced(s: string, y: int): seq<(int, string)>
    decreases |s|
  {
    if s == "" then []
    else if s[0] == '(' then var r := ReadLiteral(s[1..], 0); [(y, r.0)] + ReadPlaced(r.1, y)
    else if |s| > 1 && s[0] == 'T' && s[1] == '*' then ReadPlaced(s[2..], y - 20)
    else ReadPlaced(s[1..], y)
  }

  lemma {:induction false} PlacedSkips(plain: string, rest: string, y: int)
    requires '(' !in plain && '*' !in plain && (rest == "" || rest[0] != '*')
    ensures ReadPlaced(plain + rest, y) == ReadPlaced(rest, y)
  {
    if plain == "" {
      assert plain + rest == rest;
    } else {
      PlacedSkips(plain[1..], rest, y);
      assert (plain + rest)[1..] == plain[1..] + rest;
      assert |plain| > 1 ==> plain[1] in plain;
    }
  }

  lemma PlacedString(line: seq<Unit>, rest: string, y: int)
    requires rest == "" || rest[0] != '*'
    ensures ReadPlaced("(" + EscapeText(line) + ") Tj\n" + rest, y) == [(y, Flatten(line))] + ReadPlaced(rest, y)
  {
    EscapeIsOnePass(line);
    LiteralRoundTrip(Flatten(line), " Tj\n" + rest);
    hide EscapeText, EscapeOnce, ReadLiteral;
    var text := EscapeText(line);
    var after := text + ")" + (" Tj\n" + rest);
    assert "(" + text + ") Tj\n" + rest == "(" + after by {
      hide ReadPlaced;
      assert ") Tj\n" == ")" + " Tj\n";
      Regroup("", "(", text, ")", " Tj\n", rest);
      assert "" + "(" == "(" && "" + ("(" + after) == "(" + after;
    }
    assert ("(" + after)[1..] == after;
    PlacedSkips(" Tj\n", rest, y);
  }

  lemma PlacedLine(first: bool, line: seq<Unit>, rest: string, y: int)
    requires rest == "" || rest[0] != '*'
    ensures var at := if first then y else y - 20;
            ReadPlaced(ShowLine(first, line) + rest, y) == [(at, Flatten(line))] + ReadPlaced(rest, at)
  {
    hide EscapeText;
    var shown := "(" + EscapeText(line) + ") Tj\n" + rest;
    if first {
      PlacedString(line, rest, y);
      assert ShowLine(first, line) + rest == shown;
    } else {
      PlacedString(line, rest, y - 20);
      assert "T*\n(" == "T*\n" + "(";
      assert ShowLine(first, line) + rest == "T*\n" + shown;
      assert ("T*\n" + shown)[2..] == "\n" + shown;
      PlacedSkips("\n", shown, y - 20);
    }
  }

  function Placed(lines: seq<seq<Unit>>): seq<(int, string)> {
    seq(|lines|, i requires 0 <= i < |lines| => (782 - 20 * i, Flatten(lines[i])))
  }

  lemma {:induction false} PlacedShown(lines: seq<seq<Unit>>, rest: string)
    requires rest == "" || rest[0] != '*'
    ensures ReadPlaced(Shown(lines) + rest, 782)
            == Placed(lines) + ReadPlaced(rest, if lines == [] then 782 else 782 - 20 * (|lines| - 1))
  {
    hide ReadPlaced, ShowLine;
    if lines == [] {
      PlacedSkips(SETUP_TEXT, rest, 782);
    } else {
      var n := |lines| - 1;
      var line := ShowLine(n == 0, lines[n]);
      assert Shown(lines) + rest == Shown(lines[..n]) + (line + rest);
      LineStarts(n == 0, lines[n]);
      PlacedShown(lines[..n], line + rest);
      PlacedLine(n == 0, lines[n], rest, if n == 0 then 782 else 782 - 20 * (n - 1));
      assert Placed(lines) == Placed(lines[..n]) + [(782 - 20 * n, Flatten(lines[n]))];
    }
  }

  lemma LineStarts(first: bool, line: seq<Unit>)
    ensures ShowLine(first, line) != "" && ShowLine(first, line)[0] != '*'
  {
  }

  /** The i-th line stands 20 units times i below the first, in the order given; every printable character is
      itself and every other unit a question mark. The stream opens with the font, the leading and the origin. */
  lemma LinesArePlaced(lines: seq<seq<Unit>>)
    ensures var placed := ReadPlaced(StreamOf(lines), 782);
            && |placed| == |lines|
            && forall i :: 0 <= i < |lines| ==>
                 && placed[i].0 == 782 - 20 * i && |placed[i].1| == |lines[i]|
                 && forall j :: 0 <= j < |lines[i]| ==>
                      placed[i].1[j] == if ' ' as int <= lines[i][j] <= '~' as int then lines[i][j] as char else '?'
    ensures "BT\n/F1 14 Tf\n20 TL\n50 782 Td\n" <= StreamOf(lines)
  {
    hide ReadPlaced, Shown, ShowLine;
    StreamShown(lines);
    PlacedShown(lines, "ET\n");
    NothingPlaced(if lines == [] then 782 else 782 - 20 * (|lines| - 1));
    ShownStarts(lines);
    hide StreamOf;
    forall i | 0 <= i < |lines|
      ensures forall j :: 0 <= j < |lines[i]| ==>
                Flatten(lines[i])[j] == if 0x20 <= lines[i][j] <= 0x7E then lines[i][j] as char else '?'
    {
      FlattenAt(lines[i]);
    }
  }

  lemma NothingPlaced(y: int)
    ensures ReadPlaced("ET\n", y) == []
  {
    assert "ET\n" + "" == "ET\n";
    PlacedSkips("ET\n", "", y);
  }

  lemma {:induction false} ShownStarts(lines: seq<seq<Unit>>)
    ensures SETUP_TEXT <= Shown(lines)
  {
    hide ShowLine;
    if lines != [] {
      ShownStarts(lines[..|lines| - 1]);
    }
  }

  lemma {:induction false} FlattenAt(text: seq<Unit>)
    ensures forall j :: 0 <= j < |text| ==>
              Flatten(text)[j] == if 0x20 <= text[j] <= 0x7E then text[j] as char else '?'
  {
    if text != [] {
      FlattenAt(text[1..]);
      forall j | 0 < j < |text|
        ensures Flatten(text)[j] == if 0x20 <= text[j] <= 0x7E then text[j] as char else '?'
      {
        assert Flatten(text)[j] == Flatten(text[1..])[j - 1] && text[1..][j - 1] == text[j];
      }
    }
  }

  // ---- The file -----------------------------------------------------------------------------------------------

  const HEADER := "%PDF-1.4\n"
  const CATALOG := "<< /Type /Catalog /Pages 2 0 R >>"
  const PAGES := "<< /Type /Pages /Kids [3 0 R] /Count 1 >>"
  const PAGE :=
        "<< /Type /Page /Parent 2 0 R /MediaBox [0 0 595 842] /Resources << /Font << /F1 4 0 R >> >> /Contents 5 0 R >>"
  const FONT := "<< /Type /Font /Subtype /Type1 /BaseFont /Helvetica >>"

  const LENGTH := "<< /Length "
  const STREAM_MID := " >>\nstream\n"
  const STREAM_END := "endstream"
  const END_OBJECT := "\nendobj\n"

  function StreamObject(stream: string): string {
    LENGTH + Print(|stream|) + STREAM_MID + stream + STREAM_END
  }

  function Objects(stream: string): seq<string> {
    [CATALOG, PAGES, PAGE, FONT, StreamObject(stream)]
  }

  function ObjectHeader(i: nat): string {
    Print(i + 1) + " 0 obj\n"
  }

  function Body(objects: seq<string>): string {
    if objects == [] then HEADER
    else
      var n := |objects| - 1;
      Body(objects[..n]) + (ObjectHeader(n) + objects[n] + END_OBJECT)
  }

  function Offsets(objects: seq<string>): seq<nat> {
    seq(|objects|, i requires 0 <= i < |objects| => |Body(objects[..i])|)
  }

  function Entry(offset: nat): string {
    PadStart(Print(offset), 10) + " 00000 n \n"
  }

  function Entries(offsets: seq<nat>): string {
    if offsets == [] then "" else Entries(offsets[..|offsets| - 1]) + Entry(offsets[|offsets| - 1])
  }

  const FREE_ENTRY := "0000000000 65535 f \n"

  function XrefHead(n: nat): string {
    "xref\n0 " + Print(n + 1) + "\n" + FREE_ENTRY
  }

  function Xref(offsets: seq<nat>): string {
    XrefHead(|offsets|) + Entries(offsets)
  }

  function Trailer(size: nat, xrefStart: nat): string {
    "trailer\n<< /Size " + Print(size) + " /Root 1 0 R >>\nstartxref\n" + Print(xrefStart) + "\n%%EOF\n"
  }

  function FileOf(objects: seq<string>): string {
    Body(objects) + Xref(Offsets(objects)) + Trailer(|objects| + 1, |Body(objects)|)
  }

  /** The loop over the objects: each is appended, its offset noted before. */
  method WriteObjects(objects: seq<string>) returns (body: string, offsets: seq<nat>)
    ensures body == Body(objects) && offsets == Offsets(objects)
  {
    hide Print, ObjectHeader;
    body, offsets := HEADER, [];
    var i := 0;
    while i < |objects|
      invariant 0 <= i <= |objects|
      invariant body == Body(objects[..i])
      invariant |offsets| == i && forall j :: 0 <= j < i ==> offsets[j] == |Body(objects[..j])|
    {
      assert objects[..i + 1][..i] == objects[..i];
      offsets := offsets + [|body|];
      body := body + (ObjectHeader(i) + objects[i] + END_OBJECT);
      i := i + 1;
    }
    assert objects[..i] == objects;
  }

  method WriteXref(offsets: seq<nat>) returns (xref: string)
    ensures xref == Xref(offsets)
  {
    hide Print, Entry;
    xref := "xref\n0 " + Print(|offsets| + 1) + "\n" + FREE_ENTRY;
    ghost var head := xref;
    var i := 0;
    while i < |offsets|
      invariant 0 <= i <= |offsets|
      invariant xref == head + Entries(offsets[..i])
    {
      assert offsets[..i + 1][..i] == offsets[..i];
      xref := xref + Entry(offsets[i]);
      i := i + 1;
    }
    assert offsets[..i] == offsets;
  }

  /** buildSinglePagePdf. */
  method BuildSinglePagePdf(lines: seq<seq<Unit>>) returns (file: string)
    ensures file == FileOf(Objects(StreamOf(lines)))
  {
    hide StreamOf, Trailer, Xref, StreamObject, Body, Offsets;
    var stream := ContentStream(lines);
    var objects := Objects(stream);
    var body, offsets := WriteObjects(objects);
    var xref := WriteXref(offsets);
    file := body + xref + Trailer(|objects| + 1, |body|);
  }

  // ---- The cross-reference table, sections 7.5.4 and 7.5.5 of ISO 32000-1 -------------------------------------

  /** `text` stands in `file` at `at`. */
  predicate StandsAt(file: string, at: nat, text: string) {
    at + |text| <= |file| && file[at..at + |text|] == text
  }

  lemma {:induction false} EntriesLength(offsets: seq<nat>)
    requires forall i :: 0 <= i < |offsets| ==> offsets[i] < Pow10(10)
    ensures |Entries(offsets)| == 20 * |offsets|
    ensures forall i :: 0 <= i < |offsets| ==> StandsAt(Entries(offsets), 20 * i, Entry(offsets[i]))
  {
    hide Entry, Pow10, StandsAt;
    if offsets != [] {
      var n := |offsets| - 1;
      EntriesLength(offsets[..n]);
      EntryLength(offsets[n]);
      var front, last := Entries(offsets[..n]), Entry(offsets[n]);
      AtEnd(front, last);
      forall i | 0 <= i < n
        ensures StandsAt(Entries(offsets), 20 * i, Entry(offsets[i]))
      {
        assert offsets[..n][i] == offsets[i];
        AtFront(front, last, 20 * i, Entry(offsets[i]));
      }
    }
  }

  lemma AtEnd(front: string, last: string)
    ensures StandsAt(front + last, |front|, last)
  {
  }

  lemma AtFront(front: string, last: string, at: nat, text: string)
    requires StandsAt(front, at, text)
    ensures StandsAt(front + last, at, text)
  {
  }

  lemma EntryLength(offset: nat)
    requires offset < Pow10(10)
    ensures |Entry(offset)| == 20 && AllDigits(Entry(offset)[..10]) && Value(Entry(offset)[..10]) == offset
  {
    PrintLength(offset, 10);
    ValueOfPadStart(Print(offset), 10);
    ValueOfPrint(offset);
    assert Entry(offset)[..10] == PadStart(Print(offset), 10);
  }

  lemma {:induction false} HeaderAtOffset(objects: seq<string>, i: nat)
    requires i < |objects|
    ensures StandsAt(Body(objects), |Body(objects[..i])|, ObjectHeader(i) + objects[i] + END_OBJECT)
  {
    hide ObjectHeader;
    var n := |objects| - 1;
    if i < n {
      HeaderAtOffset(objects[..n], i);
      assert objects[..n][..i] == objects[..i];
    }
  }

  lemma {:induction false} OffsetsBelowBody(objects: seq<string>, i: nat)
    requires i <= |objects|
    ensures |Body(objects[..i])| <= |Body(objects)|
  {
    hide ObjectHeader;
    if i == |objects| {
      assert objects[..i] == objects;
    } else {
      var n := |objects| - 1;
      OffsetsBelowBody(objects[..n], i);
      assert objects[..n][..i] == objects[..i];
    }
  }

  lemma XrefStands(objects: seq<string>)
    ensures StandsAt(FileOf(objects), |Body(objects)|, XrefHead(|objects|))
  {
    hide Body, Print, Entries, Trailer, XrefHead;
    assert Xref(Offsets(objects)) == "" + XrefHead(|objects|) + Entries(Offsets(objects));
    Deeper(Xref(Offsets(objects)), "", XrefHead(|objects|), Entries(Offsets(objects)), 0, XrefHead(|objects|));
    Deeper(FileOf(objects), Body(objects), Xref(Offsets(objects)), Trailer(|objects| + 1, |Body(objects)|), 0,
           XrefHead(|objects|));
  }

  lemma EntryStands(objects: seq<string>, i: nat)
    requires i < |objects| && forall j :: 0 <= j < |objects| ==> |Body(objects[..j])| < Pow10(10)
    ensures StandsAt(FileOf(objects), |Body(objects)| + (|XrefHead(|objects|)| + 20 * i), Entry(|Body(objects[..i])|))
  {
    hide Body, Trailer, XrefHead, Entry, Pow10;
    var offsets := Offsets(objects);
    EntriesLength(offsets);
    assert offsets[i] == |Body(objects[..i])| && |offsets| == |objects|;
    hide Offsets, Entries;
    assert Xref(offsets) == XrefHead(|objects|) + Entries(offsets) + "";
    Deeper(Xref(offsets), XrefHead(|objects|), Entries(offsets), "", 20 * i, Entry(offsets[i]));
    Deeper(FileOf(objects), Body(objects), Xref(offsets), Trailer(|objects| + 1, |Body(objects)|),
           |XrefHead(|objects|)| + 20 * i, Entry(offsets[i]));
  }

  lemma ObjectStands(objects: seq<string>, i: nat)
    requires i < |objects|
    ensures StandsAt(FileOf(objects), |Body(objects[..i])|, ObjectHeader(i) + objects[i] + END_OBJECT)
  {
    HeaderAtOffset(objects, i);
    var trailer := Trailer(|objects| + 1, |Body(objects)|);
    hide Body, Trailer, Xref, ObjectHeader;
    Associate(Body(objects), Xref(Offsets(objects)), trailer);
    Associate("", Body(objects), Xref(Offsets(objects)) + trailer);
    Deeper(FileOf(objects), "", Body(objects), Xref(Offsets(objects)) + trailer, |Body(objects[..i])|,
           ObjectHeader(i) + objects[i] + END_OBJECT);
  }

  /** Every entry is 20 bytes and points at the header of its object. */
  lemma XrefIsRight(objects: seq<string>, i: nat)
    requires i < |objects| && forall j :: 0 <= j < |objects| ==> |Body(objects[..j])| < Pow10(10)
    ensures var file, offset := FileOf(objects), |Body(objects[..i])|;
            && |Entry(offset)| == 20 && Value(Entry(offset)[..10]) == offset
            && StandsAt(file, |Body(objects)| + (|XrefHead(|objects|)| + 20 * i), Entry(offset))
            && StandsAt(file, offset, ObjectHeader(i) + objects[i] + END_OBJECT)
            && StandsAt(file, |Body(objects)|, XrefHead(|objects|))
  {
    hide Print, PadStart, Pow10, Body, ObjectHeader, Value, FileOf, XrefHead, StandsAt, Entry;
    EntryLength(|Body(objects[..i])|);
    EntryStands(objects, i);
    ObjectStands(objects, i);
    XrefStands(objects);
  }

  /** What stands in a part stands in the whole. */
  lemma Deeper(whole: string, before: string, part: string, after: string, at: nat, text: string)
    requires whole == before + part + after && StandsAt(part, at, text)
    ensures StandsAt(whole, |before| + at, text)
  {
  }

  // ---- The offsets of this file -------------------------------------------------------------------------------

  lemma PrintSmall(d: nat)
    requires d < 10
    ensures Print(d) == [Digit(d)] && |Print(d)| == 1
  {
  }

  lemma {:induction false} BodyShort(objects: seq<string>)
    requires |objects| <= 4 && forall i :: 0 <= i < |objects| ==> |objects[i]| < 200
    ensures |Body(objects)| <= 9 + 300 * |objects|
  {
    if objects != [] {
      BodyShort(objects[..|objects| - 1]);
      PrintSmall(|objects|);
      hide Print;
    }
  }

  /** All five objects start before the text does, so no offset outgrows its ten digits. */
  lemma OffsetsFit(stream: string, j: nat)
    requires j < 5
    ensures |Body(Objects(stream)[..j])| < Pow10(10)
  {
    hide Body, StreamObject;
    BodyShort(Objects(stream)[..j]);
    assert Pow10(4) == 10 * Pow10(3) && Pow10(3) == 10 * Pow10(2) && Pow10(2) == 10 * Pow10(1)
           && Pow10(1) == 10 * Pow10(0);
    Pow10Monotone(4, 10);
  }

  /** For every list of lines: each entry of the table is 20 bytes and its offset lands on the header of its
      object, startxref lands on the table, and /Length is the byte count of the stream. */
  lemma FileIsSound(lines: seq<seq<Unit>>, i: nat)
    requires i < 5
    ensures var stream := StreamOf(lines);
            var objects := Objects(stream);
            var file, offset, start := FileOf(objects), |Body(objects[..i])|, |Body(objects)|;
            && |Entry(offset)| == 20 && StandsAt(file, start + (|XrefHead(5)| + 20 * i), Entry(offset))
            && AllDigits(Entry(offset)[..10]) && Value(Entry(offset)[..10]) == offset
            && StandsAt(file, offset, ObjectHeader(i) + objects[i] + END_OBJECT)
            && StandsAt(file, start, XrefHead(5))
            && |file| >= |Print(start)| + 17
            && file[|file| - |Print(start)| - 17..] == "startxref\n" + Print(start) + "\n%%EOF\n"
            && objects[4] == LENGTH + Print(|stream|) + STREAM_MID + stream + STREAM_END
  {
    hide StreamOf, Body, Entry, ObjectHeader, Print, Value, Pow10;
    var objects := Objects(StreamOf(lines));
    forall j | 0 <= j < 5
      ensures |Body(objects[..j])| < Pow10(10)
    {
      OffsetsFit(StreamOf(lines), j);
    }
    XrefIsRight(objects, i);
    EntryLength(|Body(objects[..i])|);
    TailOf(objects);
  }

  lemma TailOf(objects: seq<string>)
    ensures var file, start := FileOf(objects), |Body(objects)|;
            && |file| >= |Print(start)| + 17
            && file[|file| - |Print(start)| - 17..] == "startxref\n" + Print(start) + "\n%%EOF\n"
  {
    hide Body, Xref, Offsets, Print;
    var start := |Body(objects)|;
    var lead := "trailer\n<< /Size " + Print(|objects| + 1) + " /Root 1 0 R >>\n";
    var tail := "startxref\n" + Print(start) + "\n%%EOF\n";
    assert " /Root 1 0 R >>\nstartxref\n" == " /Root 1 0 R >>\n" + "startxref\n";
    assert Trailer(|objects| + 1, start) == lead + tail;
    assert FileOf(objects) == (Body(objects) + Xref(Offsets(objects)) + lead) + tail;
  }

  // ---- A reader -----------------------------------------------------------------------------------------------

  function DigitsFrom(s: string): (d: string)
    ensures AllDigits(d) && |d| <= |s|
  {
    if s == "" || !IsDigit(s[0]) then "" else [s[0]] + DigitsFrom(s[1..])
  }

  function DigitsBefore(s: string): (d: string)
    ensures AllDigits(d)
  {
    if s == "" || !IsDigit(s[|s| - 1]) then "" else DigitsBefore(s[..|s| - 1]) + [s[|s| - 1]]
  }

  lemma {:induction false} DigitsFromIs(d: string, rest: string)
    requires AllDigits(d) && (rest == "" || !IsDigit(rest[0]))
    ensures DigitsFrom(d + rest) == d
  {
    if d == "" {
      assert d + rest == rest;
    } else {
      DigitsFromIs(d[1..], rest);
      assert (d + rest)[1..] == d[1..] + rest;
    }
  }

  lemma {:induction false} DigitsBeforeIs(front: string, d: string)
    requires AllDigits(d) && (front == "" || !IsDigit(front[|front| - 1]))
    ensures DigitsBefore(front + d) == d
  {
    if d == "" {
      assert front + d == front;
    } else {
      DigitsBeforeIs(front, d[..|d| - 1]);
      assert (front + d)[..|front + d| - 1] == front + d[..|d| - 1];
    }
  }

  const STREAM_LEAD := "5 0 obj\n" + LENGTH

  /** After `mid`, `n` bytes; then `end`. */
  function Take(file: string, at: nat, mid: string, n: nat, end: string): Option<string> {
    if !StandsAt(file, at, mid) || !StandsAt(file, at + |mid| + n, end) then None
       else Some(file[at + |mid|..at + |mid| + n])
  }

  /** After `lead`, a number; after `mid`, as many bytes as it says; then `end`. */
  function ReadCounted(file: string, at: nat, lead: string, mid: string, end: string): Option<string> {
    if !StandsAt(file, at, lead) then None
    else
      var digits := DigitsFrom(file[at + |lead|..]);
      Take(file, at + |lead| + |digits|, mid, Value(digits), end)
  }

  /** The data of the stream object at `offset`: as many bytes as /Length says. */
  function ReadStream(file: string, offset: nat): Option<string> {
    ReadCounted(file, offset, STREAM_LEAD, STREAM_MID, STREAM_END)
  }

  /** From the end of the file: startxref, the table's entry for object 5, its stream, the strings in it. */
  function ReadPdf(file: string): Option<seq<string>> {
    if |file| < 7 || file[|file| - 7..] != "\n%%EOF\n" then None
    else
      var start := Value(DigitsBefore(file[..|file| - 7]));
      if !StandsAt(file, start, "xref\n0 6\n") || start + 119 > |file| || !AllDigits(file[start + 109..start + 119])
         then None
      else
        var stream := ReadStream(file, Value(file[start + 109..start + 119]));
        if stream.None? then None else Some(ReadStrings(stream.value))
  }

  lemma Header5()
    ensures ObjectHeader(4) == "5 0 obj\n"
  {
    PrintSmall(5);
  }

  lemma ObjectText(stream: string)
    ensures ObjectHeader(4) + StreamObject(stream) + END_OBJECT
            == STREAM_LEAD + Print(|stream|) + (STREAM_MID + stream + (STREAM_END + END_OBJECT))
  {
    hide Print, ObjectHeader;
    Header5();
    RegroupObject("5 0 obj\n", LENGTH, Print(|stream|), STREAM_MID, stream, STREAM_END, END_OBJECT);
  }

  lemma RegroupObject(a: string, b: string, c: string, d: string, e: string, f: string, g: string)
    ensures a + (b + c + d + e + f) + g == (a + b) + c + (d + e + (f + g))
  {
  }

  lemma SliceOfSlice(s: string, lo: nat, hi: nat, i: nat, j: nat)
    requires lo <= hi <= |s| && i <= j <= hi - lo
    ensures s[lo..hi][i..j] == s[lo + i..lo + j]
  {
    var a, b := s[lo..hi][i..j], s[lo + i..lo + j];
    assert |a| == |b|;
    forall k | 0 <= k < |a|
      ensures a[k] == b[k]
    {
      assert a[k] == s[lo..hi][i + k] == s[lo + (i + k)];
      assert b[k] == s[lo + i + k];
    }
  }

  lemma PartsStand(file: string, at: nat, a: string, b: string, c: string)
    requires StandsAt(file, at, a + b + c)
    ensures StandsAt(file, at, a) && StandsAt(file, at + |a|, b) && StandsAt(file, at + |a| + |b|, c)
  {
    var text := a + b + c;
    SliceOfSlice(file, at, at + |text|, 0, |a|);
    SliceOfSlice(file, at, at + |text|, |a|, |a| + |b|);
    SliceOfSlice(file, at, at + |text|, |a| + |b|, |text|);
    assert text[0..|a|] == a && text[|a|..|a| + |b|] == b && text[|a| + |b|..|text|] == c;
  }

  lemma TakeBack(file: string, at: nat, mid: string, data: string, end: string, tail: string)
    requires StandsAt(file, at, mid + data + (end + tail))
    ensures Take(file, at, mid, |data|, end) == Some(data)
  {
    PartsStand(file, at, mid, data, end + tail);
    assert end + tail + "" == end + tail;
    PartsStand(file, at + |mid| + |data|, end, tail, "");
  }

  lemma DigitsReadBack(file: string, at: nat, lead: string, digits: string, rest: string)
    requires StandsAt(file, at, lead + digits + rest) && AllDigits(digits) && rest != "" && !IsDigit(rest[0])
    ensures StandsAt(file, at, lead) && DigitsFrom(file[at + |lead|..]) == digits
    ensures StandsAt(file, at + |lead| + |digits|, rest)
  {
    PartsStand(file, at, lead, digits, rest);
    var digitsAt := at + |lead|;
    assert file[digitsAt..] == digits + file[digitsAt + |digits|..];
    assert file[digitsAt + |digits|] == file[digitsAt + |digits|..digitsAt + |digits| + |rest|][0];
    DigitsFromIs(digits, file[digitsAt + |digits|..]);
  }

  lemma CountedReadBack(file: string, at: nat, lead: string, mid: string, data: string, end: string, tail: string)
    requires StandsAt(file, at, lead + Print(|data|) + (mid + data + (end + tail)))
    requires mid != "" && !IsDigit(mid[0])
    ensures ReadCounted(file, at, lead, mid, end) == Some(data)
  {
    hide Print, Value, StandsAt, DigitsFrom, Take;
    var digits, rest := Print(|data|), mid + data + (end + tail);
    assert rest[0] == mid[0];
    ValueOfPrint(|data|);
    DigitsReadBack(file, at, lead, digits, rest);
    TakeBack(file, at + |lead| + |digits|, mid, data, end, tail);
  }

  lemma StartReadBack(file: string, start: nat)
    requires |file| >= |Print(start)| + 17
    requires file[|file| - |Print(start)| - 17..] == "startxref\n" + Print(start) + "\n%%EOF\n"
    ensures file[|file| - 7..] == "\n%%EOF\n" && DigitsBefore(file[..|file| - 7]) == Print(start)
  {
    var digits := Print(start);
    hide Print;
    var at := |file| - |digits| - 17;
    assert StandsAt(file, at, "startxref\n" + digits + "\n%%EOF\n");
    PartsStand(file, at, "startxref\n", digits, "\n%%EOF\n");
    assert file[..|file| - 7] == file[..at + 10] + digits;
    assert file[..at + 10][at + 9] == file[at..at + 10][9];
    DigitsBeforeIs(file[..at + 10], digits);
  }

  lemma XrefHeadIs()
    ensures XrefHead(5) == "xref\n0 6\n" + FREE_ENTRY && |XrefHead(5)| == 29
  {
    PrintSmall(6);
    hide Print;
    assert "xref\n0 6\n" == "xref\n0 " + "6" + "\n";
  }

  /** The pieces of the file where the reader looks for them. */
  lemma ReadPieces(file: string, start: nat, offset: nat, stream: string)
    requires |file| >= |Print(start)| + 17
    requires file[|file| - |Print(start)| - 17..] == "startxref\n" + Print(start) + "\n%%EOF\n"
    requires StandsAt(file, start, XrefHead(5)) && |Entry(offset)| == 20 && StandsAt(file, start + 109, Entry(offset))
    requires AllDigits(Entry(offset)[..10]) && Value(Entry(offset)[..10]) == offset
    requires ReadStream(file, offset) == Some(stream)
    ensures ReadPdf(file) == Some(ReadStrings(stream))
  {
    StartReadBack(file, start);
    ValueOfPrint(start);
    XrefHeadIs();
    hide Print, Value, Entry, ReadStream, ReadStrings, DigitsBefore, XrefHead;
    assert "xref\n0 6\n" + FREE_ENTRY + "" == XrefHead(5);
    PartsStand(file, start, "xref\n0 6\n", FREE_ENTRY, "");
    assert file[start + 109..start + 119] == Entry(offset)[..10];
  }

  /** The writer and the reader undo each other, for every list of lines: what comes back is the input with
      its unprintable units replaced. */
  lemma ReadBack(lines: seq<seq<Unit>>)
    ensures ReadPdf(FileOf(Objects(StreamOf(lines)))) == Some(FlattenAll(lines))
  {
    hide StreamOf, FileOf, Body, Entry, XrefHead, StandsAt, ReadStrings, ReadPdf, Value, Print, ObjectHeader;
    hide StreamObject, ReadStream, FlattenAll;
    hide AllDigits, ReadCounted;
    var stream := StreamOf(lines);
    var objects := Objects(stream);
    FileIsSound(lines, 4);
    StreamFound(lines);
    ReadStreamOf(lines);
    XrefHeadIs();
    ReadPieces(FileOf(objects), |Body(objects)|, |Body(objects[..4])|, stream);
  }

  lemma MidStarts()
    ensures STREAM_MID != "" && !IsDigit(STREAM_MID[0])
  {
  }

  lemma StreamFound(lines: seq<seq<Unit>>)
    ensures var objects := Objects(StreamOf(lines));
            ReadStream(FileOf(objects), |Body(objects[..4])|) == Some(StreamOf(lines))
  {
    var stream := StreamOf(lines);
    FileIsSound(lines, 4);
    ObjectText(stream);
    hide StreamOf, FileOf, Body, Entry, XrefHead, StandsAt, Value, Print, ObjectHeader, StreamObject;
    MidStarts();
    hide ReadCounted;
    CountedReadBack(FileOf(Objects(stream)), |Body(Objects(stream)[..4])|, STREAM_LEAD, STREAM_MID, stream, STREAM_END,
                    END_OBJECT);
  }

  lemma ReadStreamOf(lines: seq<seq<Unit>>)
    ensures ReadStrings(StreamOf(lines)) == FlattenAll(lines)
  {
    StreamShown(lines);
    ReadShown(lines, "ET\n");
    SkipPlain("ET\n", "");
    assert "ET\n" + "" == "ET\n";
    assert FlattenAll(lines) + [] == FlattenAll(lines);
  }
}
