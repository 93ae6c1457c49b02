/** Cutting a diff into physical lines, and reading a hunk header line. */
module DiffText {
  import opened Wrappers

  datatype PhysicalLine = PhysicalLine(body: string, start: nat) {
    /** The offset behind the line and its newline. */
    function Next(): nat { start + |body| + 1 }
  }

  datatype Metric = PhysicalLines | Files | ChangedLines

  datatype ParseError = Malformed | Incomplete | TooLarge(metric: Metric)

  // ----- physical lines -------------------------------------------------------------------

  function FindNewline(text: string, from: nat): (at: nat)
    requires from <= |text|
    ensures from <= at <= |text| && '\n' !in text[from..at] && (at < |text| ==> text[at] == '\n')
    decreases |text| - from
  {
    if from == |text| || text[from] == '\n' then from
    else
      var at := FindNewline(text, from + 1);
      assert text[from..at] == [text[from]] + text[from + 1..at];
      at
  }

  function LinesFrom(text: string, offset: nat): seq<PhysicalLine>
    decreases |text| - offset
  {
    if offset >= |text| then []
    else
      var end := FindNewline(text, offset);
      [PhysicalLine(text[offset..end], offset)] + LinesFrom(text, end + 1)
  }

  function Lines(text: string): seq<PhysicalLine> {
    LinesFrom(text, 0)
  }

  /** The line is a whole line of the text: it stands there, between newlines or the ends. */
  predicate StandsIn(line: PhysicalLine, text: string) {
    && line.start < |text| && line.start + |line.body| <= |text|
    && text[line.start..line.start + |line.body|] == line.body
    && '\n' !in line.body
    && (line.start > 0 ==> text[line.start - 1] == '\n')
    && (line.Next() <= |text| ==> text[line.Next() - 1] == '\n')
  }

  /** Each line starts where the one before it, with its newline, ends. */
  predicate Consecutive(lines: seq<PhysicalLine>) {
    forall i :: 0 < i < |lines| ==> lines[i].start == lines[i - 1].Next()
  }

  /** The lines are all of the text from `offset` on. */
  predicate CutFrom(lines: seq<PhysicalLine>, text: string, offset: nat) {
    && Consecutive(lines)
    && (forall i :: 0 <= i < |lines| ==> StandsIn(lines[i], text))
    && (if lines == [] then offset >= |text|
        else lines[0].start == offset && lines[|lines| - 1].Next() >= |text|)
  }

  lemma {:induction false} LinesAreCut(text: string, offset: nat)
    requires 0 < offset <= |text| ==> text[offset - 1] == '\n'
    ensures CutFrom(LinesFrom(text, offset), text, offset)
    decreases |text| - offset
  {
    hide FindNewline, CutFrom, LinesFrom;
    if offset >= |text| {
      NothingToCut(text, offset);
    } else {
      var end := FindNewline(text, offset);
      LineStands(text, offset);
      LinesAreCut(text, end + 1);
      LinesStep(text, offset);
      CutOneMore(PhysicalLine(text[offset..end], offset), LinesFrom(text, end + 1), text);
    }
  }

  lemma NothingToCut(text: string, offset: nat)
    requires offset >= |text|
    ensures LinesFrom(text, offset) == [] && CutFrom([], text, offset)
  {
  }

  lemma CutOneMore(line: PhysicalLine, rest: seq<PhysicalLine>, text: string)
    requires StandsIn(line, text) && CutFrom(rest, text, line.Next())
    ensures CutFrom([line] + rest, text, line.start)
  {
    hide StandsIn;
    var lines := [line] + rest;
    assert forall i :: 0 < i < |lines| ==> lines[i] == rest[i - 1];
    forall i | 0 < i < |lines| ensures lines[i].start == lines[i - 1].Next() {
      assert i > 1 ==> lines[i - 1] == rest[i - 2];
    }
  }

  lemma LineStands(text: string, offset: nat)
    requires offset < |text| && (offset > 0 ==> text[offset - 1] == '\n')
    ensures var end := FindNewline(text, offset); StandsIn(PhysicalLine(text[offset..end], offset), text)
    ensures var end := FindNewline(text, offset); end + 1 <= |text| ==> text[end] == '\n'
  {
    hide FindNewline;
  }

  lemma {:induction false} NewlineIs(text: string, from: nat, at: nat)
    requires from <= at <= |text| && (at < |text| ==> text[at] == '\n')
    requires forall i :: from <= i < at ==> text[i] != '\n'
    ensures FindNewline(text, from) == at
    decreases at - from
  {
    if from < at { NewlineIs(text, from + 1, at); }
  }

  lemma HeadOfCut(a: seq<PhysicalLine>, text: string, offset: nat)
    requires CutFrom(a, text, offset) && a != []
    ensures offset < |text|
    ensures var end := FindNewline(text, offset);
      a[0] == PhysicalLine(text[offset..end], offset) && CutFrom(a[1..], text, end + 1)
  {
    hide FindNewline;
    var stop, rest := offset + |a[0].body|, a[1..];
    assert StandsIn(a[0], text);
    assert forall i :: offset <= i < stop ==> text[i] == a[0].body[i - offset];
    NewlineIs(text, offset, stop);
    assert forall i :: 0 <= i < |rest| ==> rest[i] == a[i + 1];
    assert |rest| > 0 ==> rest[|rest| - 1] == a[|a| - 1];
  }

  /** There is one way to cut a text into lines. */
  lemma {:induction false} CutIsUnique(a: seq<PhysicalLine>, text: string, offset: nat)
    requires CutFrom(a, text, offset)
    ensures a == LinesFrom(text, offset)
    decreases |a|
  {
    if a != [] {
      hide CutFrom, FindNewline, LinesFrom;
      HeadOfCut(a, text, offset);
      LinesStep(text, offset);
      CutIsUnique(a[1..], text, FindNewline(text, offset) + 1);
    }
  }

  /** The text of some lines, each ended by a newline. */
  function Joined(bodies: seq<string>): string {
    if bodies == [] then "" else bodies[0] + "\n" + Joined(bodies[1..])
  }

  /** The text of some lines, a newline between each and the next. */
  function Join(lines: seq<string>): string
    requires lines != []
  {
    if |lines| == 1 then lines[0] else lines[0] + "\n" + Join(lines[1..])
  }

  lemma {:induction false} JoinedIs(lines: seq<string>)
    requires lines != []
    ensures Join(lines) + "\n" == Joined(lines)
  {
    if |lines| > 1 {
      JoinedIs(lines[1..]);
    } else {
      assert Joined(lines[1..]) == "";
      assert Joined(lines) == lines[0] + "\n" + "";
    }
  }

  function Bodies(lines: seq<PhysicalLine>): seq<string> {
    seq(|lines|, i requires 0 <= i < |lines| => lines[i].body)
  }

  function LayOut(bodies: seq<string>, offset: nat): seq<PhysicalLine> {
    if bodies == [] then [] else [PhysicalLine(bodies[0], offset)] + LayOut(bodies[1..], offset + |bodies[0]| + 1)
  }

  lemma JoinedStep(bodies: seq<string>)
    requires bodies != []
    ensures Joined(bodies) == bodies[0] + "\n" + Joined(bodies[1..])
  {
  }

  lemma LinesStep(text: string, offset: nat)
    requires offset < |text|
    ensures var end := FindNewline(text, offset);
      LinesFrom(text, offset) == [PhysicalLine(text[offset..end], offset)] + LinesFrom(text, end + 1)
  {
  }

  predicate OneLine(b: string) { '\n' !in b }

  /** The text from `offset` on. */
  predicate TextIs(text: string, offset: nat, s: string) {
    offset <= |text| && text[offset..] == s
  }

  lemma FirstNewline(text: string, offset: nat, b: string, rest: string)
    requires TextIs(text, offset, b + "\n" + rest) && OneLine(b)
    ensures var at := offset + |b|;
      at < |text| && FindNewline(text, offset) == at && text[offset..at] == b && TextIs(text, at + 1, rest)
  {
    var at, tail := offset + |b|, text[offset..];
    assert text[at] == tail[|b|] == '\n';
    assert text[offset..at] == tail[..|b|] == b;
    assert forall i :: offset <= i < at ==> text[i] == b[i - offset];
    NewlineIs(text, offset, at);
    assert text[at + 1..] == tail[|b| + 1..] == rest;
  }

  /** Cutting gives back the lines a text was joined from. */
  lemma {:induction false} LinesOfJoined(text: string, bodies: seq<string>, offset: nat)
    requires TextIs(text, offset, Joined(bodies))
    requires forall i :: 0 <= i < |bodies| ==> OneLine(bodies[i])
    ensures LinesFrom(text, offset) == LayOut(bodies, offset)
    decreases |bodies|
  {
    hide Joined, FindNewline, LinesFrom, OneLine, TextIs;
    if bodies == [] {
      NoLines(text, offset);
    } else {
      var at := offset + |bodies[0]|;
      JoinedStep(bodies);
      FirstNewline(text, offset, bodies[0], Joined(bodies[1..]));
      LinesStep(text, offset);
      LinesOfJoined(text, bodies[1..], at + 1);
    }
  }

  lemma NoLines(text: string, offset: nat)
    requires TextIs(text, offset, Joined([]))
    ensures LinesFrom(text, offset) == []
  {
  }

  lemma {:induction false} BodiesOfLayOut(bodies: seq<string>, offset: nat)
    ensures Bodies(LayOut(bodies, offset)) == bodies
  {
    if bodies != [] {
      BodiesOfLayOut(bodies[1..], offset + |bodies[0]| + 1);
      var lines, more := LayOut(bodies, offset), LayOut(bodies[1..], offset + |bodies[0]| + 1);
      assert Bodies(lines) == [bodies[0]] + Bodies(more);
    }
  }

  lemma JoinStep(bodies: seq<string>)
    requires |bodies| > 1
    ensures Join(bodies) == bodies[0] + "\n" + Join(bodies[1..])
  {
  }

  /** The same for a text whose last line is not ended by a newline. */
  lemma {:induction false} LinesOfJoin(text: string, bodies: seq<string>, offset: nat)
    requires bodies != [] && bodies[|bodies| - 1] != ""
    requires TextIs(text, offset, Join(bodies))
    requires forall i :: 0 <= i < |bodies| ==> OneLine(bodies[i])
    ensures LinesFrom(text, offset) == LayOut(bodies, offset)
    decreases |bodies|
  {
    hide Join, FindNewline, LinesFrom, OneLine, TextIs;
    if |bodies| == 1 {
      LastLine(text, bodies, offset);
    } else {
      JoinStep(bodies);
      FirstNewline(text, offset, bodies[0], Join(bodies[1..]));
      LinesStep(text, offset);
      LinesOfJoin(text, bodies[1..], offset + |bodies[0]| + 1);
    }
  }

  lemma LastLine(text: string, bodies: seq<string>, offset: nat)
    requires |bodies| == 1 && bodies[0] != "" && OneLine(bodies[0]) && TextIs(text, offset, Join(bodies))
    ensures LinesFrom(text, offset) == LayOut(bodies, offset)
  {
    assert text[offset..] == bodies[0];
    assert forall i :: offset <= i < |text| ==> text[i] == bodies[0][i - offset];
    NewlineIs(text, offset, |text|);
    assert text[offset..|text|] == bodies[0];
    assert LinesFrom(text, |text| + 1) == [] && LayOut(bodies[1..], |text| + 1) == [];
  }

  /** The text is these lines, each ended by a newline but perhaps the last. */
  predicate Writes(text: string, bodies: seq<string>) {
    text == Joined(bodies) || (bodies != [] && bodies[|bodies| - 1] != "" && text == Join(bodies))
  }

  predicate AllOneLine(bodies: seq<string>) {
    forall i :: 0 <= i < |bodies| ==> OneLine(bodies[i])
  }

  /** Cutting a text into lines undoes writing lines to a text, with the last newline or not. */
  lemma LinesOfWritten(text: string, bodies: seq<string>)
    requires Writes(text, bodies) && AllOneLine(bodies)
    ensures Bodies(Lines(text)) == bodies
  {
    hide Joined, Join, LinesFrom, LayOut, OneLine;
    assert text[0..] == text;
    BodiesOfLayOut(bodies, 0);
    if text == Joined(bodies) { LinesOfJoined(text, bodies, 0); } else { LinesOfJoin(text, bodies, 0); }
  }

  lemma BodiesStep(line: PhysicalLine, rest: seq<PhysicalLine>)
    ensures Bodies([line] + rest) == [line.body] + Bodies(rest)
  {
  }

  lemma {:induction false} TextOfLines(text: string, offset: nat)
    requires offset <= |text|
    ensures AllOneLine(Bodies(LinesFrom(text, offset)))
    ensures Writes(text[offset..], Bodies(LinesFrom(text, offset)))
    decreases |text| - offset
  {
    hide Joined, Join, FindNewline, LinesFrom;
    if offset == |text| {
      NoLinesWritten(text, offset);
    } else {
      var end := FindNewline(text, offset);
      LinesStep(text, offset);
      LineEnds(text, offset);
      var line := PhysicalLine(text[offset..end], offset);
      BodiesStep(line, LinesFrom(text, end + 1));
      if end == |text| {
        LastWritten(text, offset);
        assert [line.body] + Bodies(LinesFrom(text, end + 1)) == [text[offset..|text|]];
      } else {
        TextOfLines(text, end + 1);
        assert text[offset..] == line.body + "\n" + text[end + 1..];
        OneMoreWritten(line.body, text[end + 1..], Bodies(LinesFrom(text, end + 1)));
      }
    }
  }

  lemma LineEnds(text: string, offset: nat)
    requires offset < |text|
    ensures var end := FindNewline(text, offset); OneLine(text[offset..end]) && (end < |text| ==> text[end] == '\n')
  {
  }

  lemma NoLinesWritten(text: string, offset: nat)
    requires offset == |text|
    ensures Bodies(LinesFrom(text, offset)) == [] && Writes(text[offset..], [])
  {
  }

  lemma LastWritten(text: string, offset: nat)
    requires offset < |text| && FindNewline(text, offset) == |text|
    ensures Bodies(LinesFrom(text, |text| + 1)) == []
    ensures Writes(text[offset..], [text[offset..|text|]])
  {
    assert text[offset..|text|] == text[offset..];
  }

  lemma OneMoreWritten(body: string, rest: string, bodies: seq<string>)
    requires Writes(rest, bodies)
    ensures Writes(body + "\n" + rest, [body] + bodies)
  {
    var all := [body] + bodies;
    assert all[1..] == bodies;
  }

  /** Every text is written from the lines it is cut into. */
  lemma TextWritten(text: string)
    ensures Writes(text, Bodies(Lines(text))) && AllOneLine(Bodies(Lines(text)))
  {
    TextOfLines(text, 0);
    assert text[0..] == text;
  }

  method CutLines(text: string, maxLines: nat) returns (result: Result<seq<PhysicalLine>, ParseError>)
    ensures result == if |Lines(text)| > maxLines then Err(TooLarge(PhysicalLines)) else Ok(Lines(text))
  {
    var values: seq<PhysicalLine> := [];
    var offset := 0;
    while offset < |text|
      invariant Lines(text) == values + LinesFrom(text, offset)
      invariant |values| <= maxLines
      decreases |text| - offset
    {
      LinesStep(text, offset);
      if |values| >= maxLines { return Err(TooLarge(PhysicalLines)); }
      var newline := FindNewline(text, offset);
      ghost var more := LinesFrom(text, newline + 1);
      assert values + ([PhysicalLine(text[offset..newline], offset)] + more)
          == (values + [PhysicalLine(text[offset..newline], offset)]) + more;
      values := values + [PhysicalLine(text[offset..newline], offset)];
      offset := newline + 1;
    }
    assert LinesFrom(text, offset) == [] && values + [] == values;
    return Ok(values);
  }

  // ----- hunk headers -----------------------------------------------------------------------

  datatype Ranges = Ranges(oldStart: nat, oldCount: nat, newStart: nat, newCount: nat)

  predicate IsDigit(c: char) { '0' <= c <= '9' }

  predicate StartsWith(s: string, prefix: string) {
    |prefix| <= |s| && s[..|prefix|] == prefix
  }

  function After(s: string, prefix: string): Option<string> {
    if StartsWith(s, prefix) then Some(s[|prefix|..]) else None
  }

  function Digits(s: string, value: nat): (nat, string) {
    if s != "" && IsDigit(s[0]) then Digits(s[1..], 10 * value + (s[0] - '0') as int) else (value, s)
  }

  /** One or more digits. */
  function Number(s: string): Option<(nat, string)> {
    if s != "" && IsDigit(s[0]) then Some(Digits(s, 0)) else None
  }

  /** A start and an optional count, which is 1 when left out. */
  function Range(s: string): Option<(nat, nat, string)> {
    var start := Number(s);
    if start == None then None
    else
      var rest := start.value.1;
      var count := if StartsWith(rest, ",") then Number(rest[1..]) else None;
      if count == None then Some((start.value.0, 1, rest)) else Some((start.value.0, count.value.0, count.value.1))
  }

  function Header(body: string): Option<Ranges> {
    var s0 := After(body, "@@ -");
    if s0 == None then None else
    var before := Range(s0.value);
    if before == None then None else
    var s1 := After(before.value.2, " +");
    if s1 == None then None else
    var after := Range(s1.value);
    if after == None then None else
    var s2 := After(after.value.2, " @@");
    if s2 == None || !(s2.value == "" || s2.value[0] == ' ') then None
    else Some(Ranges(before.value.0, before.value.1, after.value.0, after.value.1))
  }

  function Decimal(n: nat): (s: string)
    ensures s != "" && forall i :: 0 <= i < |s| ==> IsDigit(s[i])
  {
    var last := ['0' + (n % 10) as char];
    if n < 10 then last else Decimal(n / 10) + last
  }

  /** The header line of a hunk; a count of 1 may be left out. */
  function RenderRange(start: nat, count: nat, short: bool): string {
    if short && count == 1 then Decimal(start) else Decimal(start) + "," + Decimal(count)
  }

  function RenderHeader(r: Ranges, short: bool, heading: string): string {
    "@@ -" + RenderRange(r.oldStart, r.oldCount, short) + " +" + RenderRange(r.newStart, r.newCount, short) + " @@"
    + (if heading == "" then "" else " " + heading)
  }

  lemma {:induction false} DigitsOfDecimal(n: nat, rest: string)
    ensures Digits(Decimal(n) + rest, 0) == Digits(rest, n)
  {
    var last := '0' + (n % 10) as char;
    var tail := [last] + rest;
    assert tail[1..] == rest;
    if n < 10 {
      assert Decimal(n) + rest == tail;
    } else {
      DigitsOfDecimal(n / 10, tail);
      assert Decimal(n) + rest == Decimal(n / 10) + tail;
    }
  }

  lemma NumberOfDecimal(n: nat, rest: string)
    requires rest == "" || !IsDigit(rest[0])
    ensures Number(Decimal(n) + rest) == Some((n, rest))
  {
    DigitsOfDecimal(n, rest);
    assert (Decimal(n) + rest)[0] == Decimal(n)[0];
  }

  lemma RangeOfRendered(start: nat, count: nat, short: bool, rest: string)
    requires rest != "" && rest[0] == ' '
    ensures Range(RenderRange(start, count, short) + rest) == Some((start, count, rest))
  {
    hide Number, Decimal;
    if short && count == 1 {
      NumberOfDecimal(start, rest);
    } else {
      var tail := "," + (Decimal(count) + rest);
      NumberOfDecimal(count, rest);
      NumberOfDecimal(start, tail);
      assert tail[1..] == Decimal(count) + rest;
      assert RenderRange(start, count, short) + rest == Decimal(start) + tail;
    }
  }

  lemma AfterPrefix(prefix: string, rest: string)
    ensures After(prefix + rest, prefix) == Some(rest)
  {
    assert (prefix + rest)[..|prefix|] == prefix;
  }

  lemma HeaderOfRendered(r: Ranges, short: bool, heading: string)
    ensures Header(RenderHeader(r, short, heading)) == Some(r)
  {
    hide After, Range, RenderRange;
    var s3 := if heading == "" then "" else " " + heading;
    var s2 := " @@" + s3;
    var s1 := RenderRange(r.newStart, r.newCount, short) + s2;
    var s0 := RenderRange(r.oldStart, r.oldCount, short) + (" +" + s1);
    assert RenderHeader(r, short, heading) == "@@ -" + s0;
    AfterPrefix("@@ -", s0);
    RangeOfRendered(r.oldStart, r.oldCount, short, " +" + s1);
    AfterPrefix(" +", s1);
    RangeOfRendered(r.newStart, r.newCount, short, s2);
    AfterPrefix(" @@", s3);
  }

  // ----- exactly which lines are hunk headers ---------------------------------------------------

  lemma StartsWithIs(s: string, prefix: string)
    ensures StartsWith(s, prefix) <==> exists rest :: s == prefix + rest
  {
    if StartsWith(s, prefix) { assert s == prefix + s[|prefix|..]; }
    if rest :| s == prefix + rest { assert (prefix + rest)[..|prefix|] == prefix; }
  }

  function DigitValue(c: char): nat {
    if IsDigit(c) then (c - '0') as int else 0
  }

  function Value(digits: string): nat {
    if digits == "" then 0 else 10 * Value(digits[..|digits| - 1]) + DigitValue(digits[|digits| - 1])
  }

  /** A decimal number, zeros in front allowed. */
  ghost predicate Numeral(digits: string, n: nat) {
    digits != "" && (forall i :: 0 <= i < |digits| ==> '0' <= digits[i] <= '9') && Value(digits) == n
  }

  /** A start with its count, or alone for a count of 1. */
  ghost predicate RangeText(s: string, start: nat, count: nat) {
    || (Numeral(s, start) && count == 1)
    || (exists i :: 0 <= i < |s| && s[i] == ',' && Numeral(s[..i], start) && Numeral(s[i + 1..], count))
  }

  ghost predicate HeaderText(body: string, r: Ranges, before: string, after: string, tail: string) {
    && body == "@@ -" + before + " +" + after + " @@" + tail
    && RangeText(before, r.oldStart, r.oldCount) && RangeText(after, r.newStart, r.newCount)
    && (tail == "" || tail[0] == ' ')
  }

  lemma {:induction false} DigitsOfNumeral(d: string, rest: string)
    requires forall i :: 0 <= i < |d| ==> IsDigit(d[i])
    ensures Digits(d + rest, 0) == Digits(rest, Value(d))
  {
    if d == "" {
      assert d + rest == rest;
    } else {
      var n := |d| - 1;
      var tail := [d[n]] + rest;
      DigitsOfNumeral(d[..n], tail);
      assert d + rest == d[..n] + tail;
      assert tail[1..] == rest;
    }
  }

  lemma NumberOfNumeral(d: string, n: nat, rest: string)
    requires Numeral(d, n) && (rest == "" || !IsDigit(rest[0]))
    ensures Number(d + rest) == Some((n, rest))
  {
    DigitsOfNumeral(d, rest);
    assert (d + rest)[0] == d[0];
  }

  /** Digits end where something else begins. */
  lemma {:induction false} DigitsSplit(s: string, v: nat)
    ensures var rest := Digits(s, v).1;
      && |rest| <= |s| && s[|s| - |rest|..] == rest
      && (forall i :: 0 <= i < |s| - |rest| ==> IsDigit(s[i]))
      && (rest == "" || !IsDigit(rest[0]))
  {
    if s != "" && IsDigit(s[0]) { DigitsSplit(s[1..], 10 * v + (s[0] - '0') as int); }
  }

  lemma NumberIsNumeral(s: string)
    requires Number(s).Some?
    ensures var (n, rest) := Number(s).value;
      |rest| < |s| && s == s[..|s| - |rest|] + rest && Numeral(s[..|s| - |rest|], n) && (rest == "" || !IsDigit(rest[0]))
  {
    DigitsSplit(s, 0);
    var rest := Digits(s, 0).1;
    var d := s[..|s| - |rest|];
    assert s == d + rest;
    DigitsOfNumeral(d, rest);
  }

  lemma RangeOfText(s: string, start: nat, count: nat, rest: string)
    requires RangeText(s, start, count) && rest != "" && rest[0] == ' '
    ensures Range(s + rest) == Some((start, count, rest))
  {
    hide Number, Numeral, Range;
    if Numeral(s, start) && count == 1 {
      NumberOfNumeral(s, start, rest);
      RangeAlone(s + rest, start, rest);
    } else {
      var i :| 0 <= i < |s| && s[i] == ',' && Numeral(s[..i], start) && Numeral(s[i + 1..], count);
      var tail := "," + (s[i + 1..] + rest);
      NumberOfNumeral(s[i + 1..], count, rest);
      NumberOfNumeral(s[..i], start, tail);
      assert tail[1..] == s[i + 1..] + rest;
      assert s + rest == s[..i] + tail;
      RangeWithCount(s + rest, start, count, tail, rest);
    }
  }

  lemma RangeAlone(s: string, start: nat, rest: string)
    requires Number(s) == Some((start, rest)) && rest != "" && rest[0] == ' '
    ensures Range(s) == Some((start, 1, rest))
  {
    hide Number;
  }

  lemma RangeWithCount(s: string, start: nat, count: nat, tail: string, rest: string)
    requires Number(s) == Some((start, tail)) && tail != "" && tail[0] == ',' && Number(tail[1..]) == Some((count, rest))
    ensures Range(s) == Some((start, count, rest))
  {
    hide Number;
    assert tail[..1] == ",";
  }

  lemma RangeIsText(s: string)
    requires Range(s).Some?
    ensures var (start, count, rest) := Range(s).value;
      && |rest| < |s| && s == s[..|s| - |rest|] + rest
      && RangeText(s[..|s| - |rest|], start, count)
  {
    hide Number, Value;
    NumberIsNumeral(s);
    var first := Number(s).value.1;
    var i := |s| - |first|;
    if StartsWith(first, ",") && Number(first[1..]).Some? {
      NumberIsNumeral(first[1..]);
      var rest := Number(first[1..]).value.1;
      var text := s[..|s| - |rest|];
      assert s[i] == first[0] == ',';
      assert text[..i] == s[..i];
      assert text[i + 1..] == first[1..][..|first| - 1 - |rest|];
      assert s == text + rest;
    }
  }

  /** A line is read as a hunk header exactly if it is `@@ -`, a range, ` +`, a range and ` @@`,
      with nothing or a space behind it. */
  lemma HeaderIff(body: string, r: Ranges)
    ensures Header(body) == Some(r) <==> exists before, after, tail :: HeaderText(body, r, before, after, tail)
  {
    hide Range, RangeText;
    if Header(body) == Some(r) { HeaderIsText(body, r); }
    if before, after, tail :| HeaderText(body, r, before, after, tail) {
      var s2 := " @@" + tail;
      var s1 := after + s2;
      var s0 := before + (" +" + s1);
      assert body == "@@ -" + s0;
      AfterPrefix("@@ -", s0);
      RangeOfText(before, r.oldStart, r.oldCount, " +" + s1);
      AfterPrefix(" +", s1);
      RangeOfText(after, r.newStart, r.newCount, s2);
      AfterPrefix(" @@", tail);
    }
  }

  lemma HeaderIsText(body: string, r: Ranges)
    requires Header(body) == Some(r)
    ensures exists before, after, tail :: HeaderText(body, r, before, after, tail)
  {
    hide Range, RangeText, After;
    var s0 := After(body, "@@ -").value;
    AfterIs(body, "@@ -");
    RangeIsText(s0);
    var rest0 := Range(s0).value.2;
    AfterIs(rest0, " +");
    var s1 := After(rest0, " +").value;
    RangeIsText(s1);
    var rest1 := Range(s1).value.2;
    AfterIs(rest1, " @@");
    var tail := After(rest1, " @@").value;
    HeaderParts(body, r, s0[..|s0| - |rest0|], s1[..|s1| - |rest1|], tail, s0, rest0, s1, rest1);
  }

  lemma AfterIs(s: string, prefix: string)
    ensures After(s, prefix).Some? ==> s == prefix + After(s, prefix).value
  {
  }

  lemma HeaderParts(body: string, r: Ranges, before: string, after: string, tail: string,
                    s0: string, rest0: string, s1: string, rest1: string)
    requires body == "@@ -" + s0 && s0 == before + rest0 && rest0 == " +" + s1 && s1 == after + rest1 && rest1 == " @@" + tail
    requires RangeText(before, r.oldStart, r.oldCount) && RangeText(after, r.newStart, r.newCount) && (tail == "" || tail[0] == ' ')
    ensures HeaderText(body, r, before, after, tail)
  {
    hide RangeText;
    calc {
      body;
      "@@ -" + (before + (" +" + (after + (" @@" + tail))));
      "@@ -" + before + " +" + after + " @@" + tail;
    }
  }
}
