/** The unified diff parser: hunks, files and whole diffs. The loops are methods; what they
    compute is the functions here, and what the functions mean is in DiffParserTheorems. */
module DiffParser {
  import opened Wrappers
  import opened DiffText
  import opened DiffModel

  const Marker: string := "\\ No newline at end of file"

  function Prefix(kind: LineType): char {
    match kind case Context => ' ' case Deletion => '-' case Addition => '+'
  }

  /** A body line of a hunk: one of the three prefixes, then the content. */
  predicate Prefixed(body: string) {
    body != "" && (body[0] == ' ' || body[0] == '+' || body[0] == '-')
  }

  function KindOf(body: string): LineType {
    if body == "" || body[0] == ' ' then Context else if body[0] == '-' then Deletion else Addition
  }

  // ----- hunks --------------------------------------------------------------------------------

  datatype Cursor = Cursor(
    index: nat,
    oldSeen: nat,
    newSeen: nat,
    oldLine: nat,
    newLine: nat,
    changed: nat,
    drafts: seq<Line>)

  datatype ParsedHunk = ParsedHunk(hunk: Hunk, next: nat, changed: nat)

  function Draft(p: PhysicalLine, kind: LineType, oldLine: nat, newLine: nat, sequence: nat): Line
    requires p.body != ""
  {
    Line(kind,
         if kind == Addition then None else Some(oldLine),
         if kind == Deletion then None else Some(newLine),
         sequence,
         Slice(p.start + 1, p.start + |p.body|, Sha256(p.body[1..])))
  }

  function BodyStep(lines: seq<PhysicalLine>, r: Ranges, remaining: nat, c: Cursor): (next: Result<Cursor, ParseError>)
    requires c.index < |lines|
    ensures next.Ok? ==> next.value.index == c.index + 1
  {
    var p := lines[c.index];
    if p.body == Marker then
      if c.drafts == [] then Err(Malformed) else Ok(c.(index := c.index + 1))
    else if !Prefixed(p.body) then Err(Malformed)
    else
      var kind := KindOf(p.body);
      var onOld, onNew := kind != Addition, kind != Deletion;
      if kind != Context && c.changed >= remaining then Err(TooLarge(ChangedLines))
      else if (onOld && c.oldSeen >= r.oldCount) || (onNew && c.newSeen >= r.newCount) then Err(Malformed)
      else
        Ok(Cursor(c.index + 1,
                  if onOld then c.oldSeen + 1 else c.oldSeen,
                  if onNew then c.newSeen + 1 else c.newSeen,
                  if onOld then c.oldLine + 1 else c.oldLine,
                  if onNew then c.newLine + 1 else c.newLine,
                  if kind == Context then c.changed else c.changed + 1,
                  c.drafts + [Draft(p, kind, c.oldLine, c.newLine, |c.drafts| + 1)]))
  }

  predicate Complete(r: Ranges, c: Cursor) {
    c.oldSeen >= r.oldCount && c.newSeen >= r.newCount
  }

  function Body(lines: seq<PhysicalLine>, r: Ranges, remaining: nat, c: Cursor): Result<Cursor, ParseError>
    decreases |lines| - c.index
  {
    if Complete(r, c) then Ok(c)
    else if c.index >= |lines| then Err(Incomplete)
    else
      var next := BodyStep(lines, r, remaining, c);
      if next.Err? then next else Body(lines, r, remaining, next.value)
  }

  function Opening(r: Ranges, index: nat): Cursor {
    Cursor(index, 0, 0, r.oldStart, r.newStart, 0, [])
  }

  predicate MarkerAt(lines: seq<PhysicalLine>, index: nat) {
    index < |lines| && lines[index].body == Marker
  }

  function HunkAt(lines: seq<PhysicalLine>, index: nat, remaining: nat): Result<ParsedHunk, ParseError>
    requires index < |lines|
  {
    var header := Header(lines[index].body);
    if header == None || !PositiveStarts(header.value) then Err(Malformed)
    else
      var r := header.value;
      var end := Body(lines, r, remaining, Opening(r, index + 1));
      if end.Err? then Err(end.error)
      else
        var c := end.value;
        Ok(ParsedHunk(Hunk(r, c.drafts), if MarkerAt(lines, c.index) then c.index + 1 else c.index, c.changed))
  }

  lemma BodyUnfolds(lines: seq<PhysicalLine>, r: Ranges, remaining: nat, c: Cursor)
    ensures Body(lines, r, remaining, c) ==
      if Complete(r, c) then Ok(c)
      else if c.index >= |lines| then Err(Incomplete)
      else if BodyStep(lines, r, remaining, c).Err? then BodyStep(lines, r, remaining, c)
      else Body(lines, r, remaining, BodyStep(lines, r, remaining, c).value)
  {
  }

  method ParseHunk(lines: seq<PhysicalLine>, index: nat, remaining: nat) returns (result: Result<ParsedHunk, ParseError>)
    requires index < |lines|
    ensures result == HunkAt(lines, index, remaining)
  {
    hide Body, Header, Marker;
    var header := Header(lines[index].body);
    if header == None { return Err(Malformed); }
    var r := header.value;
    if (r.oldCount > 0 && r.oldStart == 0) || (r.newCount > 0 && r.newStart == 0) { return Err(Malformed); }
    var oldSeen, newSeen, oldLine, newLine, changed := 0, 0, r.oldStart, r.newStart, 0;
    var sequence := 0;
    var drafts: seq<Line> := [];
    var i := index + 1;
    while oldSeen < r.oldCount || newSeen < r.newCount
      invariant sequence == |drafts| && i <= |lines|
      invariant Body(lines, r, remaining, Opening(r, index + 1)) ==
                Body(lines, r, remaining, Cursor(i, oldSeen, newSeen, oldLine, newLine, changed, drafts))
      decreases |lines| - i
    {
      BodyUnfolds(lines, r, remaining, Cursor(i, oldSeen, newSeen, oldLine, newLine, changed, drafts));
      if i >= |lines| { return Err(Incomplete); }
      var p := lines[i];
      if p.body == Marker {
        if drafts == [] { return Err(Malformed); }
        i := i + 1;
        continue;
      }
      if p.body == "" || (p.body[0] != ' ' && p.body[0] != '+' && p.body[0] != '-') { return Err(Malformed); }
      sequence := sequence + 1;
      if p.body[0] == ' ' {
        if oldSeen >= r.oldCount || newSeen >= r.newCount { return Err(Malformed); }
        drafts := drafts + [Draft(p, Context, oldLine, newLine, sequence)];
        oldSeen, newSeen, oldLine, newLine := oldSeen + 1, newSeen + 1, oldLine + 1, newLine + 1;
      } else if p.body[0] == '-' {
        if changed >= remaining { return Err(TooLarge(ChangedLines)); }
        changed := changed + 1;
        if oldSeen >= r.oldCount { return Err(Malformed); }
        drafts := drafts + [Draft(p, Deletion, oldLine, newLine, sequence)];
        oldSeen, oldLine := oldSeen + 1, oldLine + 1;
      } else {
        if changed >= remaining { return Err(TooLarge(ChangedLines)); }
        changed := changed + 1;
        if newSeen >= r.newCount { return Err(Malformed); }
        drafts := drafts + [Draft(p, Addition, oldLine, newLine, sequence)];
        newSeen, newLine := newSeen + 1, newLine + 1;
      }
      i := i + 1;
    }
    BodyUnfolds(lines, r, remaining, Cursor(i, oldSeen, newSeen, oldLine, newLine, changed, drafts));
    if i < |lines| && lines[i].body == Marker { i := i + 1; }
    return Ok(ParsedHunk(Hunk(r, drafts), i, changed));
  }

  // ----- files --------------------------------------------------------------------------------

  /** What the header lines of a file say once they are accepted: its identity, which is a
      digest of the paths and the kind of change, its place in plan order, and whether it is
      binary. */
  datatype FileFacts = FileFacts(fileId: nat, order: nat, binary: bool)

  /** The checks on a file's header lines, the `diff --git` line first and each hunk shown
      by its `@@` line: `None` rejects. */
  type Judge = seq<string> -> Option<FileFacts>

  datatype FileCursor = FileCursor(index: nat, hunks: seq<Hunk>, changed: nat, hasMarkers: bool, header: seq<string>)

  predicate IsHunkStart(body: string) { StartsWith(body, "@@") }

  predicate IsFileStart(body: string) { StartsWith(body, "diff --git ") }

  function Left(limit: nat, used: nat): nat {
    if used <= limit then limit - used else 0
  }

  function FileStep(lines: seq<PhysicalLine>, remaining: nat, c: FileCursor): (next: Result<FileCursor, ParseError>)
    requires c.index < |lines|
    ensures next.Ok? ==> c.index < next.value.index
  {
    var body := lines[c.index].body;
    if IsHunkStart(body) then
      var parsed := HunkAt(lines, c.index, Left(remaining, c.changed));
      if parsed.Err? then Err(parsed.error)
      else
        BodyAdvances(lines, c.index, Left(remaining, c.changed));
        Ok(c.(index := parsed.value.next, hunks := c.hunks + [parsed.value.hunk], changed := c.changed + parsed.value.changed,
             header := c.header + [body]))
    else if StartsWith(body, "--- ") then
      if c.hasMarkers || c.index + 1 >= |lines| || !StartsWith(lines[c.index + 1].body, "+++ ") then Err(Malformed)
      else Ok(c.(index := c.index + 2, hasMarkers := true, header := c.header + [body, lines[c.index + 1].body]))
    else if body == Marker then
      if c.hunks == [] then Err(Malformed) else Ok(c.(index := c.index + 1))
    else Ok(c.(index := c.index + 1, header := c.header + [body]))
  }

  lemma BodyAdvances(lines: seq<PhysicalLine>, index: nat, remaining: nat)
    requires index < |lines|
    ensures HunkAt(lines, index, remaining).Ok? ==> index < HunkAt(lines, index, remaining).value.next <= |lines|
  {
    var header := Header(lines[index].body);
    if header.Some? { BodyMoves(lines, header.value, remaining, Opening(header.value, index + 1)); }
  }

  lemma {:induction false} BodyMoves(lines: seq<PhysicalLine>, r: Ranges, remaining: nat, c: Cursor)
    requires c.index <= |lines|
    ensures var end := Body(lines, r, remaining, c); end.Ok? ==> c.index <= end.value.index <= |lines|
    decreases |lines| - c.index
  {
    if !Complete(r, c) && c.index < |lines| {
      var next := BodyStep(lines, r, remaining, c);
      if next.Ok? { BodyMoves(lines, r, remaining, next.value); }
    }
  }

  function FileBody(lines: seq<PhysicalLine>, remaining: nat, c: FileCursor): Result<FileCursor, ParseError>
    decreases |lines| - c.index
  {
    if c.index >= |lines| then Ok(c)
    else
      var next := FileStep(lines, remaining, c);
      if next.Err? then next else FileBody(lines, remaining, next.value)
  }

  function Closed(judge: Judge, c: FileCursor): Result<ChangedFile, ParseError> {
    var facts := judge(c.header);
    if facts == None then Err(Malformed)
    else if c.hunks != [] && (!c.hasMarkers || facts.value.binary) then Err(Malformed)
    else if !InOrder(c.hunks) then Err(Malformed)
    else Ok(ChangedFile(facts.value.fileId, facts.value.order, facts.value.binary, c.hunks))
  }

  function FileOpening(lines: seq<PhysicalLine>): FileCursor
    requires lines != []
  {
    FileCursor(1, [], 0, false, [lines[0].body])
  }

  function FileOf(lines: seq<PhysicalLine>, remaining: nat, judge: Judge): Result<ChangedFile, ParseError>
    requires lines != []
  {
    var end := FileBody(lines, remaining, FileOpening(lines));
    if end.Err? then Err(end.error) else Closed(judge, end.value)
  }

  method ParseFile(lines: seq<PhysicalLine>, remaining: nat, judge: Judge) returns (result: Result<ChangedFile, ParseError>)
    requires lines != []
    ensures result == FileOf(lines, remaining, judge)
  {
    hide HunkAt, Body, InOrder;
    var hunks: seq<Hunk>, header: seq<string> := [], [lines[0].body];
    var index: nat, changed: nat, hasMarkers := 1, 0, false;
    while index < |lines|
      invariant FileBody(lines, remaining, FileOpening(lines)) ==
                FileBody(lines, remaining, FileCursor(index, hunks, changed, hasMarkers, header))
      decreases |lines| - index
    {
      ghost var c := FileCursor(index, hunks, changed, hasMarkers, header);
      ghost var next := FileStep(lines, remaining, c);
      assert FileBody(lines, remaining, c) == if next.Err? then next else FileBody(lines, remaining, next.value);
      var body := lines[index].body;
      if StartsWith(body, "@@") {
        var parsed := ParseHunk(lines, index, Left(remaining, changed));
        if parsed.Err? { return Err(parsed.error); }
        hunks := hunks + [parsed.value.hunk];
        changed := changed + parsed.value.changed;
        header := header + [body];
        index := parsed.value.next;
      } else if StartsWith(body, "--- ") {
        if hasMarkers || index + 1 >= |lines| || !StartsWith(lines[index + 1].body, "+++ ") { return Err(Malformed); }
        header := header + [body, lines[index + 1].body];
        hasMarkers := true;
        index := index + 2;
      } else if body == Marker {
        if hunks == [] { return Err(Malformed); }
        index := index + 1;
      } else {
        header := header + [body];
        index := index + 1;
      }
    }
    var facts := judge(header);
    if facts == None { return Err(Malformed); }
    if hunks != [] && !hasMarkers { return Err(Malformed); }
    if facts.value.binary && hunks != [] { return Err(Malformed); }
    var ordered := ValidateHunkOrder(hunks);
    if !ordered { return Err(Malformed); }
    return Ok(ChangedFile(facts.value.fileId, facts.value.order, facts.value.binary, hunks));
  }

  // ----- whole diffs ----------------------------------------------------------------------------

  datatype Limits = Limits(maxPhysicalLines: nat, maxFiles: nat, maxChangedLines: nat)

  function SectionEnd(lines: seq<PhysicalLine>, from: nat): (end: nat)
    requires from <= |lines|
    ensures from <= end <= |lines|
    ensures forall i :: from <= i < end ==> !IsFileStart(lines[i].body)
    ensures end < |lines| ==> IsFileStart(lines[end].body)
    decreases |lines| - from
  {
    if from == |lines| || IsFileStart(lines[from].body) then from else SectionEnd(lines, from + 1)
  }

  /** The lines from `start` on, divided before every line that opens a file. */
  function Sections(lines: seq<PhysicalLine>, start: nat): seq<seq<PhysicalLine>>
    requires start <= |lines|
    decreases |lines| - start
  {
    if start == |lines| then []
    else
      var end := SectionEnd(lines, start + 1);
      [lines[start..end]] + Sections(lines, end)
  }

  /** Changed lines of a file: its additions and deletions. */
  function ChangedLinesOf(hunks: seq<Hunk>): nat {
    if hunks == [] then 0
    else ChangedLinesOf(hunks[..|hunks| - 1]) + Changed(Kinds(hunks[|hunks| - 1].lines))
  }

  datatype DiffCursor = DiffCursor(files: seq<ChangedFile>, seen: set<nat>, changed: nat)

  function DiffStep(section: seq<PhysicalLine>, limits: Limits, judge: Judge, c: DiffCursor): Result<DiffCursor, ParseError>
    requires section != []
  {
    var remaining := Left(limits.maxChangedLines, c.changed);
    var parsed := FileOf(section, remaining, judge);
    if parsed.Err? then Err(parsed.error)
    else
      var file := parsed.value;
      var changed := c.changed + ChangedLinesOf(file.hunks);
      if changed > limits.maxChangedLines then Err(TooLarge(ChangedLines))
      else if file.fileId in c.seen then Err(Malformed)
      else Ok(DiffCursor(c.files + [file], c.seen + {file.fileId}, changed))
  }

  ghost predicate NonEmpty(sections: seq<seq<PhysicalLine>>) {
    forall i :: 0 <= i < |sections| ==> sections[i] != []
  }

  function DiffBody(sections: seq<seq<PhysicalLine>>, limits: Limits, judge: Judge, n: nat): Result<DiffCursor, ParseError>
    requires NonEmpty(sections) && n <= |sections|
  {
    if n == 0 then Ok(DiffCursor([], {}, 0))
    else
      var c := DiffBody(sections, limits, judge, n - 1);
      if c.Err? then c else DiffStep(sections[n - 1], limits, judge, c.value)
  }

  lemma {:induction false} SectionsNonEmpty(lines: seq<PhysicalLine>, start: nat)
    requires start <= |lines|
    ensures NonEmpty(Sections(lines, start))
    decreases |lines| - start
  {
    if start < |lines| { SectionsNonEmpty(lines, SectionEnd(lines, start + 1)); }
  }

  function Parsed(text: string, limits: Limits, judge: Judge): Result<seq<ChangedFile>, ParseError> {
    if text == "" then Ok([])
    else if |Lines(text)| > limits.maxPhysicalLines then Err(TooLarge(PhysicalLines))
    else if Lines(text) == [] || !IsFileStart(Lines(text)[0].body) then Err(Malformed)
    else
      var sections := Sections(Lines(text), 0);
      if |sections| > limits.maxFiles then Err(TooLarge(Files))
      else
        SectionsNonEmpty(Lines(text), 0);
        var c := DiffBody(sections, limits, judge, |sections|);
        if c.Err? then Err(c.error) else Ok(c.value.files)
  }

  lemma SectionsStep(lines: seq<PhysicalLine>, start: nat, index: nat)
    requires start < index <= |lines| && (index < |lines| ==> IsFileStart(lines[index].body))
    requires forall i :: start < i < index ==> !IsFileStart(lines[i].body)
    ensures Sections(lines, start) == [lines[start..index]] + Sections(lines, index)
  {
    SectionEndIs(lines, start + 1, index);
  }

  lemma {:induction false} SectionEndIs(lines: seq<PhysicalLine>, from: nat, end: nat)
    requires from <= end <= |lines| && (end < |lines| ==> IsFileStart(lines[end].body))
    requires forall i :: from <= i < end ==> !IsFileStart(lines[i].body)
    ensures SectionEnd(lines, from) == end
    decreases end - from
  {
    if from < end { SectionEndIs(lines, from + 1, end); }
  }

  method CutSections(lines: seq<PhysicalLine>) returns (sections: seq<seq<PhysicalLine>>)
    requires lines != []
    ensures sections == Sections(lines, 0)
  {
    hide Sections, IsFileStart;
    sections := [];
    var start := 0;
    for index := 1 to |lines|
      invariant start < index
      invariant forall i :: start < i < index ==> !IsFileStart(lines[i].body)
      invariant sections + Sections(lines, start) == Sections(lines, 0)
    {
      if IsFileStart(lines[index].body) {
        SectionsStep(lines, start, index);
        assert sections + ([lines[start..index]] + Sections(lines, index)) == sections + [lines[start..index]] + Sections(lines, index);
        sections := sections + [lines[start..index]];
        start := index;
      }
    }
    SectionsStep(lines, start, |lines|);
    NoMoreSections(lines);
    assert lines[start..|lines|] == lines[start..];
    sections := sections + [lines[start..]];
  }

  lemma NoMoreSections(lines: seq<PhysicalLine>)
    ensures Sections(lines, |lines|) == []
  {
  }

  method CountChanged(hunks: seq<Hunk>) returns (count: nat)
    ensures count == ChangedLinesOf(hunks)
  {
    count := 0;
    for i := 0 to |hunks|
      invariant count == ChangedLinesOf(hunks[..i])
    {
      var lines := hunks[i].lines;
      assert hunks[..i + 1][..i] == hunks[..i];
      ghost var before := count;
      for j := 0 to |lines|
        invariant count == before + Changed(Kinds(lines[..j]))
      {
        KindsPrefix(lines, j);
        CountOne(Kinds(lines[..j]), lines[j].kind);
        if lines[j].kind != Context { count := count + 1; }
      }
      assert lines[..|lines|] == lines;
    }
    assert hunks[..|hunks|] == hunks;
  }

  method Parse(text: string, limits: Limits, judge: Judge) returns (result: Result<seq<ChangedFile>, ParseError>)
    ensures result == Parsed(text, limits, judge)
  {
    hide FileOf, Lines, LinesFrom, Sections, IsFileStart, ChangedLinesOf;
    if text == "" { return Ok([]); }
    var cut := CutLines(text, limits.maxPhysicalLines);
    if cut.Err? { return Err(cut.error); }
    var lines := cut.value;
    if lines == [] || !IsFileStart(lines[0].body) { return Err(Malformed); }
    var sections := CutSections(lines);
    if |sections| > limits.maxFiles { return Err(TooLarge(Files)); }
    SectionsNonEmpty(lines, 0);
    var files: seq<ChangedFile>, seen: set<nat>, changed: nat := [], {}, 0;
    for n := 0 to |sections|
      invariant DiffBody(sections, limits, judge, n) == Ok(DiffCursor(files, seen, changed))
      invariant changed <= limits.maxChangedLines
    {
      ghost var step := DiffStep(sections[n], limits, judge, DiffCursor(files, seen, changed));
      assert DiffBody(sections, limits, judge, n + 1) == step;
      if step.Err? { ErrorPropagates(sections, limits, judge, n + 1, |sections|); }
      var parsed := ParseFile(sections[n], Left(limits.maxChangedLines, changed), judge);
      if parsed.Err? { return Err(parsed.error); }
      var count := CountChanged(parsed.value.hunks);
      changed := changed + count;
      if changed > limits.maxChangedLines { return Err(TooLarge(ChangedLines)); }
      if parsed.value.fileId in seen { return Err(Malformed); }
      seen := seen + {parsed.value.fileId};
      files := files + [parsed.value];
    }
    return Ok(files);
  }

  lemma {:induction false} ErrorPropagates(sections: seq<seq<PhysicalLine>>, limits: Limits, judge: Judge, n: nat, m: nat)
    requires NonEmpty(sections) && n <= m <= |sections| && DiffBody(sections, limits, judge, n).Err?
    ensures DiffBody(sections, limits, judge, m) == DiffBody(sections, limits, judge, n)
    decreases m
  {
    if n < m { ErrorPropagates(sections, limits, judge, n, m - 1); }
  }
}
