/** What the parser accepts and what it builds. */
module DiffParserTheorems {
  import opened Wrappers
  import opened DiffText
  import opened DiffModel
  import opened DiffParser

  // ----- hunks ------------------------------------------------------------------------------

  /** The lines that are not no-newline markers. */
  function Kept(lines: seq<PhysicalLine>): seq<PhysicalLine> {
    if lines == [] then []
    else
      var last := lines[|lines| - 1];
      Kept(lines[..|lines| - 1]) + (if last.body == Marker then [] else [last])
  }

  function KindsOf(lines: seq<PhysicalLine>): seq<LineType> {
    seq(|lines|, i requires 0 <= i < |lines| => KindOf(lines[i].body))
  }

  /** The line records this physical line, without its prefix. */
  predicate Records(line: Line, p: PhysicalLine) {
    && Prefixed(p.body)
    && line.kind == KindOf(p.body)
    && line.slice == Slice(p.start + 1, p.start + |p.body|, Sha256(p.body[1..]))
  }

  ghost predicate RecordsAll(lines: seq<Line>, kept: seq<PhysicalLine>) {
    |lines| == |kept| && forall i :: 0 <= i < |kept| ==> Records(lines[i], kept[i])
  }

  /** These lines are exactly the body of a hunk with these ranges: markers apart, every
      line has a prefix, the counts are met, no marker comes first or last, and there are
      not too many changed lines. */
  ghost predicate IsBody(lines: seq<PhysicalLine>, r: Ranges, remaining: nat) {
    var kept := Kept(lines);
    && (forall i :: 0 <= i < |kept| ==> Prefixed(kept[i].body))
    && OldSide(KindsOf(kept)) == r.oldCount
    && NewSide(KindsOf(kept)) == r.newCount
    && Changed(KindsOf(kept)) <= remaining
    && (lines != [] ==> lines[0].body != Marker && lines[|lines| - 1].body != Marker)
  }

  ghost predicate Good(lines: seq<PhysicalLine>, first: nat, r: Ranges, remaining: nat, c: Cursor) {
    && first <= c.index <= |lines|
    && RecordsAll(c.drafts, Kept(lines[first..c.index]))
    && AllLocated(r, c.drafts)
    && (forall i :: 0 <= i < |c.drafts| ==> Shaped(c.drafts[i]))
    && Counted(r, remaining, c)
    && (c.drafts == [] ==> c.index == first)
    && (first < c.index ==> lines[first].body != Marker)
    && (first < c.index && lines[c.index - 1].body == Marker ==> !Complete(r, c))
  }

  ghost predicate Counted(r: Ranges, remaining: nat, c: Cursor) {
    && c.oldSeen == OldSide(Kinds(c.drafts)) <= r.oldCount
    && c.newSeen == NewSide(Kinds(c.drafts)) <= r.newCount
    && c.changed == Changed(Kinds(c.drafts)) <= remaining
    && c.oldLine == r.oldStart + c.oldSeen
    && c.newLine == r.newStart + c.newSeen
  }

  lemma KeptStep(lines: seq<PhysicalLine>, first: nat, stop: nat)
    requires first <= stop < |lines|
    ensures Kept(lines[first..stop + 1]) == Kept(lines[first..stop]) + (if lines[stop].body == Marker then [] else [lines[stop]])
  {
    assert lines[first..stop + 1][..stop - first] == lines[first..stop];
  }

  lemma NoneKept(lines: seq<PhysicalLine>, first: nat)
    requires first <= |lines|
    ensures Kept(lines[first..first]) == []
  {
  }

  lemma KindsOfRecorded(lines: seq<Line>, kept: seq<PhysicalLine>)
    requires RecordsAll(lines, kept)
    ensures Kinds(lines) == KindsOf(kept)
  {
  }

  lemma StepKeepsGood(lines: seq<PhysicalLine>, first: nat, r: Ranges, remaining: nat, c: Cursor)
    requires Good(lines, first, r, remaining, c) && c.index < |lines| && !Complete(r, c)
    requires BodyStep(lines, r, remaining, c).Ok?
    ensures Good(lines, first, r, remaining, BodyStep(lines, r, remaining, c).value)
  {
    hide Kept, OldSide, NewSide, Changed;
    var c' := BodyStep(lines, r, remaining, c).value;
    KeptStep(lines, first, c.index);
    NoneKept(lines, first);
    if lines[c.index].body != Marker {
      var draft := c'.drafts[|c.drafts|];
      assert c'.drafts == c.drafts + [draft];
      CountOne(Kinds(c.drafts), draft.kind);
      assert Kinds(c'.drafts) == Kinds(c.drafts) + [draft.kind];
      forall i | 0 <= i < |c'.drafts| ensures Located(r, c'.drafts, i) {
        assert c'.drafts[..i] == c.drafts[..i];
        if i < |c.drafts| { assert Located(r, c.drafts, i); } else { assert c.drafts[..i] == c.drafts; }
      }
    }
  }

  lemma {:induction false} BodySound(lines: seq<PhysicalLine>, first: nat, r: Ranges, remaining: nat, c: Cursor)
    requires Good(lines, first, r, remaining, c)
    ensures var end := Body(lines, r, remaining, c);
      end.Ok? ==> Good(lines, first, r, remaining, end.value) && Complete(r, end.value)
    decreases |lines| - c.index
  {
    hide Good, BodyStep;
    GoodIndex(lines, first, r, remaining, c);
    if !Complete(r, c) && c.index < |lines| && BodyStep(lines, r, remaining, c).Ok? {
      StepKeepsGood(lines, first, r, remaining, c);
      BodySound(lines, first, r, remaining, BodyStep(lines, r, remaining, c).value);
    }
  }

  lemma GoodIndex(lines: seq<PhysicalLine>, first: nat, r: Ranges, remaining: nat, c: Cursor)
    requires Good(lines, first, r, remaining, c)
    ensures first <= c.index <= |lines|
  {
  }

  lemma OpeningGood(lines: seq<PhysicalLine>, first: nat, r: Ranges, remaining: nat)
    requires first <= |lines|
    ensures Good(lines, first, r, remaining, Opening(r, first))
  {
    assert lines[first..first] == [];
  }

  /** The hunk parsed at `index` ends its body at `to`: it satisfies the validator and
      records exactly the unmarked lines up to there. */
  ghost predicate HunkOfLines(p: ParsedHunk, lines: seq<PhysicalLine>, index: nat, stop: nat)
    requires index < stop <= |lines|
  {
    && Header(lines[index].body) == Some(p.hunk.ranges)
    && ValidHunk(p.hunk)
    && RecordsAll(p.hunk.lines, Kept(lines[index + 1..stop]))
    && p.changed == Changed(Kinds(p.hunk.lines))
    && p.next == if MarkerAt(lines, stop) then stop + 1 else stop
  }

  lemma HunkSound(lines: seq<PhysicalLine>, index: nat, remaining: nat) returns (stop: nat)
    requires index < |lines| && HunkAt(lines, index, remaining).Ok?
    ensures index < stop <= |lines|
    ensures var p := HunkAt(lines, index, remaining).value;
      HunkOfLines(p, lines, index, stop) && IsBody(lines[index + 1..stop], p.hunk.ranges, remaining)
  {
    hide Kept, Body, Header;
    var r := Header(lines[index].body).value;
    var start := Opening(r, index + 1);
    OpeningGood(lines, index + 1, r, remaining);
    BodySound(lines, index + 1, r, remaining, start);
    var c := Body(lines, r, remaining, start).value;
    stop := c.index;
    KindsOfRecorded(c.drafts, Kept(lines[index + 1..stop]));
  }

  /** While the body is not at its end, the counts are not met, and the next line is taken. */
  lemma StepInsideBody(lines: seq<PhysicalLine>, first: nat, stop: nat, r: Ranges, remaining: nat, c: Cursor)
    requires Good(lines, first, r, remaining, c) && c.index < stop <= |lines|
    requires IsBody(lines[first..stop], r, remaining)
    ensures !Complete(r, c) && BodyStep(lines, r, remaining, c).Ok?
  {
    hide Kept, OldSide, NewSide, Changed, AllLocated;
    var a, b := lines[first..c.index], lines[c.index..stop];
    assert lines[first..stop] == a + b;
    KeptBoth(a, b);
    KindsOfRecorded(c.drafts, Kept(a));
    assert KindsOf(Kept(a + b)) == KindsOf(Kept(a)) + KindsOf(Kept(b));
    CountBoth(KindsOf(Kept(a)), KindsOf(Kept(b)));
    LastKept(b);
    if lines[c.index].body == Marker {
      assert lines[first..stop][0] == lines[first];
    } else {
      var kept := Kept(b);
      FirstKept(b);
      assert kept[0] == lines[c.index];
      assert Kept(a + b)[|Kept(a)|] == kept[0];
      var kind := KindOf(kept[0].body);
      assert KindsOf(kept) == [kind] + KindsOf(kept)[1..];
      CountBoth([kind], KindsOf(kept)[1..]);
      CountOne([], kind);
      assert [] + [kind] == [kind];
      EmptyCounts();
    }
  }

  lemma EmptyCounts()
    ensures OldSide([]) == 0 && NewSide([]) == 0 && Changed([]) == 0
  {
  }

  lemma {:induction false} KeptBoth(a: seq<PhysicalLine>, b: seq<PhysicalLine>)
    ensures Kept(a + b) == Kept(a) + Kept(b)
  {
    if b == [] {
      assert a + b == a;
    } else {
      KeptBoth(a, b[..|b| - 1]);
      assert (a + b)[..|a + b| - 1] == a + b[..|b| - 1];
    }
  }

  lemma LastKept(lines: seq<PhysicalLine>)
    requires lines != [] && lines[|lines| - 1].body != Marker
    ensures Kept(lines) != []
  {
  }

  lemma FirstKept(lines: seq<PhysicalLine>)
    requires lines != [] && lines[0].body != Marker
    ensures Kept(lines) != [] && Kept(lines)[0] == lines[0]
  {
    KeptBoth([lines[0]], lines[1..]);
    assert [lines[0]] + lines[1..] == lines;
    assert Kept([lines[0]]) == Kept([]) + [lines[0]] by { assert [lines[0]][..0] == []; }
  }

  lemma {:induction false} BodyCompletes(lines: seq<PhysicalLine>, first: nat, stop: nat, r: Ranges, remaining: nat, c: Cursor)
    requires Good(lines, first, r, remaining, c) && c.index <= stop <= |lines|
    requires IsBody(lines[first..stop], r, remaining)
    ensures var end := Body(lines, r, remaining, c); end.Ok? && end.value.index == stop
    decreases stop - c.index
  {
    hide Good, BodyStep, IsBody, Kept;
    if c.index == stop {
      AtEnd(lines, first, stop, r, remaining, c);
    } else {
      StepInsideBody(lines, first, stop, r, remaining, c);
      StepKeepsGood(lines, first, r, remaining, c);
      BodyCompletes(lines, first, stop, r, remaining, BodyStep(lines, r, remaining, c).value);
    }
  }

  lemma AtEnd(lines: seq<PhysicalLine>, first: nat, stop: nat, r: Ranges, remaining: nat, c: Cursor)
    requires Good(lines, first, r, remaining, c) && c.index == stop && IsBody(lines[first..stop], r, remaining)
    ensures Complete(r, c)
  {
    KindsOfRecorded(c.drafts, Kept(lines[first..stop]));
  }

  ghost predicate EndsAt(lines: seq<PhysicalLine>, index: nat, stop: nat, r: Ranges, remaining: nat) {
    index < stop <= |lines| && IsBody(lines[index + 1..stop], r, remaining)
  }

  /** A hunk is accepted at `index` exactly when its header is well formed and some lines
      after it are a body with the header's counts; the parse then ends there. */
  lemma HunkAcceptedIff(lines: seq<PhysicalLine>, index: nat, remaining: nat)
    requires index < |lines|
    ensures HunkAt(lines, index, remaining).Ok? <==>
      var header := Header(lines[index].body);
      && header.Some? && PositiveStarts(header.value)
      && exists stop :: EndsAt(lines, index, stop, header.value, remaining)
  {
    hide Header, IsBody, Body;
    var header := Header(lines[index].body);
    if HunkAt(lines, index, remaining).Ok? {
      var stop := HunkSound(lines, index, remaining);
      assert EndsAt(lines, index, stop, header.value, remaining);
    }
    if header.Some? && PositiveStarts(header.value) {
      if stop :| EndsAt(lines, index, stop, header.value, remaining) {
        HunkComplete(lines, index, stop, remaining);
      }
    }
  }

  lemma HunkComplete(lines: seq<PhysicalLine>, index: nat, stop: nat, remaining: nat)
    requires index < stop <= |lines| && Header(lines[index].body).Some? && PositiveStarts(Header(lines[index].body).value)
    requires IsBody(lines[index + 1..stop], Header(lines[index].body).value, remaining)
    ensures HunkAt(lines, index, remaining).Ok?
    ensures HunkOfLines(HunkAt(lines, index, remaining).value, lines, index, stop)
  {
    hide Kept, Body, Header, IsBody, Good;
    var r := Header(lines[index].body).value;
    OpeningGood(lines, index + 1, r, remaining);
    BodyCompletes(lines, index + 1, stop, r, remaining, Opening(r, index + 1));
    BodySound(lines, index + 1, r, remaining, Opening(r, index + 1));
    FromGood(lines, index + 1, r, remaining, Body(lines, r, remaining, Opening(r, index + 1)).value);
  }

  lemma FromGood(lines: seq<PhysicalLine>, first: nat, r: Ranges, remaining: nat, c: Cursor)
    requires Good(lines, first, r, remaining, c) && Complete(r, c) && PositiveStarts(r)
    ensures first <= c.index <= |lines| && ValidHunk(Hunk(r, c.drafts)) && RecordsAll(c.drafts, Kept(lines[first..c.index]))
    ensures c.changed == Changed(Kinds(c.drafts)) <= remaining
  {
  }

  // ----- slices -------------------------------------------------------------------------------

  /** The slice of the line cuts a whole text line out of the text, without its prefix. */
  predicate Cuts(text: string, line: Line) {
    && 0 < line.slice.start <= line.slice.end <= |text|
    && text[line.slice.start - 1] == Prefix(line.kind)
    && line.slice.digest == Sha256(text[line.slice.start..line.slice.end])
    && '\n' !in text[line.slice.start..line.slice.end]
    && (line.slice.start > 1 ==> text[line.slice.start - 2] == '\n')
    && (line.slice.end < |text| ==> text[line.slice.end] == '\n')
  }

  ghost predicate AllCut(text: string, lines: seq<Line>) {
    forall i :: 0 <= i < |lines| ==> Cuts(text, lines[i])
  }

  /** The slices lie between the two offsets, in order, apart from each other by at least
      a newline and a prefix. */
  ghost predicate Spread(lines: seq<Line>, low: nat, high: nat) {
    && (forall i :: 0 <= i < |lines| ==> low < lines[i].slice.start && lines[i].slice.end < high)
    && (forall i, j :: 0 <= i < j < |lines| ==> lines[i].slice.end + 1 < lines[j].slice.start)
  }

  lemma SpreadBoth(a: seq<Line>, b: seq<Line>, low: nat, mid: nat, high: nat)
    requires Spread(a, low, mid) && Spread(b, mid, high) && low <= mid <= high
    ensures Spread(a + b, low, high)
  {
  }

  lemma RecordCuts(text: string, line: Line, p: PhysicalLine)
    requires Records(line, p) && StandsIn(p, text)
    ensures Cuts(text, line) && p.start < line.slice.start && line.slice.end < p.Next()
  {
    var s, e := line.slice.start, line.slice.end;
    assert text[p.start..p.start + |p.body|][1..] == text[s..e];
    assert text[p.start..p.start + |p.body|][0] == text[s - 1];
  }

  /** Where the lines before `index` end. */
  function EndOf(lines: seq<PhysicalLine>, index: nat): nat
    requires 0 < index <= |lines|
  {
    lines[index - 1].Next()
  }

  ghost predicate AllStand(lines: seq<PhysicalLine>, text: string) {
    forall i :: 0 <= i < |lines| ==> StandsIn(lines[i], text)
  }

  lemma {:induction false} EndsGrow(lines: seq<PhysicalLine>, i: nat, j: nat)
    requires Consecutive(lines) && 0 < i <= j <= |lines|
    ensures EndOf(lines, i) <= EndOf(lines, j)
    decreases j
  {
    if i < j { EndsGrow(lines, i, j - 1); }
  }

  lemma {:induction false} RecordedSpread(text: string, lines: seq<PhysicalLine>, first: nat, stop: nat, drafts: seq<Line>)
    requires Consecutive(lines) && AllStand(lines, text) && 0 < first <= stop <= |lines|
    requires RecordsAll(drafts, Kept(lines[first..stop]))
    ensures AllCut(text, drafts) && Spread(drafts, EndOf(lines, first), EndOf(lines, stop))
    decreases stop
  {
    hide Kept, StandsIn, Prefixed, KindOf, EndOf;
    NoneKept(lines, first);
    if first < stop {
      KeptStep(lines, first, stop - 1);
      var kept := Kept(lines[first..stop - 1]);
      EndsGrow(lines, first, stop - 1);
      EndsGrow(lines, stop - 1, stop);
      if lines[stop - 1].body == Marker {
        RecordedSpread(text, lines, first, stop - 1, drafts);
      } else {
        var init, last := drafts[..|kept|], drafts[|kept|];
        assert drafts == init + [last];
        RecordedSpread(text, lines, first, stop - 1, init);
        assert Kept(lines[first..stop])[|kept|] == lines[stop - 1];
        LastRecorded(text, lines, stop, last);
        SpreadBoth(init, [last], EndOf(lines, first), EndOf(lines, stop - 1), EndOf(lines, stop));
      }
    }
  }

  lemma LastRecorded(text: string, lines: seq<PhysicalLine>, stop: nat, last: Line)
    requires Consecutive(lines) && AllStand(lines, text) && 1 < stop <= |lines| && Records(last, lines[stop - 1])
    ensures Cuts(text, last) && Spread([last], EndOf(lines, stop - 1), EndOf(lines, stop))
  {
    RecordCuts(text, last, lines[stop - 1]);
  }

  // ----- files --------------------------------------------------------------------------------

  ghost predicate AllValid(hunks: seq<Hunk>) {
    forall i :: 0 <= i < |hunks| ==> ValidHunk(hunks[i])
  }

  lemma AllLinesStep(hunks: seq<Hunk>, h: Hunk)
    ensures AllLines(hunks + [h]) == AllLines(hunks) + h.lines
    ensures ChangedLinesOf(hunks + [h]) == ChangedLinesOf(hunks) + Changed(Kinds(h.lines))
  {
    assert (hunks + [h])[..|hunks|] == hunks;
  }

  ghost predicate FileGood(text: string, lines: seq<PhysicalLine>, remaining: nat, c: FileCursor) {
    && 0 < c.index <= |lines|
    && AllValid(c.hunks)
    && c.changed == ChangedLinesOf(c.hunks) <= remaining
    && AllCut(text, AllLines(c.hunks))
    && Spread(AllLines(c.hunks), lines[0].start, EndOf(lines, c.index))
  }

  lemma HunkStepGood(text: string, lines: seq<PhysicalLine>, remaining: nat, c: FileCursor)
    requires Consecutive(lines) && AllStand(lines, text)
    requires FileGood(text, lines, remaining, c) && c.index < |lines|
    requires IsHunkStart(lines[c.index].body) && FileStep(lines, remaining, c).Ok?
    ensures FileGood(text, lines, remaining, FileStep(lines, remaining, c).value)
  {
    hide HunkAt, ValidHunk, RecordsAll, IsBody, Header, StandsIn, Consecutive, AllLines, ChangedLinesOf, Kept;
    var left := Left(remaining, c.changed);
    var stop := HunkSound(lines, c.index, left);
    var p := HunkAt(lines, c.index, left).value;
    RecordedSpread(text, lines, c.index + 1, stop, p.hunk.lines);
    EndsGrow(lines, stop, p.next);
    EndsGrow(lines, c.index, c.index + 1);
    EndsGrow(lines, c.index, p.next);
    EndsGrow(lines, c.index + 1, stop);
    EndsGrow(lines, 1, c.index);
    AllLinesStep(c.hunks, p.hunk);
    WithinLeft(lines, c.index, stop, left, p);
    SpreadWider(p.hunk.lines, EndOf(lines, c.index + 1), EndOf(lines, stop), EndOf(lines, c.index), EndOf(lines, p.next));
    SpreadBoth(AllLines(c.hunks), p.hunk.lines, lines[0].start, EndOf(lines, c.index), EndOf(lines, p.next));
    CutBoth(text, AllLines(c.hunks), p.hunk.lines);
  }

  lemma CutBoth(text: string, a: seq<Line>, b: seq<Line>)
    requires AllCut(text, a) && AllCut(text, b)
    ensures AllCut(text, a + b)
  {
  }

  lemma SpreadWider(a: seq<Line>, low: nat, high: nat, low': nat, high': nat)
    requires Spread(a, low, high) && low' <= low && high <= high'
    ensures Spread(a, low', high')
  {
  }

  lemma WithinLeft(lines: seq<PhysicalLine>, index: nat, stop: nat, left: nat, p: ParsedHunk)
    requires index < stop <= |lines| && HunkOfLines(p, lines, index, stop) && IsBody(lines[index + 1..stop], p.hunk.ranges, left)
    ensures p.changed <= left
  {
    KindsOfRecorded(p.hunk.lines, Kept(lines[index + 1..stop]));
  }

  lemma FileStepGood(text: string, lines: seq<PhysicalLine>, remaining: nat, c: FileCursor)
    requires Consecutive(lines) && AllStand(lines, text)
    requires FileGood(text, lines, remaining, c) && c.index < |lines| && FileStep(lines, remaining, c).Ok?
    ensures FileGood(text, lines, remaining, FileStep(lines, remaining, c).value)
  {
    hide HunkAt, AllValid, AllCut, Spread, AllLines, ChangedLinesOf, AllStand;
    if IsHunkStart(lines[c.index].body) {
      HunkStepGood(text, lines, remaining, c);
    } else {
      var c' := FileStep(lines, remaining, c).value;
      EndsGrow(lines, 1, c.index);
      EndsGrow(lines, c.index, c'.index);
      SpreadWider(AllLines(c.hunks), lines[0].start, EndOf(lines, c.index), lines[0].start, EndOf(lines, c'.index));
    }
  }

  lemma {:induction false} FileBodyGood(text: string, lines: seq<PhysicalLine>, remaining: nat, c: FileCursor)
    requires Consecutive(lines) && AllStand(lines, text) && FileGood(text, lines, remaining, c)
    ensures var end := FileBody(lines, remaining, c);
      end.Ok? ==> FileGood(text, lines, remaining, end.value) && end.value.index == |lines|
    decreases |lines| - c.index
  {
    hide Consecutive, AllStand, FileGood, FileStep;
    FileIndex(text, lines, remaining, c);
    if c.index < |lines| && FileStep(lines, remaining, c).Ok? {
      FileStepGood(text, lines, remaining, c);
      FileBodyGood(text, lines, remaining, FileStep(lines, remaining, c).value);
    }
  }

  lemma FileIndex(text: string, lines: seq<PhysicalLine>, remaining: nat, c: FileCursor)
    requires FileGood(text, lines, remaining, c)
    ensures c.index <= |lines|
  {
  }

  /** What is true of every file the parser accepts. */
  ghost predicate FileOk(text: string, file: ChangedFile) {
    AllValid(file.hunks) && InOrder(file.hunks) && AllCut(text, AllLines(file.hunks)) && (file.binary ==> file.hunks == [])
  }

  lemma FileSound(text: string, lines: seq<PhysicalLine>, remaining: nat, judge: Judge)
    requires lines != [] && Consecutive(lines) && AllStand(lines, text) && FileOf(lines, remaining, judge).Ok?
    ensures var file := FileOf(lines, remaining, judge).value;
      FileOk(text, file) && Spread(AllLines(file.hunks), lines[0].start, EndOf(lines, |lines|))
    ensures ChangedLinesOf(FileOf(lines, remaining, judge).value.hunks) <= remaining
  {
    hide FileBody, Consecutive, AllStand, AllValid, InOrder, EndOf;
    NoHunksGood(text, lines, remaining);
    FileBodyGood(text, lines, remaining, FileOpening(lines));
  }

  lemma NoHunksGood(text: string, lines: seq<PhysicalLine>, remaining: nat)
    requires lines != []
    ensures FileGood(text, lines, remaining, FileOpening(lines))
  {
  }

  // ----- whole diffs ----------------------------------------------------------------------------

  function LinesOfFiles(files: seq<ChangedFile>): seq<Line> {
    if files == [] then [] else LinesOfFiles(files[..|files| - 1]) + AllLines(files[|files| - 1].hunks)
  }

  function ChangedIn(files: seq<ChangedFile>): nat {
    if files == [] then 0 else ChangedIn(files[..|files| - 1]) + ChangedLinesOf(files[|files| - 1].hunks)
  }

  ghost predicate AllFilesOk(text: string, files: seq<ChangedFile>) {
    forall i :: 0 <= i < |files| ==> FileOk(text, files[i])
  }

  /** Each section is some whole lines of the text, right behind the section before it. */
  ghost predicate Chained(sections: seq<seq<PhysicalLine>>, text: string, start: nat) {
    && (forall n :: 0 <= n < |sections| ==>
          sections[n] != [] && Consecutive(sections[n]) && AllStand(sections[n], text) && IsFileStart(sections[n][0].body))
    && (forall n :: 0 <= n < |sections| ==> sections[n][0].start == if n == 0 then start else EndOf(sections[n - 1], |sections[n - 1]|))
  }

  lemma {:induction false} SectionsChained(text: string, lines: seq<PhysicalLine>, start: nat)
    requires Consecutive(lines) && AllStand(lines, text) && start < |lines| && IsFileStart(lines[start].body)
    ensures Sections(lines, start) != [] && Chained(Sections(lines, start), text, lines[start].start)
    decreases |lines| - start
  {
    hide StandsIn, IsFileStart;
    var end := SectionEnd(lines, start + 1);
    var head: seq<PhysicalLine>, rest: seq<seq<PhysicalLine>> := lines[start..end], Sections(lines, end);
    var sections: seq<seq<PhysicalLine>> := Sections(lines, start);
    assert sections == [head] + rest;
    assert head[|head| - 1] == lines[end - 1];
    if end < |lines| { SectionsChained(text, lines, end); }
    forall n: nat | n < |sections|
      ensures sections[n] != [] && Consecutive(sections[n]) && AllStand(sections[n], text) && IsFileStart(sections[n][0].body)
    {
      if n > 0 { assert sections[n] == rest[n - 1]; }
    }
    forall n: nat | 0 < n < |sections| ensures sections[n][0].start == EndOf(sections[n - 1], |sections[n - 1]|) {
      assert sections[n] == rest[n - 1];
      if n > 1 { assert sections[n - 1] == rest[n - 2]; }
    }
  }

  function EndOfSections(sections: seq<seq<PhysicalLine>>, n: nat): nat
    requires NonEmpty(sections) && n <= |sections|
  {
    if n == 0 then 0 else EndOf(sections[n - 1], |sections[n - 1]|)
  }

  ghost predicate DiffGood(text: string, limits: Limits, c: DiffCursor, end: nat) {
    && AllFilesOk(text, c.files)
    && DistinctIds(c.files)
    && (forall i :: 0 <= i < |c.files| ==> c.files[i].fileId in c.seen)
    && c.changed == ChangedIn(c.files) <= limits.maxChangedLines
    && Spread(LinesOfFiles(c.files), 0, end)
  }

  lemma DiffStepGood(text: string, section: seq<PhysicalLine>, limits: Limits, judge: Judge, c: DiffCursor)
    requires section != [] && Consecutive(section) && AllStand(section, text)
    requires DiffGood(text, limits, c, section[0].start) && DiffStep(section, limits, judge, c).Ok?
    ensures DiffGood(text, limits, DiffStep(section, limits, judge, c).value, EndOf(section, |section|))
    ensures |DiffStep(section, limits, judge, c).value.files| == |c.files| + 1
  {
    hide FileOf, Consecutive, AllStand, FileOk, Spread, ChangedLinesOf, AllLines;
    var left := Left(limits.maxChangedLines, c.changed);
    FileSound(text, section, left, judge);
    var file := FileOf(section, left, judge).value;
    var files := c.files + [file];
    assert files[..|c.files|] == c.files;
    EndsGrow(section, 1, |section|);
    SpreadBoth(LinesOfFiles(c.files), AllLines(file.hunks), 0, section[0].start, EndOf(section, |section|));
  }

  lemma {:induction false} DiffBodyGood(text: string, sections: seq<seq<PhysicalLine>>, limits: Limits, judge: Judge, n: nat)
    requires NonEmpty(sections) && Chained(sections, text, 0) && n <= |sections|
    ensures var c := DiffBody(sections, limits, judge, n);
      c.Ok? ==> DiffGood(text, limits, c.value, EndOfSections(sections, n)) && |c.value.files| == n
  {
    hide DiffGood, DiffStep;
    if n == 0 {
      NoFilesGood(text, limits);
    } else {
      DiffBodyGood(text, sections, limits, judge, n - 1);
      var c := DiffBody(sections, limits, judge, n - 1);
      if c.Ok? && DiffStep(sections[n - 1], limits, judge, c.value).Ok? {
        DiffStepGood(text, sections[n - 1], limits, judge, c.value);
      }
    }
  }

  lemma NoFilesGood(text: string, limits: Limits)
    ensures DiffGood(text, limits, DiffCursor([], {}, 0), 0)
  {
  }

  /** Whatever text the parser accepts, every hunk it builds satisfies the validator, hunks
      are in order, every line's slice cuts exactly its body out of the text, slices are
      disjoint and strictly increasing over all files, file ids are distinct, and the limits
      hold. */
  lemma ParsedSound(text: string, limits: Limits, judge: Judge)
    requires Parsed(text, limits, judge).Ok?
    ensures var files := Parsed(text, limits, judge).value;
      && AllFilesOk(text, files) && DistinctIds(files)
      && Spread(LinesOfFiles(files), 0, |text| + 1)
      && |files| <= limits.maxFiles && ChangedIn(files) <= limits.maxChangedLines
  {
    hide AllFilesOk, DistinctIds, Spread, LinesFrom, SectionEnd, DiffBody, LinesOfFiles, ChangedIn, StandsIn, Chained;
    if text == "" {
      EmptyDiff(text);
    } else {
      LinesAreCut(text, 0);
      var lines := Lines(text);
      var sections := Sections(lines, 0);
      assert AllStand(lines, text);
      SectionsNonEmpty(lines, 0);
      SectionsChained(text, lines, 0);
      DiffBodyGood(text, sections, limits, judge, |sections|);
      LastSection(sections, text);
      var files := DiffBody(sections, limits, judge, |sections|).value.files;
      SpreadWider(LinesOfFiles(files), 0, EndOfSections(sections, |sections|), 0, |text| + 1);
    }
  }

  lemma EmptyDiff(text: string)
    ensures AllFilesOk(text, []) && DistinctIds([]) && Spread(LinesOfFiles([]), 0, |text| + 1) && ChangedIn([]) == 0
  {
  }

  lemma LastSection(sections: seq<seq<PhysicalLine>>, text: string)
    requires NonEmpty(sections) && Chained(sections, text, 0)
    ensures EndOfSections(sections, |sections|) <= |text| + 1
  {
    if sections != [] {
      var last := sections[|sections| - 1];
      assert StandsIn(last[|last| - 1], text);
    }
  }
}
