/** Which error a rejected diff gets: the limits refuse only what they are about, and a hunk
    is incomplete only where its lines run out. */
module DiffErrors {
  import opened Wrappers
  import opened DiffText
  import opened DiffModel
  import opened DiffParser
  import opened DiffParserTheorems
  import opened DiffRoundTrip

  // ----- the limit on changed lines ---------------------------------------------------------

  /** Under a smaller limit: the same, or refused as too many changed lines. */
  ghost predicate SameOrTooLarge<T(!new)>(small: Result<T, ParseError>, large: Result<T, ParseError>) {
    small == large || small == Err(TooLarge(ChangedLines))
  }

  lemma {:induction false} BodyUnderLimit(lines: seq<PhysicalLine>, r: Ranges, small: nat, large: nat, c: Cursor)
    requires small <= large && Body(lines, r, large, c).Ok?
    ensures SameOrTooLarge(Body(lines, r, small, c), Body(lines, r, large, c))
    decreases |lines| - c.index
  {
    if !Complete(r, c) && c.index < |lines| {
      var next := BodyStep(lines, r, large, c);
      assert SameOrTooLarge(BodyStep(lines, r, small, c), next);
      BodyUnderLimit(lines, r, small, large, next.value);
    }
  }

  lemma HunkUnderLimit(lines: seq<PhysicalLine>, index: nat, small: nat, large: nat)
    requires small <= large && index < |lines| && HunkAt(lines, index, large).Ok?
    ensures SameOrTooLarge(HunkAt(lines, index, small), HunkAt(lines, index, large))
  {
    hide Body, Header;
    var r := Header(lines[index].body).value;
    BodyUnderLimit(lines, r, small, large, Opening(r, index + 1));
  }

  lemma FileStepUnderLimit(lines: seq<PhysicalLine>, small: nat, large: nat, c: FileCursor)
    requires small <= large && c.index < |lines| && FileStep(lines, large, c).Ok?
    ensures SameOrTooLarge(FileStep(lines, small, c), FileStep(lines, large, c))
  {
    hide HunkAt, StartsWith, Marker;
    if IsHunkStart(lines[c.index].body) {
      HunkUnderLimit(lines, c.index, Left(small, c.changed), Left(large, c.changed));
    }
  }

  lemma {:induction false} FileUnderLimit(lines: seq<PhysicalLine>, small: nat, large: nat, c: FileCursor)
    requires small <= large && FileBody(lines, large, c).Ok?
    ensures SameOrTooLarge(FileBody(lines, small, c), FileBody(lines, large, c))
    decreases |lines| - c.index
  {
    hide FileStep;
    if c.index < |lines| {
      FileStepUnderLimit(lines, small, large, c);
      FileUnderLimit(lines, small, large, FileStep(lines, large, c).value);
    }
  }

  function WithLimit(limits: Limits, n: nat): Limits {
    limits.(maxChangedLines := n)
  }

  lemma DiffStepUnderLimit(section: seq<PhysicalLine>, limits: Limits, judge: Judge, small: nat, large: nat, c: DiffCursor)
    requires small <= large && section != [] && DiffStep(section, WithLimit(limits, large), judge, c).Ok?
    ensures SameOrTooLarge(DiffStep(section, WithLimit(limits, small), judge, c), DiffStep(section, WithLimit(limits, large), judge, c))
  {
    hide FileBody, Closed, ChangedLinesOf;
    FileUnderLimit(section, Left(small, c.changed), Left(large, c.changed), FileOpening(section));
  }

  lemma {:induction false} SectionsUnderLimit(sections: seq<seq<PhysicalLine>>, limits: Limits, judge: Judge, small: nat, large: nat, n: nat)
    requires small <= large && NonEmpty(sections) && n <= |sections|
    requires DiffBody(sections, WithLimit(limits, large), judge, n).Ok?
    ensures SameOrTooLarge(DiffBody(sections, WithLimit(limits, small), judge, n), DiffBody(sections, WithLimit(limits, large), judge, n))
  {
    hide DiffStep;
    if n > 0 {
      SectionsUnderLimit(sections, limits, judge, small, large, n - 1);
      DiffStepUnderLimit(sections[n - 1], limits, judge, small, large, DiffBody(sections, WithLimit(limits, large), judge, n - 1).value);
    }
  }

  lemma {:induction false} ChangedAsWritten(hunks: seq<Hunk>, texts: seq<HunkText>)
    requires ReadsAll(hunks, texts)
    ensures ChangedLinesOf(hunks) == ChangedInHunks(texts)
  {
    if texts != [] {
      var n := |texts| - 1;
      ChangedAsWritten(hunks[..n], texts[..n]);
      assert Reads(hunks[n], texts[n]);
      assert Kinds(hunks[n].lines) == KindsText(KeptOf(texts[n].body));
    }
  }

  lemma {:induction false} ChangedAsRead(files: seq<ChangedFile>, texts: seq<FileText>, judge: Judge)
    requires ReadsFiles(files, texts, judge)
    ensures ChangedIn(files) == ChangedInFiles(texts)
  {
    hide Reads, HunksOf, HeaderOf;
    if texts != [] {
      var n := |texts| - 1;
      ChangedAsRead(files[..n], texts[..n], judge);
      assert ReadsFile(files[n], texts[n], judge);
      ChangedAsWritten(files[n].hunks, HunksOf(texts[n].items));
    }
  }

  lemma UnderSmallerLimit(text: string, limits: Limits, judge: Judge, small: nat, large: nat)
    requires small <= large && Parsed(text, WithLimit(limits, large), judge).Ok?
    ensures SameOrTooLarge(Parsed(text, WithLimit(limits, small), judge), Parsed(text, WithLimit(limits, large), judge))
  {
    hide DiffBody, Lines, Sections, IsFileStart;
    if text != "" {
      var sections := Sections(Lines(text), 0);
      SectionsNonEmpty(Lines(text), 0);
      SectionsUnderLimit(sections, limits, judge, small, large, |sections|);
    }
  }

  /** A text that is accepted under some limit on changed lines is, under any smaller one,
      accepted as the same if its changed lines are no more, and otherwise refused for them. */
  lemma TooManyChangedIff(text: string, limits: Limits, judge: Judge, small: nat, large: nat)
    requires small <= large && Parsed(text, WithLimit(limits, large), judge).Ok?
    ensures var files := Parsed(text, WithLimit(limits, large), judge).value;
      Parsed(text, WithLimit(limits, small), judge) == if ChangedIn(files) <= small then Ok(files) else Err(TooLarge(ChangedLines))
  {
    hide Parsed, ReadsFiles, FilesTextOk, DistinctFacts, AllOneLine, DiffLines, Writes, AllFilesOk, DistinctIds, Spread;
    UnderSmallerLimit(text, limits, judge, small, large);
    var files := Parsed(text, WithLimit(limits, large), judge).value;
    if Parsed(text, WithLimit(limits, small), judge).Ok? {
      ParsedSound(text, WithLimit(limits, small), judge);
    } else if ChangedIn(files) <= small {
      AcceptedIffWritten(text, WithLimit(limits, large), judge);
      var texts :| IsWritten(text, texts, WithLimit(limits, large), judge);
      ChangedAsRead(files, texts, judge);
      assert IsWritten(text, texts, WithLimit(limits, small), judge);
      AcceptedIffWritten(text, WithLimit(limits, small), judge);
    }
  }

  // ----- the other limits -----------------------------------------------------------------------

  /** What the parse of a file may fail with. */
  predicate FileError(e: ParseError) {
    e == Malformed || e == Incomplete || e == TooLarge(ChangedLines)
  }

  lemma {:induction false} BodyErrors(lines: seq<PhysicalLine>, r: Ranges, remaining: nat, c: Cursor)
    ensures Body(lines, r, remaining, c).Err? ==> FileError(Body(lines, r, remaining, c).error)
    decreases |lines| - c.index
  {
    if !Complete(r, c) && c.index < |lines| && BodyStep(lines, r, remaining, c).Ok? {
      BodyErrors(lines, r, remaining, BodyStep(lines, r, remaining, c).value);
    }
  }

  lemma FileStepErrors(lines: seq<PhysicalLine>, remaining: nat, c: FileCursor)
    requires c.index < |lines|
    ensures FileStep(lines, remaining, c).Err? ==> FileError(FileStep(lines, remaining, c).error)
  {
    hide Body, Header, StartsWith, Marker;
    var header := Header(lines[c.index].body);
    if header.Some? { BodyErrors(lines, header.value, Left(remaining, c.changed), Opening(header.value, c.index + 1)); }
  }

  lemma {:induction false} FileBodyErrors(lines: seq<PhysicalLine>, remaining: nat, c: FileCursor)
    ensures FileBody(lines, remaining, c).Err? ==> FileError(FileBody(lines, remaining, c).error)
    decreases |lines| - c.index
  {
    hide FileStep;
    if c.index < |lines| {
      FileStepErrors(lines, remaining, c);
      if FileStep(lines, remaining, c).Ok? { FileBodyErrors(lines, remaining, FileStep(lines, remaining, c).value); }
    }
  }

  lemma {:induction false} DiffBodyErrors(sections: seq<seq<PhysicalLine>>, limits: Limits, judge: Judge, n: nat)
    requires NonEmpty(sections) && n <= |sections|
    ensures DiffBody(sections, limits, judge, n).Err? ==> FileError(DiffBody(sections, limits, judge, n).error)
  {
    hide FileBody, ChangedLinesOf, InOrder;
    if n > 0 {
      DiffBodyErrors(sections, limits, judge, n - 1);
      var c := DiffBody(sections, limits, judge, n - 1);
      if c.Ok? { FileBodyErrors(sections[n - 1], Left(limits.maxChangedLines, c.value.changed), FileOpening(sections[n - 1])); }
    }
  }

  /** The lines from `from` on that open a file. */
  function FileStarts(lines: seq<PhysicalLine>, from: nat): set<nat> {
    set i: nat | from <= i < |lines| && StartsWith(lines[i].body, "diff --git ")
  }

  /** There is one section for each line that opens a file. */
  lemma {:induction false} SectionsCount(lines: seq<PhysicalLine>, start: nat)
    requires start <= |lines| && (start < |lines| ==> IsFileStart(lines[start].body))
    ensures |Sections(lines, start)| == |FileStarts(lines, start)|
    decreases |lines| - start
  {
    hide StartsWith;
    if start < |lines| {
      var end := SectionEnd(lines, start + 1);
      SectionsCount(lines, end);
      assert FileStarts(lines, start) == {start} + FileStarts(lines, end);
    } else {
      assert FileStarts(lines, start) == {};
    }
  }

  /** The limit on lines refuses exactly the texts with more lines; the one on files exactly
      those, of the others that open with a file, in which more lines open one. */
  lemma TooLargeIff(text: string, limits: Limits, judge: Judge)
    ensures Parsed(text, limits, judge) == Err(TooLarge(PhysicalLines)) <==> text != "" && |Lines(text)| > limits.maxPhysicalLines
    ensures Parsed(text, limits, judge) == Err(TooLarge(Files)) <==>
      && text != "" && 0 < |Lines(text)| <= limits.maxPhysicalLines && StartsWith(Lines(text)[0].body, "diff --git ")
      && |FileStarts(Lines(text), 0)| > limits.maxFiles
  {
    hide DiffBody, Sections, FileStarts, LinesFrom;
    if Lines(text) != [] && IsFileStart(Lines(text)[0].body) {
      var sections := Sections(Lines(text), 0);
      SectionsCount(Lines(text), 0);
      SectionsNonEmpty(Lines(text), 0);
      DiffBodyErrors(sections, limits, judge, |sections|);
    }
  }

  // ----- incomplete hunks -------------------------------------------------------------------------

  lemma {:induction false} BodyRunsOut(lines: seq<PhysicalLine>, first: nat, r: Ranges, remaining: nat, c: Cursor)
    requires Good(lines, first, r, remaining, c) && Body(lines, r, remaining, c) == Err(Incomplete)
    ensures var kept := Kept(lines[first..]);
      && (forall i :: 0 <= i < |kept| ==> Prefixed(kept[i].body))
      && OldSide(KindsOf(kept)) <= r.oldCount && NewSide(KindsOf(kept)) <= r.newCount
      && OldSide(KindsOf(kept)) + NewSide(KindsOf(kept)) < r.oldCount + r.newCount
    decreases |lines| - c.index
  {
    hide Good, BodyStep, Kept, OldSide, NewSide, Changed, Prefixed, KindOf;
    GoodIndex(lines, first, r, remaining, c);
    BodyStepNever(lines, r, remaining, c);
    if c.index < |lines| {
      StepKeepsGood(lines, first, r, remaining, c);
      BodyRunsOut(lines, first, r, remaining, BodyStep(lines, r, remaining, c).value);
    } else {
      ShortOfCounts(lines, first, r, remaining, c);
    }
  }

  lemma BodyStepNever(lines: seq<PhysicalLine>, r: Ranges, remaining: nat, c: Cursor)
    ensures c.index < |lines| ==> BodyStep(lines, r, remaining, c) != Err(Incomplete)
  {
  }

  lemma ShortOfCounts(lines: seq<PhysicalLine>, first: nat, r: Ranges, remaining: nat, c: Cursor)
    requires Good(lines, first, r, remaining, c) && !Complete(r, c) && c.index == |lines|
    ensures var kept := Kept(lines[first..]);
      && (forall i :: 0 <= i < |kept| ==> Prefixed(kept[i].body))
      && OldSide(KindsOf(kept)) <= r.oldCount && NewSide(KindsOf(kept)) <= r.newCount
      && OldSide(KindsOf(kept)) + NewSide(KindsOf(kept)) < r.oldCount + r.newCount
  {
    hide Kept, OldSide, NewSide, Changed, Prefixed, KindOf;
    assert lines[first..c.index] == lines[first..];
    KindsOfRecorded(c.drafts, Kept(lines[first..]));
  }

  /** A hunk is incomplete only if its header is well formed and all lines there are behind it
      go to its counts but do not meet them. */
  lemma IncompleteRunsOut(lines: seq<PhysicalLine>, index: nat, remaining: nat)
    requires index < |lines| && HunkAt(lines, index, remaining) == Err(Incomplete)
    ensures var header, kept := Header(lines[index].body), Kept(lines[index + 1..]);
      && header.Some?
      && (forall i :: 0 <= i < |kept| ==> Prefixed(kept[i].body))
      && OldSide(KindsOf(kept)) <= header.value.oldCount && NewSide(KindsOf(kept)) <= header.value.newCount
      && OldSide(KindsOf(kept)) + NewSide(KindsOf(kept)) < header.value.oldCount + header.value.newCount
  {
    hide Kept, Body, Header, OldSide, NewSide, Good, Prefixed, KindOf;
    var r := Header(lines[index].body).value;
    OpeningGood(lines, index + 1, r, remaining);
    BodyRunsOut(lines, index + 1, r, remaining, Opening(r, index + 1));
  }
}
