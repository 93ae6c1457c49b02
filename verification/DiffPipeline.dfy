/** From a diff's text to the texts of its work units: parse, plan, and cut the text back
    out; and from a diff as it is written to the lines that the units show. */
module DiffPipeline {
  import opened Wrappers
  import opened DiffText
  import opened DiffModel
  import opened DiffParser
  import opened DiffParserTheorems
  import opened DiffRoundTrip
  import opened Planner
  import opened ReviewPlan
  import opened ReviewPlanTheorems
  import opened Sorting

  // ----- the text of a work unit --------------------------------------------------------------

  datatype RefError = InvalidRef

  const StartOf: Slice -> int := (ref: Slice) => ref.start

  /** The slices in the order of their starts. */
  function ByStart(refs: seq<Slice>): seq<Slice> {
    SortBy(refs, StartOf)
  }

  predicate RefOk(text: string, ref: Slice) {
    && 0 < ref.start <= ref.end <= |text|
    && (text[ref.start - 1] == ' ' || text[ref.start - 1] == '+' || text[ref.start - 1] == '-')
    && ref.digest == Sha256(text[ref.start..ref.end])
  }

  ghost predicate RefsOk(text: string, refs: seq<Slice>) {
    && (forall i :: 0 <= i < |refs| ==> RefOk(text, refs[i]))
    && (forall i :: 0 < i < |refs| ==> refs[i - 1].end <= refs[i].start)
  }

  /** The line a slice stands for, with its prefix. */
  function LineAt(text: string, ref: Slice): string {
    if 0 < ref.start <= ref.end <= |text| then text[ref.start - 1..ref.end] else ""
  }

  function LinesAt(text: string, refs: seq<Slice>): seq<string> {
    seq(|refs|, i requires 0 <= i < |refs| => LineAt(text, refs[i]))
  }

  ghost function Rebuilt(text: string, refs: seq<Slice>): Result<string, RefError> {
    if refs != [] && RefsOk(text, ByStart(refs)) then Ok(Joined(LinesAt(text, ByStart(refs)))) else Err(InvalidRef)
  }

  lemma CutOut(text: string, ref: Slice)
    requires 0 < ref.start <= ref.end <= |text|
    ensures [text[ref.start - 1]] + text[ref.start..ref.end] == LineAt(text, ref)
  {
  }

  /** One more slice that is in order and cuts a line. */
  lemma RefsOkStep(text: string, refs: seq<Slice>, i: nat)
    requires i < |refs| && RefsOk(text, refs[..i])
    ensures RefsOk(text, refs[..i + 1]) <==> RefOk(text, refs[i]) && (i > 0 ==> refs[i - 1].end <= refs[i].start)
    ensures !RefsOk(text, refs[..i + 1]) ==> !RefsOk(text, refs)
    ensures LinesAt(text, refs[..i + 1]) == LinesAt(text, refs[..i]) + [LineAt(text, refs[i])]
  {
    hide RefOk, LineAt;
    if RefsOk(text, refs[..i + 1]) { assert refs[..i + 1][i] == refs[i] && (i > 0 ==> refs[..i + 1][i - 1] == refs[i - 1]); }
  }

  method WorkUnitDiff(text: string, refs: seq<Slice>) returns (result: Result<string, RefError>)
    requires forall i :: 0 <= i < |refs| ==> refs[i].start <= refs[i].end
    ensures result == Rebuilt(text, refs)
    ensures var sorted := ByStart(refs);
      result.Ok? <==>
        && refs != []
        && (forall i :: 0 <= i < |sorted| ==>
              && 0 < sorted[i].start <= sorted[i].end <= |text|
              && text[sorted[i].start - 1] in [' ', '+', '-']
              && sorted[i].digest.preimage == text[sorted[i].start..sorted[i].end])
        && (forall i :: 0 < i < |sorted| ==> sorted[i - 1].end <= sorted[i].start)
    ensures var sorted := ByStart(refs);
      result.Ok? ==>
        && result.value == Joined(LinesAt(text, sorted)) && |LinesAt(text, sorted)| == |sorted|
        && forall i :: 0 <= i < |sorted| ==>
             0 < sorted[i].start <= sorted[i].end <= |text|
             && LinesAt(text, sorted)[i] == text[sorted[i].start - 1..sorted[i].end]
  {
    RebuiltIff(text, refs);
    hide ByStart, Joined, Join, LineAt, RefsOk, LinesAt;
    var sorted := SortedRefs(refs);
    var lines: seq<string> := [];
    var previousEnd: int := -1;
    NoRefs(text, sorted);
    for i := 0 to |sorted|
      invariant lines == LinesAt(text, sorted[..i]) && |lines| == i
      invariant previousEnd == if i == 0 then -1 else sorted[i - 1].end
      invariant RefsOk(text, sorted[..i])
    {
      var ref := sorted[i];
      RefsOkStep(text, sorted, i);
      if ref.start <= 0 || ref.start < previousEnd || ref.end > |text| { return Err(InvalidRef); }
      var prefix, content := text[ref.start - 1], text[ref.start..ref.end];
      if (prefix != ' ' && prefix != '+' && prefix != '-') || Sha256(content) != ref.digest { return Err(InvalidRef); }
      CutOut(text, ref);
      lines := lines + [[prefix] + content];
      previousEnd := ref.end;
    }
    assert sorted[..|sorted|] == sorted;
    if lines == [] { return Err(InvalidRef); }
    JoinedIs(lines);
    return Ok(Join(lines) + "\n");
  }

  lemma RebuiltIff(text: string, refs: seq<Slice>)
    ensures var sorted := ByStart(refs);
      Rebuilt(text, refs).Ok? <==>
        && refs != []
        && (forall i :: 0 <= i < |sorted| ==>
              && 0 < sorted[i].start <= sorted[i].end <= |text|
              && text[sorted[i].start - 1] in [' ', '+', '-']
              && sorted[i].digest.preimage == text[sorted[i].start..sorted[i].end])
        && (forall i :: 0 < i < |sorted| ==> sorted[i - 1].end <= sorted[i].start)
    ensures var sorted := ByStart(refs);
      Rebuilt(text, refs).Ok? ==>
        forall i :: 0 <= i < |sorted| ==>
          0 < sorted[i].start <= sorted[i].end <= |text| && LinesAt(text, sorted)[i] == text[sorted[i].start - 1..sorted[i].end]
  {
    hide ByStart, Joined;
    var sorted := ByStart(refs);
    forall i | 0 <= i < |sorted|
      ensures RefOk(text, sorted[i]) <==>
        && 0 < sorted[i].start <= sorted[i].end <= |text|
        && text[sorted[i].start - 1] in [' ', '+', '-']
        && sorted[i].digest.preimage == text[sorted[i].start..sorted[i].end]
    {
    }
  }

  lemma NoRefs(text: string, refs: seq<Slice>)
    ensures LinesAt(text, refs[..0]) == [] && RefsOk(text, refs[..0])
  {
  }

  method SortedRefs(refs: seq<Slice>) returns (sorted: seq<Slice>)
    requires forall i :: 0 <= i < |refs| ==> refs[i].start <= refs[i].end
    ensures sorted == ByStart(refs) && |sorted| == |refs|
    ensures forall i :: 0 <= i < |sorted| ==> sorted[i].start <= sorted[i].end
  {
    sorted := ByStart(refs);
    assert |multiset(sorted)| == |multiset(refs)|;
    forall i | 0 <= i < |sorted| ensures sorted[i].start <= sorted[i].end {
      assert sorted[i] in multiset(refs);
    }
  }

  // ----- cutting back what was parsed -----------------------------------------------------------

  /** Slices that cut whole lines, in order and apart. */
  ghost predicate GoodRefs(text: string, refs: seq<Slice>) {
    && (forall i :: 0 <= i < |refs| ==> RefOk(text, refs[i]))
    && (forall i, j :: 0 <= i < j < |refs| ==> refs[i].end + 1 < refs[j].start)
  }

  lemma GoodRebuilds(text: string, refs: seq<Slice>)
    requires GoodRefs(text, refs) && refs != []
    ensures Rebuilt(text, refs) == Ok(Joined(LinesAt(text, refs)))
  {
    OrderedStays(refs, StartOf);
  }

  lemma LinesGiveGoodRefs(text: string, lines: seq<Line>, low: nat, high: nat)
    requires AllCut(text, lines) && Spread(lines, low, high)
    ensures GoodRefs(text, Slices(lines))
  {
    hide LineAt;
    forall i | 0 <= i < |lines| ensures RefOk(text, lines[i].slice) {
      assert Cuts(text, lines[i]);
    }
  }

  lemma GoodParts(text: string, a: seq<Slice>, b: seq<Slice>)
    requires GoodRefs(text, a + b)
    ensures GoodRefs(text, a) && GoodRefs(text, b)
  {
    hide RefOk;
    assert forall i :: 0 <= i < |a| ==> (a + b)[i] == a[i];
    assert forall i :: 0 <= i < |b| ==> (a + b)[|a| + i] == b[i];
  }

  lemma {:induction false} JoinedBoth(a: seq<string>, b: seq<string>)
    ensures Joined(a + b) == Joined(a) + Joined(b)
  {
    if a == [] {
      assert a + b == b;
    } else {
      JoinedBoth(a[1..], b);
      assert (a + b)[1..] == a[1..] + b;
      assert a[0] + "\n" + (Joined(a[1..]) + Joined(b)) == a[0] + "\n" + Joined(a[1..]) + Joined(b);
    }
  }

  /** The texts of the units one after the other. */
  ghost function UnitTexts(text: string, units: seq<WorkUnit>): string {
    if units == [] then ""
    else
      var last := Rebuilt(text, units[|units| - 1].refs);
      UnitTexts(text, units[..|units| - 1]) + (if last.Ok? then last.value else "")
  }

  lemma {:induction false} UnitsRebuild(text: string, units: seq<WorkUnit>)
    requires GoodRefs(text, Flatten(Refs(units)))
    requires forall i :: 0 <= i < |units| ==> units[i].refs != []
    ensures forall i :: 0 <= i < |units| ==> Rebuilt(text, units[i].refs).Ok?
    ensures UnitTexts(text, units) == Joined(LinesAt(text, Flatten(Refs(units))))
  {
    hide GoodRefs, Rebuilt, Joined, LineAt, Flatten;
    if units == [] {
      NoText(text);
    } else {
      var init, last := units[..|units| - 1], units[|units| - 1];
      assert Refs(units) == Refs(init) + [last.refs];
      FlattenOneMore(Refs(init), last.refs);
      GoodParts(text, Flatten(Refs(init)), last.refs);
      UnitsRebuild(text, init);
      GoodRebuilds(text, last.refs);
      JoinedBoth(LinesAt(text, Flatten(Refs(init))), LinesAt(text, last.refs));
      assert LinesAt(text, Flatten(Refs(units))) == LinesAt(text, Flatten(Refs(init))) + LinesAt(text, last.refs);
      forall i | 0 <= i < |units| ensures Rebuilt(text, units[i].refs).Ok? {
        if i < |init| { assert units[i] == init[i]; }
      }
    }
  }

  lemma NoText(text: string)
    ensures Refs([]) == [] && Flatten<Slice>([]) == [] && LinesAt(text, []) == [] && Joined([]) == ""
  {
  }

  /** Subsequences of the file's lines, hunk by hunk, keep being cut and spread. */
  lemma {:induction false} ReviewedStayGood(text: string, hunks: seq<Hunk>, capacity: Capacity, low: nat, high: nat)
    requires AllCut(text, AllLines(hunks)) && Spread(AllLines(hunks), low, high)
    ensures AllCut(text, ReviewedLines(hunks, capacity)) && Spread(ReviewedLines(hunks, capacity), low, high)
    ensures forall x :: x in ReviewedLines(hunks, capacity) ==> x in AllLines(hunks)
  {
    hide Reviewable, Cuts;
    if hunks != [] {
      var init, last := hunks[..|hunks| - 1], hunks[|hunks| - 1];
      var a, b := AllLines(init), last.lines;
      SpreadParts(text, a, b, low, high);
      ReviewedStayGood(text, init, capacity, low, high);
      var kept := ReviewedLines(init, capacity);
      forall i, j | 0 <= i < |kept| && 0 <= j < |b| ensures kept[i].slice.end + 1 < b[j].slice.start {
        assert kept[i] in kept;
        var k :| 0 <= k < |a| && a[k] == kept[i];
        assert (a + b)[k] == a[k] && (a + b)[|a| + j] == b[j];
      }
    }
  }

  lemma SpreadParts(text: string, a: seq<Line>, b: seq<Line>, low: nat, high: nat)
    requires AllCut(text, a + b) && Spread(a + b, low, high)
    ensures AllCut(text, a) && Spread(a, low, high) && AllCut(text, b) && Spread(b, low, high)
  {
    hide Cuts;
    assert forall i :: 0 <= i < |a| ==> (a + b)[i] == a[i];
    assert forall i :: 0 <= i < |b| ==> (a + b)[|a| + i] == b[i];
  }

  /** The spread of all lines of a diff, restricted to one file. */
  lemma {:induction false} FileSpread(files: seq<ChangedFile>, k: nat, low: nat, high: nat)
    requires k < |files| && Spread(LinesOfFiles(files), low, high)
    ensures Spread(AllLines(files[k].hunks), low, high)
  {
    hide Spread, AllLines;
    var init, last := files[..|files| - 1], files[|files| - 1];
    SpreadHalves(LinesOfFiles(init), AllLines(last.hunks), low, high);
    if k < |init| { FileSpread(init, k, low, high); }
  }

  lemma SpreadHalves(a: seq<Line>, b: seq<Line>, low: nat, high: nat)
    requires Spread(a + b, low, high)
    ensures Spread(a, low, high) && Spread(b, low, high)
  {
    assert forall i :: 0 <= i < |a| ==> (a + b)[i] == a[i];
    assert forall i :: 0 <= i < |b| ==> (a + b)[|a| + i] == b[i];
  }

  ghost predicate NonEmptyHunks(hunks: seq<Hunk>) {
    forall i :: 0 <= i < |hunks| ==> hunks[i].lines != []
  }

  /** Parsing a diff, planning a file of it and rebuilding each unit's text never fails for
      non-empty hunks; the unit texts, in rank order, are the lines of the file's reviewable
      hunks with their prefixes, in order; and no line is in two units or twice in one. */
  lemma PipelineRebuilds(text: string, limits: Limits, judge: Judge, k: nat, capacity: Capacity, rank: nat)
    requires capacity.Valid() && Parsed(text, limits, judge).Ok? && k < |Parsed(text, limits, judge).value|
    requires NonEmptyHunks(Parsed(text, limits, judge).value[k].hunks)
    ensures var file := Parsed(text, limits, judge).value[k];
      && FilePlan(file, capacity, rank).Ok?
      && var units := FilePlan(file, capacity, rank).value.units;
      && (forall i :: 0 <= i < |units| ==> units[i].rank == rank + i)
      && (forall i :: 0 <= i < |units| ==> Rebuilt(text, units[i].refs).Ok?)
      && UnitTexts(text, units) == Joined(LinesAt(text, Slices(ReviewedLines(file.hunks, capacity))))
      && NoDuplicates(Flatten(Refs(units)))
  {
    hide FilePlan, Parsed, Rebuilt, ReviewedLines, AllLines, GoodRefs, AllCut, Spread, LinesOfFiles, ValidHunk, Flatten,
      LinesAt, Slices, Within, FilesPlan, InOrder, DistinctIds;
    var files := Parsed(text, limits, judge).value;
    var file := files[k];
    ParsedSound(text, limits, judge);
    FileSpread(files, k, 0, |text| + 1);
    assert FileOk(text, file);
    FilePlanCovers(file, capacity, rank);
    ReviewedStayGood(text, file.hunks, capacity, 0, |text| + 1);
    var lines := ReviewedLines(file.hunks, capacity);
    LinesGiveGoodRefs(text, lines, 0, |text| + 1);
    var units := FilePlan(file, capacity, rank).value.units;
    UnitsRebuild(text, units);
    GoodDiffer(text, Slices(lines));
  }

  lemma GoodDiffer(text: string, refs: seq<Slice>)
    requires GoodRefs(text, refs)
    ensures NoDuplicates(refs)
  {
    assert forall i, j :: 0 <= i < j < |refs| ==> refs[i].end + 1 < refs[j].start;
  }

  /** When the context holds at least 262 tokens every hunk is reviewable, and the unit texts
      are all the body lines of the file. */
  lemma {:induction false} AllReviewableFrom262(hunks: seq<Hunk>, capacity: Capacity)
    requires capacity.contextLimit >= SmallestContext
    ensures ReviewedLines(hunks, capacity) == AllLines(hunks)
  {
    AllReviewed(hunks, capacity);
  }

  // ----- which parsed diffs can be planned --------------------------------------------------------

  lemma {:induction false} HunksDiffer(text: string, hunks: seq<Hunk>, low: nat, high: nat)
    requires AllCut(text, AllLines(hunks)) && Spread(AllLines(hunks), low, high) && NonEmptyHunks(hunks)
    ensures NoDuplicates(hunks)
  {
    if hunks != [] {
      var init, last := hunks[..|hunks| - 1], hunks[|hunks| - 1];
      var a, b := AllLines(init), last.lines;
      assert forall i :: 0 <= i < |a| ==> (a + b)[i] == a[i];
      assert (a + b)[|a|] == b[0] && Cuts(text, b[0]);
      SpreadParts(text, a, b, low, high);
      HunksDiffer(text, init, low, high);
      forall i | 0 <= i < |init| ensures hunks[i] != last {
        HunkLinesIn(init, i);
        assert init[i].lines[0] in a;
        var j :| 0 <= j < |a| && a[j] == init[i].lines[0];
        assert (a + b)[j] == a[j];
      }
    }
  }

  lemma {:induction false} HunkLinesIn(hunks: seq<Hunk>, i: nat)
    requires i < |hunks|
    ensures forall x :: x in hunks[i].lines ==> x in AllLines(hunks)
  {
    if i < |hunks| - 1 { HunkLinesIn(hunks[..|hunks| - 1], i); }
  }

  /** The files of a parsed diff are planned, exactly unless some hunk that does not fit by
      itself is cut into blocks two of which have the same line contents. */
  lemma ParsedPlanAcceptedIff(text: string, limits: Limits, judge: Judge, capacity: Capacity)
    requires capacity.Valid() && Parsed(text, limits, judge).Ok?
    requires var files := Parsed(text, limits, judge).value; forall i :: 0 <= i < |files| ==> NonEmptyHunks(files[i].hunks)
    ensures var files := Parsed(text, limits, judge).value; ReviewPlanOf(files, capacity).Ok? <==> AllCutsDiffer(files, capacity)
  {
    hide Parsed, AllLines, LinesOfFiles, ReviewPlanOf, AllCutsDiffer, NonEmptyHunks, FileOk, Spread, PlannableFile;
    var files := Parsed(text, limits, judge).value;
    ParsedSound(text, limits, judge);
    forall i | 0 <= i < |files| ensures PlannableFile(files[i]) {
      FileSpread(files, i, 0, |text| + 1);
      FilePlannable(text, files[i]);
    }
    PlanAcceptedIff(files, capacity);
  }

  ghost predicate AllRebuild(text: string, units: seq<WorkUnit>) {
    forall i :: 0 <= i < |units| ==> Rebuilt(text, units[i].refs).Ok?
  }

  lemma {:induction false} FilesRebuild(text: string, limits: Limits, judge: Judge, ordered: seq<ChangedFile>, capacity: Capacity)
    requires capacity.Valid() && Parsed(text, limits, judge).Ok?
    requires forall i :: 0 <= i < |ordered| ==> ordered[i] in Parsed(text, limits, judge).value && NonEmptyHunks(ordered[i].hunks)
    ensures FilesPlan(ordered, capacity).Ok? && AllRebuild(text, FilesPlan(ordered, capacity).value.units)
  {
    hide Parsed, FilePlan, Rebuilt, NonEmptyHunks, ReviewedLines;
    if ordered != [] {
      var init, file := ordered[..|ordered| - 1], ordered[|ordered| - 1];
      FilesRebuild(text, limits, judge, init, capacity);
      var files := Parsed(text, limits, judge).value;
      var k :| 0 <= k < |files| && files[k] == file;
      PipelineRebuilds(text, limits, judge, k, capacity, |FilesPlan(init, capacity).value.units|);
    }
  }

  /** Planning a parsed diff of non-empty hunks never raises on a range, and the text of
      every unit of its plan can be rebuilt. */
  lemma PlanRebuilds(text: string, limits: Limits, judge: Judge, capacity: Capacity)
    requires capacity.Valid() && Parsed(text, limits, judge).Ok?
    requires var files := Parsed(text, limits, judge).value; forall i :: 0 <= i < |files| ==> NonEmptyHunks(files[i].hunks)
    ensures var plan := ReviewPlanOf(Parsed(text, limits, judge).value, capacity);
      plan == Err(PlanRejected) || (plan.Ok? && AllRebuild(text, plan.value.units))
  {
    hide Parsed, FilesPlan, AllRebuild, NonEmptyHunks, Frozen, InPlanOrder;
    var files := Parsed(text, limits, judge).value;
    var ordered := InPlanOrder(files);
    OrderedFiles(files);
    FilesRebuild(text, limits, judge, ordered, capacity);
  }

  lemma FilePlannable(text: string, file: ChangedFile)
    requires FileOk(text, file) && NonEmptyHunks(file.hunks) && Spread(AllLines(file.hunks), 0, |text| + 1)
    ensures PlannableFile(file)
  {
    hide AllLines, Spread, ValidHunk, AllCut;
    HunksDiffer(text, file.hunks, 0, |text| + 1);
  }

  // ----- from the written diff to the units -----------------------------------------------------

  /** The body lines of these hunks as they are written, no-newline markers left out. */
  function AllKept(texts: seq<HunkText>): seq<string> {
    if texts == [] then [] else AllKept(texts[..|texts| - 1]) + KeptOf(texts[|texts| - 1].body)
  }

  lemma CutAsWritten(text: string, line: Line, body: string)
    requires Cuts(text, line) && Prefixed(body) && line.kind == KindOf(body) && line.slice.digest == Sha256(body[1..])
    ensures LineAt(text, line.slice) == body
  {
    var s := line.slice;
    assert text[s.start - 1..s.end] == [text[s.start - 1]] + text[s.start..s.end];
    assert body == [body[0]] + body[1..];
  }

  lemma HunkAsWritten(text: string, h: Hunk, t: HunkText)
    requires Reads(h, t) && HunkTextOk(t) && AllCut(text, h.lines)
    ensures LinesAt(text, Slices(h.lines)) == KeptOf(t.body)
  {
    hide Cuts, KeptOf, LineAt;
    var kept := KeptOf(t.body);
    forall i | 0 <= i < |kept| ensures LineAt(text, h.lines[i].slice) == kept[i] {
      CutAsWritten(text, h.lines[i], kept[i]);
    }
  }

  lemma {:induction false} LinesAsWritten(text: string, hunks: seq<Hunk>, texts: seq<HunkText>)
    requires ReadsAll(hunks, texts) && AllCut(text, AllLines(hunks))
    requires forall i :: 0 <= i < |texts| ==> HunkTextOk(texts[i])
    ensures LinesAt(text, Slices(AllLines(hunks))) == AllKept(texts)
  {
    hide Cuts, Reads, HunkTextOk, LineAt, KeptOf;
    if hunks != [] {
      var init, last := hunks[..|hunks| - 1], hunks[|hunks| - 1];
      var a, b := AllLines(init), last.lines;
      assert forall i :: 0 <= i < |a| ==> (a + b)[i] == a[i];
      assert forall i :: 0 <= i < |b| ==> (a + b)[|a| + i] == b[i];
      LinesAsWritten(text, init, texts[..|texts| - 1]);
      HunkAsWritten(text, last, texts[|texts| - 1]);
      assert LinesAt(text, Slices(a + b)) == LinesAt(text, Slices(a)) + LinesAt(text, Slices(b));
    }
  }

  lemma WrittenNonEmpty(hunks: seq<Hunk>, texts: seq<HunkText>)
    requires ReadsAll(hunks, texts) && forall i :: 0 <= i < |texts| ==> HunkTextOk(texts[i]) && texts[i].body != []
    ensures NonEmptyHunks(hunks)
  {
    hide Prefixed, KindOf, Header;
    forall i | 0 <= i < |hunks| ensures hunks[i].lines != [] {
      assert Reads(hunks[i], texts[i]) && HunkTextOk(texts[i]);
      LastIsKept(texts[i].body);
    }
  }

  lemma LastIsKept(body: seq<string>)
    requires body != [] && body[|body| - 1] != Marker
    ensures KeptOf(body) != []
  {
  }

  /** End to end: a diff written from well-formed files is parsed, and every file of it with
      non-empty hunks is planned; with a context of 262 tokens or more its unit texts, put
      together in rank order, are exactly the body lines of its hunks as written. */
  lemma UnitsShowWhatWasWritten(text: string, files: seq<FileText>, limits: Limits, judge: Judge, k: nat, capacity: Capacity, rank: nat)
    requires WellWritten(files, limits, judge) && Writes(text, DiffLines(files)) && k < |files|
    requires var hunks := HunksOf(files[k].items); forall i :: 0 <= i < |hunks| ==> hunks[i].body != []
    requires capacity.Valid() && capacity.contextLimit >= SmallestContext
    ensures var parsed := Parsed(text, limits, judge);
      && parsed.Ok? && |parsed.value| == |files| && FilePlan(parsed.value[k], capacity, rank).Ok?
      && UnitTexts(text, FilePlan(parsed.value[k], capacity, rank).value.units) == Joined(AllKept(HunksOf(files[k].items)))
  {
    hide FileTextOk, DistinctFacts, DiffLines, Joined, Parsed, FilePlan, ReadsFile, LinesAt, Slices, AllLines, AllKept, UnitTexts,
      NonEmptyHunks, FileOk, Rebuilt, LinesOfFiles, HunksOf, Writes, AllOneLine;
    WrittenDiffParses(text, files, limits, judge);
    var parsed, hunks := Parsed(text, limits, judge).value, HunksOf(files[k].items);
    assert ReadsFile(parsed[k], files[k], judge);
    FileHunksRead(parsed[k], files[k], judge);
    WrittenNonEmpty(parsed[k].hunks, hunks);
    PipelineRebuilds(text, limits, judge, k, capacity, rank);
    AllReviewableFrom262(parsed[k].hunks, capacity);
    ParsedSound(text, limits, judge);
    FileLinesCut(text, parsed[k]);
    LinesAsWritten(text, parsed[k].hunks, hunks);
  }

  lemma FileHunksRead(file: ChangedFile, f: FileText, judge: Judge)
    requires ReadsFile(file, f, judge) && FileTextOk(f, judge)
    ensures var hunks := HunksOf(f.items);
      ReadsAll(file.hunks, hunks) && forall i :: 0 <= i < |hunks| ==> HunkTextOk(hunks[i])
  {
    hide HunkTextOk, Reads, HasPair, LinesOfItems, HeaderOfItems;
    HunksAreOk(f.items, |f.items|);
    assert f.items[..|f.items|] == f.items;
  }

  lemma {:induction false} HunksAreOk(items: seq<Item>, n: nat)
    requires ItemsOk(items) && n <= |items|
    ensures forall t :: t in HunksOf(items[..n]) ==> HunkTextOk(t)
  {
    hide HunkTextOk, HasPair, LinesOfItems, HeaderOfItems;
    if n > 0 {
      HunksAreOk(items, n - 1);
      OneMoreItem(items, n - 1);
      assert ItemOk(items[..n - 1], items[n - 1]);
    }
  }

  lemma FileLinesCut(text: string, file: ChangedFile)
    requires FileOk(text, file)
    ensures AllCut(text, AllLines(file.hunks))
  {
  }

  // ----- a diff that is accepted and cannot be planned -----------------------------------------

  const TwinLine := "+return None;"

  const TwinText := HunkText("@@ -0,0 +1,2 @@", Ranges(0, 0, 1, 2), [TwinLine, TwinLine])

  /** A diff of one file that adds two equal lines. */
  const TwinFile := FileText("diff --git a/f b/f", [MarkerPair("--- /dev/null", "+++ b/f"), Block(TwinText)])

  lemma TwinHeader()
    ensures Header(TwinText.header) == Some(TwinText.ranges)
  {
    hide Header;
    HeaderOfRendered(TwinText.ranges, true, "");
    assert Decimal(0) == "0" && Decimal(1) == "1" && Decimal(2) == "2";
    assert RenderHeader(TwinText.ranges, true, "") == TwinText.header;
  }

  lemma TwinKept()
    ensures KeptOf([TwinLine, TwinLine]) == [TwinLine, TwinLine] && TwinLine != Marker
  {
    assert TwinLine[0] == '+' && Marker[0] == '\\';
    assert [TwinLine, TwinLine][..1] == [TwinLine] && [TwinLine][..0] == [];
    assert KeptOf([TwinLine]) == [TwinLine];
  }

  lemma TwinTextOk()
    ensures HunkTextOk(TwinText) && ChangedText(TwinText) == 2
  {
    hide Header, KeptOf;
    TwinHeader();
    TwinKept();
    assert KindsText([TwinLine, TwinLine]) == [] + [Addition] + [Addition];
    CountOne([], Addition);
    CountOne([] + [Addition], Addition);
  }

  lemma TwinStarts()
    ensures StartsWith("diff --git a/f b/f", "diff --git ") && StartsWith("--- /dev/null", "--- ") && StartsWith("+++ b/f", "+++ ")
  {
  }

  lemma TwinFileOk(judge: Judge)
    requires judge(HeaderOf(TwinFile)).Some? && !judge(HeaderOf(TwinFile)).value.binary
    ensures FileTextOk(TwinFile, judge) && HunksOf(TwinFile.items) == [TwinText]
    ensures FileLines(TwinFile) == [TwinFile.first, "--- /dev/null", "+++ b/f", TwinText.header, TwinLine, TwinLine]
  {
    hide HunkTextOk, HeaderOf, HunksOf, StartsWith, FileLines, FileTextOk;
    TwinTextOk();
    TwinStarts();
    PairAndBlockFileOk(TwinFile, TwinFile.items[0], TwinText, judge);
  }

  lemma TwinLinesOk()
    ensures AllOneLine([TwinFile.first, "--- /dev/null", "+++ b/f", TwinText.header, TwinLine, TwinLine])
  {
    hide OneLine;
    HeaderLinesOk();
    HunkLinesOk();
  }

  lemma HeaderLinesOk()
    ensures OneLine(TwinFile.first) && OneLine("--- /dev/null") && OneLine("+++ b/f")
  {
  }

  lemma HunkLinesOk()
    ensures OneLine(TwinText.header) && OneLine(TwinLine)
  {
  }

  /** The parser accepts it, and the planner refuses it at a context of 262 tokens. */
  lemma TwinDiffRefused(judge: Judge)
    requires judge(HeaderOf(TwinFile)).Some? && !judge(HeaderOf(TwinFile)).value.binary
    ensures var parsed := Parsed(Joined(DiffLines([TwinFile])), Limits(6, 1, 2), judge);
      parsed.Ok? && ReviewPlanOf(parsed.value, TinyCapacity).Err?
  {
    hide FileTextOk, Joined, Parsed, ReviewPlanOf, HunksOf, HeaderOf, FileLines, PlannableFile, AllOneLine, Join, FileOk, Spread, LinesOfFiles,
      HunkTextOk, ChangedText, AllLines;
    var text, limits := Joined(DiffLines([TwinFile])), Limits(6, 1, 2);
    TwinFileOk(judge);
    TwinLinesOk();
    TwinTextOk();
    assert [TwinFile][..0] == [] && DiffLines([TwinFile]) == [] + FileLines(TwinFile) == FileLines(TwinFile);
    assert [TwinText][..0] == [] && ChangedInHunks([TwinText]) == 2;
    assert ChangedInFiles([TwinFile]) == ChangedInFiles([]) + ChangedInHunks(HunksOf(TwinFile.items));
    WrittenDiffParses(text, [TwinFile], limits, judge);
    var files := Parsed(text, limits, judge).value;
    assert ReadsFile(files[0], [TwinFile][0], judge);
    ParsedSound(text, limits, judge);
    FileSpread(files, 0, 0, |text| + 1);
    FileHunksRead(files[0], TwinFile, judge);
    WrittenNonEmpty(files[0].hunks, [TwinText]);
    FilePlannable(text, files[0]);
    TwinsRead(text, files[0]);
    EqualBlocksRefused(files[0]);
    assert files == [files[0]];
  }

  lemma TwinsRead(text: string, file: ChangedFile)
    requires ReadsAll(file.hunks, [TwinText]) && FileOk(text, file)
    ensures |file.hunks| == 1 && Twins(file.hunks[0])
  {
    hide Reads, ValidHunk, InOrder, Cuts, TwinText, TwinLine;
    var h := file.hunks[0];
    assert Reads(h, [TwinText][0]);
    TwinHunkRead(h);
    assert file.hunks[..0] == [] && AllLines(file.hunks) == [] + h.lines == h.lines;
    CutLength(text, h.lines[0], TwinLine[1..]);
    CutLength(text, h.lines[1], TwinLine[1..]);
  }

  lemma TwinHunkRead(h: Hunk)
    requires Reads(h, TwinText)
    ensures |h.lines| == 2 && |TwinLine| == 13
    ensures h.lines[0].slice.digest == Sha256(TwinLine[1..]) == h.lines[1].slice.digest
  {
    hide KeptOf, KindOf;
    TwinKept();
  }

  lemma CutLength(text: string, line: Line, content: string)
    requires Cuts(text, line) && line.slice.digest == Sha256(content)
    ensures line.slice.end == line.slice.start + |content|
  {
  }
}
