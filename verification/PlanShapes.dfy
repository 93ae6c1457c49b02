/** What the units of a plan are made of, and the order they stand in. */
module PlanShapes {
  import opened Wrappers
  import opened DiffModel
  import opened Planner
  import opened ReviewPlan
  import opened Sorting

  // ----- what fits ----------------------------------------------------------------------------

  /** Hunks fit exactly if their contents are less than four bytes for every token of the
      context above 256, and they have at most two lines and one more for every token of the
      output. */
  lemma FitsIff(hunks: seq<Hunk>, capacity: Capacity)
    requires capacity.Valid()
    ensures Fits(hunks, capacity) <==>
      && Bytes(AllLines(hunks)) < 4 * (capacity.contextLimit - 256)
      && |AllLines(hunks)| <= 2 * capacity.outputLimit + 1
  {
    hide Bytes, AllLines;
  }

  /** The contents of the lines, one behind the other. */
  function Written(lines: seq<Line>): string {
    if lines == [] then "" else Written(lines[..|lines| - 1]) + lines[|lines| - 1].slice.digest.preimage
  }

  /** The bytes counted are those of the contents, when slices are as long as what they cut. */
  lemma {:induction false} BytesAreWritten(lines: seq<Line>)
    requires forall i :: 0 <= i < |lines| ==> lines[i].slice.end == lines[i].slice.start + |lines[i].slice.digest.preimage|
    ensures Bytes(lines) == |Written(lines)|
  {
    if lines != [] { BytesAreWritten(lines[..|lines| - 1]); }
  }

  // ----- boxing -------------------------------------------------------------------------------

  /** A group is closed only when the hunk behind it does not fit into it any more. */
  ghost predicate ClosedWhenFull(groups: seq<seq<Hunk>>, capacity: Capacity) {
    forall i :: 0 < i < |groups| ==> Full(groups[i - 1], groups[i], capacity)
  }

  predicate Full(group: seq<Hunk>, next: seq<Hunk>, capacity: Capacity) {
    next != [] && !Fits(group + [next[0]], capacity)
  }

  lemma {:induction false} BoxingIsGreedy(hunks: seq<Hunk>, capacity: Capacity)
    ensures ClosedWhenFull(Boxed(hunks, capacity).All(), capacity)
  {
    hide Fits, Partition, Boxes;
    if hunks != [] {
      var init, hunk := hunks[..|hunks| - 1], hunks[|hunks| - 1];
      BoxingIsGreedy(init, capacity);
      BoxedPartitions(init, capacity);
      BoxesOpen(Boxed(init, capacity), init, capacity);
      PutGreedy(Boxed(init, capacity), hunk, capacity);
    }
  }

  lemma BoxesOpen(b: Boxing, hunks: seq<Hunk>, capacity: Capacity)
    requires Boxes(b, hunks, capacity)
    ensures b.current == [] ==> b.groups == []
  {
  }

  lemma PutGreedy(b: Boxing, hunk: Hunk, capacity: Capacity)
    requires ClosedWhenFull(b.All(), capacity) && (b.current == [] ==> b.groups == [])
    ensures ClosedWhenFull(Put(b, hunk, capacity).All(), capacity)
  {
    hide Fits;
    var after := Put(b, hunk, capacity);
    if b.current != [] {
      assert forall i :: 0 <= i < |b.groups| ==> b.All()[i] == b.groups[i] && after.All()[i] == b.groups[i];
      assert b.All()[|b.groups|] == b.current;
    }
  }

  // ----- blocks -------------------------------------------------------------------------------

  /** A hunk can be cut into blocks from a context of 262 tokens on; blocks then have as many
      lines as five tokens of the context above 257 each, and the output, allow. */
  lemma BlocksAre(lines: seq<Line>, capacity: Capacity)
    requires capacity.Valid()
    ensures BlocksOf(lines, capacity).Some? <==> lines != [] && capacity.contextLimit >= 262
    ensures BlocksOf(lines, capacity).Some? ==>
      var byContext, byOutput := (capacity.contextLimit - 257) / 5, 2 * capacity.outputLimit + 1;
      var limit := if byContext < byOutput then byContext else byOutput;
      var size := if |lines| < limit then |lines| else limit;
      && 0 < size && BlocksOf(lines, capacity).value == Chunks(lines, size)
      && forall i :: 0 <= i < |Chunks(lines, size)| ==> |Chunks(lines, size)[i]| <= limit
  {
    if BlocksOf(lines, capacity).Some? { ChunksDivide(lines, Min(|lines|, BlockLimit(capacity))); }
  }

  // ----- the units of a file --------------------------------------------------------------------

  /** A unit has the slices of its hunks or its block, the scope made from them, and the
      estimate for them; a block is cut from a hunk of the file that does not fit by itself. */
  ghost predicate ShapedFor(unit: WorkUnit, file: ChangedFile, capacity: Capacity) {
    && unit.fileId == unit.scopeId.fileId == file.fileId
    && match unit.kind
       case WholeFile =>
         && unit.scopeId == FileScope(file.fileId)
         && Fits(file.hunks, capacity)
         && MadeFromHunks(unit, file.hunks)
       case HunkGroup =>
         && unit.scopeId.GroupScope? && Fits(unit.scopeId.hunks, capacity) && !Fits(file.hunks, capacity)
         && MadeFromHunks(unit, unit.scopeId.hunks)
         && (forall i :: 0 <= i < |unit.scopeId.hunks| ==> unit.scopeId.hunks[i] in file.hunks)
       case LineBlock =>
         && unit.scopeId.BlockScope? && unit.scopeId.hunk in file.hunks && !Fits([unit.scopeId.hunk], capacity)
         && MadeFromBlock(unit)
  }

  ghost predicate MadeFromHunks(unit: WorkUnit, hunks: seq<Hunk>) {
    var lines := AllLines(hunks);
    && |unit.refs| == |lines| && (forall i :: 0 <= i < |lines| ==> unit.refs[i] == lines[i].slice)
    && unit.estimate.inputTokens == 257 + Bytes(lines) / 4
    && unit.estimate.outputTokens == (if |lines| < 4 then 1 else |lines| / 2)
  }

  ghost predicate MadeFromBlock(unit: WorkUnit) {
    && unit.scopeId.BlockScope? && |unit.scopeId.contents| == |unit.refs|
    && (forall i :: 0 <= i < |unit.refs| ==> unit.scopeId.contents[i] == unit.refs[i].digest)
    && unit.estimate.inputTokens == 257 + 5 * |unit.refs|
    && unit.estimate.outputTokens == (if |unit.refs| < 4 then 1 else |unit.refs| / 2)
  }

  ghost predicate AllShaped(units: seq<WorkUnit>, file: ChangedFile, capacity: Capacity, rank: nat) {
    forall i :: 0 <= i < |units| ==> ShapedFor(units[i], file, capacity) && units[i].rank == rank + i
  }

  lemma BlockShaped(plan: Plan, file: ChangedFile, hunk: Hunk, block: seq<Line>, capacity: Capacity, rank: nat)
    requires AllShaped(plan.units, file, capacity, rank) && hunk in file.hunks && !Fits([hunk], capacity)
    ensures var after := WithUnit(plan, LineBlock, BlockScope(file.fileId, hunk, Contents(block)), block, EstimateLines(|block|), rank);
      after.Ok? ==> AllShaped(after.value.units, file, capacity, rank)
  {
    hide Fits, HasRange;
    assert |block| * BytesPerLine / BytesPerToken == 5 * |block|;
  }

  lemma {:induction false} BlocksShaped(plan: Plan, file: ChangedFile, hunk: Hunk, blocks: seq<seq<Line>>, capacity: Capacity, rank: nat)
    requires AllShaped(plan.units, file, capacity, rank) && hunk in file.hunks && !Fits([hunk], capacity)
    ensures var after := WithBlocks(plan, file.fileId, hunk, blocks, rank);
      after.Ok? ==> AllShaped(after.value.units, file, capacity, rank)
  {
    hide AllShaped, Fits, WithUnit, EstimateLines;
    if blocks != [] {
      var init, block := blocks[..|blocks| - 1], blocks[|blocks| - 1];
      BlocksShaped(plan, file, hunk, init, capacity, rank);
      var before := WithBlocks(plan, file.fileId, hunk, init, rank);
      if before.Ok? { BlockShaped(before.value, file, hunk, block, capacity, rank); }
    }
  }

  lemma HunksShaped(plan: Plan, file: ChangedFile, kind: UnitKind, id: ScopeId, hunks: seq<Hunk>, capacity: Capacity, rank: nat)
    requires AllShaped(plan.units, file, capacity, rank) && Fits(hunks, capacity)
    requires (kind == WholeFile && id == FileScope(file.fileId) && hunks == file.hunks)
      || (kind == HunkGroup && id == GroupScope(file.fileId, hunks) && !Fits(file.hunks, capacity)
          && forall i :: 0 <= i < |hunks| ==> hunks[i] in file.hunks)
    ensures var after := WithUnit(plan, kind, id, AllLines(hunks), EstimateHunks(hunks), rank);
      after.Ok? ==> AllShaped(after.value.units, file, capacity, rank)
  {
    hide Fits, HasRange, Bytes, AllLines;
  }

  lemma GroupShaped(plan: Plan, file: ChangedFile, group: seq<Hunk>, capacity: Capacity, rank: nat)
    requires capacity.Valid() && AllShaped(plan.units, file, capacity, rank)
    requires Allowed(group, capacity) && !Fits(file.hunks, capacity) && forall i :: 0 <= i < |group| ==> group[i] in file.hunks
    ensures var after := WithGroup(plan, file.fileId, group, capacity, rank);
      after.Ok? ==> AllShaped(after.value.units, file, capacity, rank)
  {
    hide AllShaped, Fits, WithUnit, WithBlocks, BlocksOf, HasRange, AllLines, EstimateHunks;
    if |group| > 1 || Fits(group, capacity) {
      HunksShaped(plan, file, HunkGroup, GroupScope(file.fileId, group), group, capacity, rank);
    } else {
      assert group == [group[0]];
      var blocks := BlocksOf(group[0].lines, capacity);
      if blocks.Some? { BlocksShaped(plan, file, group[0], blocks.value, capacity, rank); }
    }
  }

  lemma {:induction false} GroupsShaped(file: ChangedFile, groups: seq<seq<Hunk>>, capacity: Capacity, rank: nat)
    requires capacity.Valid() && NonEmptyGroups(groups) && !Fits(file.hunks, capacity)
    requires forall i :: 0 <= i < |groups| ==> Allowed(groups[i], capacity) && forall j :: 0 <= j < |groups[i]| ==> groups[i][j] in file.hunks
    ensures var plan := WithGroups(Plan([], []), file.fileId, groups, capacity, rank);
      plan.Ok? ==> AllShaped(plan.value.units, file, capacity, rank)
  {
    hide Fits, Allowed, WithGroup, ShapedFor;
    if groups != [] {
      var init, group := groups[..|groups| - 1], groups[|groups| - 1];
      GroupsShaped(file, init, capacity, rank);
      var before := WithGroups(Plan([], []), file.fileId, init, capacity, rank);
      if before.Ok? { GroupShaped(before.value, file, group, capacity, rank); }
    }
  }

  lemma {:induction false} InGroups(groups: seq<seq<Hunk>>, i: nat, h: Hunk)
    requires i < |groups| && h in groups[i]
    ensures h in Flatten(groups)
  {
    if i < |groups| - 1 { InGroups(groups[..|groups| - 1], i, h); }
  }

  /** Every unit that planning a file makes is shaped so, and ranks count on from the first. */
  lemma FileUnitsAreShaped(file: ChangedFile, capacity: Capacity, rank: nat)
    requires capacity.Valid() && FilePlan(file, capacity, rank).Ok?
    ensures var units := FilePlan(file, capacity, rank).value.units;
      forall i :: 0 <= i < |units| ==> ShapedFor(units[i], file, capacity) && units[i].rank == rank + i
  {
    hide ShapedFor, Fits, WithUnit, WithGroups, AllLines, EstimateHunks, Flatten, Boxed;
    if !file.binary && file.hunks != [] {
      if Fits(file.hunks, capacity) {
        HunksShaped(Plan([], []), file, WholeFile, FileScope(file.fileId), file.hunks, capacity, rank);
      } else {
        var groups := Boxed(file.hunks, capacity).All();
        BoxedPartitions(file.hunks, capacity);
        BoxedNonEmpty(file.hunks, capacity);
        forall i, j | 0 <= i < |groups| && 0 <= j < |groups[i]| ensures groups[i][j] in file.hunks {
          InGroups(groups, i, groups[i][j]);
        }
        GroupsShaped(file, groups, capacity, rank);
      }
    }
  }

  /** What a file without text to review is planned as, and when a file is one unit. */
  lemma FilePlanKinds(file: ChangedFile, capacity: Capacity, rank: nat)
    requires capacity.Valid()
    ensures file.binary ==> FilePlan(file, capacity, rank) == Ok(Plan([Scope(FileScope(file.fileId), Unreviewable)], []))
    ensures !file.binary && file.hunks == [] ==>
      FilePlan(file, capacity, rank) == Ok(Plan([Scope(FileScope(file.fileId), NoReviewRequired)], []))
    ensures !file.binary && file.hunks != [] && FilePlan(file, capacity, rank).Ok? ==>
      var plan := FilePlan(file, capacity, rank).value;
      (plan.scopes == [Scope(FileScope(file.fileId), Planned)] && |plan.units| == 1 && plan.units[0].kind == WholeFile)
        <==> Fits(file.hunks, capacity)
  {
    hide ShapedFor, Fits, WithGroups, AllLines, EstimateHunks, HasRange, Boxed, Slices;
    if !file.binary && file.hunks != [] && FilePlan(file, capacity, rank).Ok? {
      FileUnitsAreShaped(file, capacity, rank);
      var units := FilePlan(file, capacity, rank).value.units;
      if units != [] { WholeFileFits(units[0], file, capacity); }
    }
  }

  lemma WholeFileFits(unit: WorkUnit, file: ChangedFile, capacity: Capacity)
    requires ShapedFor(unit, file, capacity)
    ensures unit.kind == WholeFile ==> Fits(file.hunks, capacity)
  {
  }

  // ----- the units of a plan ----------------------------------------------------------------------

  /** Files are planned in the order of their keys, each of them once. */
  lemma FilesAreOrdered(files: seq<ChangedFile>)
    ensures multiset(InPlanOrder(files)) == multiset(files)
    ensures forall i, j :: 0 <= i < j < |files| ==> |InPlanOrder(files)| == |files| && InPlanOrder(files)[i].order <= InPlanOrder(files)[j].order
  {
    SortOrders(files, OrderOf);
    var sorted := InPlanOrder(files);
    assert |sorted| == |multiset(sorted)| == |multiset(files)| == |files|;
    forall i, j | 0 <= i < j < |files| ensures sorted[i].order <= sorted[j].order {
      assert OrderOf(sorted[i]) <= OrderOf(sorted[j]);
    }
  }

  /** Unit `k` is of a file whose order is at least that of the files of the units before. */
  ghost predicate ByFile(units: seq<WorkUnit>, files: seq<ChangedFile>, at: seq<nat>) {
    && |at| == |units|
    && (forall k :: 0 <= k < |at| ==> at[k] < |files| && units[k].fileId == files[at[k]].fileId && units[k].rank == k)
    && (forall j, k :: 0 <= j < k < |at| ==> at[j] <= at[k])
  }

  lemma {:induction false} FilesInTurn(files: seq<ChangedFile>, capacity: Capacity) returns (at: seq<nat>)
    requires capacity.Valid() && FilesPlan(files, capacity).Ok?
    ensures ByFile(FilesPlan(files, capacity).value.units, files, at)
  {
    hide FilePlan;
    if files == [] {
      at := [];
    } else {
      var n := |files| - 1;
      var before := FilesPlan(files[..n], capacity).value.units;
      at := FilesInTurn(files[..n], capacity);
      var more := FilePlan(files[n], capacity, |before|).value.units;
      FileUnitsAreShaped(files[n], capacity, |before|);
      assert forall k :: 0 <= k < |more| ==> ShapedFor(more[k], files[n], capacity);
      var front := at;
      assert forall k :: 0 <= k < |front| ==> files[..n][front[k]] == files[front[k]];
      at := front + seq(|more|, k => n);
    }
  }

  /** The file with the first id is not behind that with the second. */
  ghost predicate NotBehind(files: seq<ChangedFile>, first: nat, second: nat) {
    forall x, y :: x in files && y in files && x.fileId == first && y.fileId == second ==> x.order <= y.order
  }

  /** In a plan ranks count from 0, and units stand in the order of their files: of two units
      the first is never of a file behind that of the second. */
  lemma UnitsStandByFile(files: seq<ChangedFile>, capacity: Capacity)
    requires capacity.Valid() && DistinctIds(files) && ReviewPlanOf(files, capacity).Ok?
    ensures var units := ReviewPlanOf(files, capacity).value.units;
      && (forall k :: 0 <= k < |units| ==> units[k].rank == k)
      && (forall j, k :: 0 <= j < k < |units| ==> NotBehind(files, units[j].fileId, units[k].fileId))
  {
    hide FilesPlan, Frozen, InPlanOrder;
    var units, sorted := ReviewPlanOf(files, capacity).value.units, InPlanOrder(files);
    var at := FilesInTurn(sorted, capacity);
    FilesAreOrdered(files);
    assert |sorted| == |multiset(sorted)| == |multiset(files)| == |files|;
    forall j, k | 0 <= j < k < |units| ensures NotBehind(files, units[j].fileId, units[k].fileId) {
      forall x, y | x in files && y in files && x.fileId == units[j].fileId && y.fileId == units[k].fileId
        ensures x.order <= y.order
      {
        SameFile(files, sorted, x, at[j]);
        SameFile(files, sorted, y, at[k]);
      }
    }
  }

  lemma SameFile(files: seq<ChangedFile>, sorted: seq<ChangedFile>, x: ChangedFile, i: nat)
    requires DistinctIds(files) && multiset(sorted) == multiset(files) && x in files && i < |sorted| && x.fileId == sorted[i].fileId
    ensures x == sorted[i]
  {
    assert sorted[i] in multiset(sorted);
    assert sorted[i] in files;
  }
}
