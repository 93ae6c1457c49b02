/** What a plan covers, and exactly which plans are refused. */
module ReviewPlanTheorems {
  import opened Wrappers
  import opened DiffText
  import opened DiffModel
  import opened Planner
  import opened ReviewPlan

  /** Every hunk is valid and has lines. */
  ghost predicate Solid(hunks: seq<Hunk>) {
    forall i :: 0 <= i < |hunks| ==> hunks[i].lines != [] && ValidHunk(hunks[i])
  }

  // ----- coverage -----------------------------------------------------------------------------

  /** A hunk can be reviewed if it fits by itself or can be cut into blocks. */
  predicate Reviewable(h: Hunk, capacity: Capacity) {
    Fits([h], capacity) || capacity.contextLimit >= SmallestContext
  }

  /** The lines of the reviewable hunks, in order. */
  function ReviewedLines(hunks: seq<Hunk>, capacity: Capacity): seq<Line> {
    if hunks == [] then []
    else
      var last := hunks[|hunks| - 1];
      ReviewedLines(hunks[..|hunks| - 1], capacity) + (if Reviewable(last, capacity) then last.lines else [])
  }

  function Refs(units: seq<WorkUnit>): seq<seq<Slice>> {
    seq(|units|, i requires 0 <= i < |units| => units[i].refs)
  }

  /** The unit's kind is that of its scope, it is not empty and its estimate fits. */
  predicate UnitOk(unit: WorkUnit, fileId: nat, capacity: Capacity) {
    && unit.refs != []
    && unit.fileId == unit.scopeId.fileId == fileId
    && Within(unit.estimate, capacity)
    && match unit.scopeId
       case FileScope(_) => unit.kind == WholeFile
       case GroupScope(_, _) => unit.kind == HunkGroup
       case BlockScope(_, _, _) => unit.kind == LineBlock
       case HunkScope(_, _) => false
  }

  /** The units cut exactly these lines, in rank order, and cover exactly the planned scopes. */
  ghost predicate Covers(plan: Plan, lines: seq<Line>, fileId: nat, capacity: Capacity, rank: nat) {
    && Flatten(Refs(plan.units)) == Slices(lines)
    && (forall i :: 0 <= i < |plan.units| ==> plan.units[i].rank == rank + i)
    && (forall i :: 0 <= i < |plan.units| ==> UnitOk(plan.units[i], fileId, capacity))
    && UnitScopes(plan.units) == PlannedScopes(plan.scopes)
    && (forall i :: 0 <= i < |plan.scopes| ==> plan.scopes[i].id.fileId == fileId)
  }

  lemma ScopesOneMore(scopes: seq<Scope>, scope: Scope)
    ensures PlannedScopes(scopes + [scope]) == PlannedScopes(scopes) + (if scope.disposition == Planned then [scope.id] else [])
  {
    assert (scopes + [scope])[..|scopes|] == scopes;
  }

  lemma SlicesBoth(a: seq<Line>, b: seq<Line>)
    ensures Slices(a + b) == Slices(a) + Slices(b)
  {
  }

  lemma UnitCovers(plan: Plan, lines: seq<Line>, kind: UnitKind, id: ScopeId, more: seq<Line>, estimate: Estimate,
                   fileId: nat, capacity: Capacity, rank: nat)
    requires Covers(plan, lines, fileId, capacity, rank) && HasRange(more) && id.fileId == fileId
    requires UnitOk(WorkUnit(kind, id.fileId, id, Slices(more), estimate, rank + |plan.units|), fileId, capacity)
    ensures WithUnit(plan, kind, id, more, estimate, rank).Ok?
    ensures Covers(WithUnit(plan, kind, id, more, estimate, rank).value, lines + more, fileId, capacity, rank)
  {
    hide Flatten, Slices, PlannedScopes, HasRange, UnitOk;
    var unit := WorkUnit(kind, id.fileId, id, Slices(more), estimate, rank + |plan.units|);
    FlattenOneMore(Refs(plan.units), unit.refs);
    assert Refs(plan.units + [unit]) == Refs(plan.units) + [unit.refs];
    ScopesOneMore(plan.scopes, Scope(id, Planned));
    assert UnitScopes(plan.units + [unit]) == UnitScopes(plan.units) + [id];
    SlicesBoth(lines, more);
  }

  lemma ShapedHasRange(lines: seq<Line>)
    requires lines != [] && Shaped(lines[0])
    ensures HasRange(lines) && Slices(lines) != []
  {
  }

  ghost predicate ShapedBlocks(blocks: seq<seq<Line>>, capacity: Capacity) {
    forall i :: 0 <= i < |blocks| ==> blocks[i] != [] && Shaped(blocks[i][0]) && Within(EstimateLines(|blocks[i]|), capacity)
  }

  lemma {:induction false} BlocksCover(plan: Plan, lines: seq<Line>, fileId: nat, hunk: Hunk, blocks: seq<seq<Line>>,
                                       capacity: Capacity, rank: nat)
    requires Covers(plan, lines, fileId, capacity, rank) && ShapedBlocks(blocks, capacity)
    ensures WithBlocks(plan, fileId, hunk, blocks, rank).Ok?
    ensures Covers(WithBlocks(plan, fileId, hunk, blocks, rank).value, lines + Flatten(blocks), fileId, capacity, rank)
  {
    hide Covers, WithUnit, EstimateLines, Within;
    if blocks == [] {
      assert lines + [] == lines;
    } else {
      var init, block := blocks[..|blocks| - 1], blocks[|blocks| - 1];
      BlocksCover(plan, lines, fileId, hunk, init, capacity, rank);
      ShapedHasRange(block);
      var before := WithBlocks(plan, fileId, hunk, init, rank).value;
      UnitCovers(before, lines + Flatten(init), LineBlock, BlockScope(fileId, hunk, Contents(block)), block,
                 EstimateLines(|block|), fileId, capacity, rank);
      assert lines + Flatten(blocks) == lines + Flatten(init) + block;
    }
  }

  lemma ChunksShaped(lines: seq<Line>, capacity: Capacity)
    requires capacity.Valid() && lines != [] && capacity.contextLimit >= SmallestContext
    requires forall i :: 0 <= i < |lines| ==> Shaped(lines[i])
    ensures BlocksOf(lines, capacity).Some?
    ensures ShapedBlocks(BlocksOf(lines, capacity).value, capacity) && Flatten(BlocksOf(lines, capacity).value) == lines
  {
    hide Shaped, EstimateLines, Within;
    var size := Min(|lines|, BlockLimit(capacity));
    var chunks := Chunks(lines, size);
    ChunksDivide(lines, size);
    ChunksFit(lines, size, capacity);
    forall i | 0 <= i < |chunks| ensures Shaped(chunks[i][0]) {
      FlattenMember(chunks, i);
      assert chunks[i][0] in chunks[i];
    }
  }

  lemma {:induction false} FlattenMember<T>(groups: seq<seq<T>>, i: nat)
    requires i < |groups|
    ensures forall x :: x in groups[i] ==> x in Flatten(groups)
  {
    if i < |groups| - 1 { FlattenMember(groups[..|groups| - 1], i); }
  }

  lemma {:induction false} AllLinesShaped(hunks: seq<Hunk>)
    requires Solid(hunks)
    ensures forall i :: 0 <= i < |AllLines(hunks)| ==> Shaped(AllLines(hunks)[i])
    ensures hunks != [] ==> AllLines(hunks) != []
  {
    hide Shaped;
    if hunks != [] { AllLinesShaped(hunks[..|hunks| - 1]); }
  }

  lemma {:induction false} AllReviewed(hunks: seq<Hunk>, capacity: Capacity)
    requires forall i :: 0 <= i < |hunks| ==> Reviewable(hunks[i], capacity)
    ensures ReviewedLines(hunks, capacity) == AllLines(hunks)
  {
    hide Reviewable;
    if hunks != [] { AllReviewed(hunks[..|hunks| - 1], capacity); }
  }

  /** In hunks that fit together, each fits by itself. */
  lemma EachFits(hunks: seq<Hunk>, capacity: Capacity)
    requires Fits(hunks, capacity)
    ensures forall i :: 0 <= i < |hunks| ==> Fits([hunks[i]], capacity)
  {
    hide Fits;
    forall i | 0 <= i < |hunks| ensures Fits([hunks[i]], capacity) {
      assert hunks == hunks[..i] + hunks[i..];
      PartFits(hunks[..i], hunks[i..], capacity);
      assert hunks[i..] == [hunks[i]] + hunks[i + 1..];
      PartFits([hunks[i]], hunks[i + 1..], capacity);
    }
  }

  lemma OneReviewed(h: Hunk, capacity: Capacity)
    ensures AllLines([h]) == h.lines
    ensures ReviewedLines([h], capacity) == if Reviewable(h, capacity) then h.lines else []
  {
    assert [h][..0] == [];
  }

  lemma GroupCovers(plan: Plan, lines: seq<Line>, fileId: nat, group: seq<Hunk>, capacity: Capacity, rank: nat)
    requires capacity.Valid() && Allowed(group, capacity) && Solid(group)
    requires Covers(plan, lines, fileId, capacity, rank)
    ensures WithGroup(plan, fileId, group, capacity, rank).Ok?
    ensures Covers(WithGroup(plan, fileId, group, capacity, rank).value, lines + ReviewedLines(group, capacity), fileId, capacity, rank)
  {
    hide Covers, AllLines, ReviewedLines, ValidHunk, Shaped, BlocksOf, WithBlocks;
    if Fits(group, capacity) {
      EachFits(group, capacity);
      AllReviewed(group, capacity);
      AllLinesShaped(group);
      ShapedHasRange(AllLines(group));
      UnitCovers(plan, lines, HunkGroup, GroupScope(fileId, group), AllLines(group), EstimateHunks(group), fileId, capacity, rank);
    } else {
      var h := group[0];
      assert group == [h];
      OneReviewed(h, capacity);
      ValidShaped(h);
      if capacity.contextLimit >= SmallestContext {
        ChunksShaped(h.lines, capacity);
        BlocksCover(plan, lines, fileId, h, BlocksOf(h.lines, capacity).value, capacity, rank);
      } else {
        TooSmall(h.lines, capacity);
        ShapedHasRange(h.lines);
        UnreviewedCovers(plan, lines, fileId, h, capacity, rank);
        assert lines + [] == lines;
      }
    }
  }

  lemma TooSmall(lines: seq<Line>, capacity: Capacity)
    requires capacity.Valid() && capacity.contextLimit < SmallestContext
    ensures BlocksOf(lines, capacity) == None
  {
  }

  lemma ValidShaped(h: Hunk)
    requires ValidHunk(h)
    ensures forall i :: 0 <= i < |h.lines| ==> Shaped(h.lines[i])
  {
  }

  lemma UnreviewedCovers(plan: Plan, lines: seq<Line>, fileId: nat, h: Hunk, capacity: Capacity, rank: nat)
    requires Covers(plan, lines, fileId, capacity, rank)
    ensures Covers(plan.(scopes := plan.scopes + [Scope(HunkScope(fileId, h), Unreviewable)]), lines, fileId, capacity, rank)
  {
    ScopesOneMore(plan.scopes, Scope(HunkScope(fileId, h), Unreviewable));
  }

  lemma {:induction false} ReviewedBoth(a: seq<Hunk>, b: seq<Hunk>, capacity: Capacity)
    ensures ReviewedLines(a + b, capacity) == ReviewedLines(a, capacity) + ReviewedLines(b, capacity)
  {
    hide Reviewable;
    if b == [] {
      assert a + b == a;
    } else {
      ReviewedBoth(a, b[..|b| - 1], capacity);
      assert (a + b)[..|a + b| - 1] == a + b[..|b| - 1];
    }
  }

  ghost predicate SolidGroups(groups: seq<seq<Hunk>>, capacity: Capacity) {
    forall i :: 0 <= i < |groups| ==> Allowed(groups[i], capacity) && Solid(groups[i])
  }

  lemma {:induction false} GroupsCover(fileId: nat, groups: seq<seq<Hunk>>, capacity: Capacity, rank: nat)
    requires capacity.Valid() && NonEmptyGroups(groups) && SolidGroups(groups, capacity)
    ensures WithGroups(Plan([], []), fileId, groups, capacity, rank).Ok?
    ensures Covers(WithGroups(Plan([], []), fileId, groups, capacity, rank).value,
                   ReviewedLines(Flatten(groups), capacity), fileId, capacity, rank)
  {
    hide Covers, WithGroup, Allowed, Solid, ReviewedLines, Flatten;
    if groups == [] {
      NothingCovers(fileId, capacity, rank);
    } else {
      var init, group := groups[..|groups| - 1], groups[|groups| - 1];
      GroupsCover(fileId, init, capacity, rank);
      GroupCovers(WithGroups(Plan([], []), fileId, init, capacity, rank).value, ReviewedLines(Flatten(init), capacity),
                  fileId, group, capacity, rank);
      ReviewedBoth(Flatten(init), group, capacity);
      FlattenOneMore(init, group);
      assert groups == init + [group];
    }
  }

  lemma NothingCovers(fileId: nat, capacity: Capacity, rank: nat)
    ensures Covers(Plan([], []), ReviewedLines(Flatten([]), capacity), fileId, capacity, rank)
    ensures Covers(Plan([], []), [], fileId, capacity, rank)
  {
  }

  lemma {:induction false} SolidParts(groups: seq<seq<Hunk>>, capacity: Capacity)
    requires Solid(Flatten(groups)) && forall i :: 0 <= i < |groups| ==> Allowed(groups[i], capacity)
    ensures SolidGroups(groups, capacity)
  {
    hide Allowed, ValidHunk;
    forall i | 0 <= i < |groups| ensures Solid(groups[i]) {
      FlattenMember(groups, i);
      forall j | 0 <= j < |groups[i]| ensures groups[i][j].lines != [] && ValidHunk(groups[i][j]) {
        assert groups[i][j] in Flatten(groups);
      }
    }
  }

  /** Planning a file with valid, non-empty hunks succeeds. Its units, in rank order, cut out
      exactly the lines of the reviewable hunks; every unit's estimate fits; and the planned
      scopes are those of the units, in order. */
  lemma FilePlanCovers(file: ChangedFile, capacity: Capacity, rank: nat)
    requires capacity.Valid() && Solid(file.hunks) && (file.binary ==> file.hunks == [])
    ensures FilePlan(file, capacity, rank).Ok?
    ensures Covers(FilePlan(file, capacity, rank).value, ReviewedLines(file.hunks, capacity), file.fileId, capacity, rank)
  {
    hide Covers, Fits, Solid, Partition, AllLines, Boxes, WithGroups;
    if file.binary || file.hunks == [] {
      ScopeOnlyCovers(file.fileId, capacity, rank);
    } else if Fits(file.hunks, capacity) {
      WholeFileCovers(file, capacity, rank);
    } else {
      BoxedNonEmpty(file.hunks, capacity);
      BoxedPartitions(file.hunks, capacity);
      FromBoxes(file.hunks, capacity);
      GroupsCover(file.fileId, Boxed(file.hunks, capacity).All(), capacity, rank);
    }
  }

  lemma FromBoxes(hunks: seq<Hunk>, capacity: Capacity)
    requires Boxes(Boxed(hunks, capacity), hunks, capacity) && Solid(hunks)
    ensures Flatten(Boxed(hunks, capacity).All()) == hunks && SolidGroups(Boxed(hunks, capacity).All(), capacity)
  {
    SolidParts(Boxed(hunks, capacity).All(), capacity);
  }

  lemma ScopeOnlyCovers(fileId: nat, capacity: Capacity, rank: nat)
    ensures Covers(Plan([Scope(FileScope(fileId), Unreviewable)], []), ReviewedLines([], capacity), fileId, capacity, rank)
    ensures Covers(Plan([Scope(FileScope(fileId), NoReviewRequired)], []), ReviewedLines([], capacity), fileId, capacity, rank)
  {
    ScopesOneMore([], Scope(FileScope(fileId), Unreviewable));
    ScopesOneMore([], Scope(FileScope(fileId), NoReviewRequired));
    assert [] + [Scope(FileScope(fileId), Unreviewable)] == [Scope(FileScope(fileId), Unreviewable)];
    assert [] + [Scope(FileScope(fileId), NoReviewRequired)] == [Scope(FileScope(fileId), NoReviewRequired)];
  }

  lemma WholeFileCovers(file: ChangedFile, capacity: Capacity, rank: nat)
    requires capacity.Valid() && Solid(file.hunks) && file.hunks != [] && Fits(file.hunks, capacity)
    ensures var lines := AllLines(file.hunks);
      var plan := WithUnit(Plan([], []), WholeFile, FileScope(file.fileId), lines, EstimateHunks(file.hunks), rank);
      plan.Ok? && Covers(plan.value, ReviewedLines(file.hunks, capacity), file.fileId, capacity, rank)
  {
    hide Covers, AllLines, ReviewedLines, ValidHunk, Shaped;
    EachFits(file.hunks, capacity);
    AllReviewed(file.hunks, capacity);
    AllLinesShaped(file.hunks);
    ShapedHasRange(AllLines(file.hunks));
    NothingCovers(file.fileId, capacity, rank);
    UnitCovers(Plan([], []), [], WholeFile, FileScope(file.fileId), AllLines(file.hunks), EstimateHunks(file.hunks),
               file.fileId, capacity, rank);
    assert [] + AllLines(file.hunks) == AllLines(file.hunks);
  }

  // ----- no hunk is forgotten -----------------------------------------------------------------

  /** The hunks given up by these scopes. */
  function Skipped(scopes: seq<Scope>): seq<Hunk> {
    if scopes == [] then []
    else
      var last := scopes[|scopes| - 1];
      Skipped(scopes[..|scopes| - 1]) + (if last.id.HunkScope? && last.disposition == Unreviewable then [last.id.hunk] else [])
  }

  function SkippedHunks(hunks: seq<Hunk>, capacity: Capacity): seq<Hunk> {
    if hunks == [] then []
    else
      var last := hunks[|hunks| - 1];
      SkippedHunks(hunks[..|hunks| - 1], capacity) + (if Reviewable(last, capacity) then [] else [last])
  }

  /** Every scope is planned or gives up a hunk, and these hunks are given up. */
  ghost predicate AccountsFor(scopes: seq<Scope>, skipped: seq<Hunk>) {
    && Skipped(scopes) == skipped
    && forall i :: 0 <= i < |scopes| ==> scopes[i].disposition == Planned || (scopes[i].id.HunkScope? && scopes[i].disposition == Unreviewable)
  }

  lemma SkippedOneMore(scopes: seq<Scope>, scope: Scope)
    ensures Skipped(scopes + [scope]) ==
      Skipped(scopes) + (if scope.id.HunkScope? && scope.disposition == Unreviewable then [scope.id.hunk] else [])
  {
    assert (scopes + [scope])[..|scopes|] == scopes;
  }

  lemma UnitAccounts(plan: Plan, skipped: seq<Hunk>, kind: UnitKind, id: ScopeId, lines: seq<Line>, estimate: Estimate, rank: nat)
    requires AccountsFor(plan.scopes, skipped) && WithUnit(plan, kind, id, lines, estimate, rank).Ok?
    ensures AccountsFor(WithUnit(plan, kind, id, lines, estimate, rank).value.scopes, skipped)
  {
    hide Skipped, HasRange;
    SkippedOneMore(plan.scopes, Scope(id, Planned));
  }

  lemma {:induction false} BlocksAccount(plan: Plan, skipped: seq<Hunk>, fileId: nat, hunk: Hunk, blocks: seq<seq<Line>>, rank: nat)
    requires AccountsFor(plan.scopes, skipped) && WithBlocks(plan, fileId, hunk, blocks, rank).Ok?
    ensures AccountsFor(WithBlocks(plan, fileId, hunk, blocks, rank).value.scopes, skipped)
  {
    hide AccountsFor, WithUnit;
    if blocks != [] {
      var init, block := blocks[..|blocks| - 1], blocks[|blocks| - 1];
      BlocksAccount(plan, skipped, fileId, hunk, init, rank);
      UnitAccounts(WithBlocks(plan, fileId, hunk, init, rank).value, skipped, LineBlock,
                   BlockScope(fileId, hunk, Contents(block)), block, EstimateLines(|block|), rank);
    }
  }

  lemma {:induction false} NoneSkipped(hunks: seq<Hunk>, capacity: Capacity)
    requires forall i :: 0 <= i < |hunks| ==> Reviewable(hunks[i], capacity)
    ensures SkippedHunks(hunks, capacity) == []
  {
    hide Reviewable;
    if hunks != [] { NoneSkipped(hunks[..|hunks| - 1], capacity); }
  }

  lemma GroupAccounts(plan: Plan, skipped: seq<Hunk>, fileId: nat, group: seq<Hunk>, capacity: Capacity, rank: nat)
    requires capacity.Valid() && Allowed(group, capacity) && Solid(group) && AccountsFor(plan.scopes, skipped)
    requires WithGroup(plan, fileId, group, capacity, rank).Ok?
    ensures AccountsFor(WithGroup(plan, fileId, group, capacity, rank).value.scopes, skipped + SkippedHunks(group, capacity))
  {
    hide AccountsFor, Fits, AllLines, BlocksOf, WithBlocks, WithUnit, HasRange, SkippedHunks, ValidHunk;
    if Fits(group, capacity) {
      EachFits(group, capacity);
      NoneSkipped(group, capacity);
      assert skipped + [] == skipped;
      UnitAccounts(plan, skipped, HunkGroup, GroupScope(fileId, group), AllLines(group), EstimateHunks(group), rank);
    } else {
      var h := group[0];
      assert group == [h];
      OneSkipped(h, capacity);
      if capacity.contextLimit >= SmallestContext {
        EnoughForBlocks(h.lines, capacity);
        BlocksAccount(plan, skipped, fileId, h, BlocksOf(h.lines, capacity).value, rank);
        assert skipped + [] == skipped;
      } else {
        TooSmall(h.lines, capacity);
        GivenUp(plan, skipped, fileId, h);
      }
    }
  }

  lemma OneSkipped(h: Hunk, capacity: Capacity)
    ensures SkippedHunks([h], capacity) == if Reviewable(h, capacity) then [] else [h]
  {
    assert [h][..0] == [];
  }

  lemma EnoughForBlocks(lines: seq<Line>, capacity: Capacity)
    requires capacity.Valid() && capacity.contextLimit >= SmallestContext && lines != []
    ensures BlocksOf(lines, capacity).Some?
  {
  }

  lemma GivenUp(plan: Plan, skipped: seq<Hunk>, fileId: nat, h: Hunk)
    requires AccountsFor(plan.scopes, skipped)
    ensures AccountsFor(plan.scopes + [Scope(HunkScope(fileId, h), Unreviewable)], skipped + [h])
  {
    SkippedOneMore(plan.scopes, Scope(HunkScope(fileId, h), Unreviewable));
  }

  lemma {:induction false} SkippedBoth(a: seq<Hunk>, b: seq<Hunk>, capacity: Capacity)
    ensures SkippedHunks(a + b, capacity) == SkippedHunks(a, capacity) + SkippedHunks(b, capacity)
  {
    hide Reviewable;
    if b == [] {
      assert a + b == a;
    } else {
      SkippedBoth(a, b[..|b| - 1], capacity);
      assert (a + b)[..|a + b| - 1] == a + b[..|b| - 1];
    }
  }

  lemma {:induction false} GroupsAccount(fileId: nat, groups: seq<seq<Hunk>>, capacity: Capacity, rank: nat)
    requires capacity.Valid() && NonEmptyGroups(groups) && SolidGroups(groups, capacity)
    requires WithGroups(Plan([], []), fileId, groups, capacity, rank).Ok?
    ensures AccountsFor(WithGroups(Plan([], []), fileId, groups, capacity, rank).value.scopes, SkippedHunks(Flatten(groups), capacity))
  {
    hide AccountsFor, WithGroup, Allowed, Solid, SkippedHunks, Flatten;
    if groups == [] {
      NothingSkipped(capacity);
    } else {
      var init, group := groups[..|groups| - 1], groups[|groups| - 1];
      GroupsAccount(fileId, init, capacity, rank);
      GroupAccounts(WithGroups(Plan([], []), fileId, init, capacity, rank).value, SkippedHunks(Flatten(init), capacity),
                    fileId, group, capacity, rank);
      SkippedBoth(Flatten(init), group, capacity);
      FlattenOneMore(init, group);
      assert groups == init + [group];
    }
  }

  lemma NothingSkipped(capacity: Capacity)
    ensures AccountsFor([], SkippedHunks(Flatten([]), capacity))
  {
  }

  /** The scopes of a text file are planned, but for those of the hunks that cannot be
      reviewed: each of these, in order, has a scope that says so. */
  lemma ScopesAccountForHunks(file: ChangedFile, capacity: Capacity, rank: nat)
    requires capacity.Valid() && Solid(file.hunks) && !file.binary && file.hunks != []
    ensures FilePlan(file, capacity, rank).Ok?
    ensures AccountsFor(FilePlan(file, capacity, rank).value.scopes, SkippedHunks(file.hunks, capacity))
  {
    FilePlanCovers(file, capacity, rank);
    hide AccountsFor, Fits, Solid, AllLines, Boxes, WithGroups, WithUnit, Covers, SkippedHunks;
    if Fits(file.hunks, capacity) {
      EachFits(file.hunks, capacity);
      NoneSkipped(file.hunks, capacity);
      NothingSkipped(capacity);
      UnitAccounts(Plan([], []), [], WholeFile, FileScope(file.fileId), AllLines(file.hunks), EstimateHunks(file.hunks), rank);
    } else {
      BoxedNonEmpty(file.hunks, capacity);
      BoxedPartitions(file.hunks, capacity);
      FromBoxes(file.hunks, capacity);
      GroupsAccount(file.fileId, Boxed(file.hunks, capacity).All(), capacity, rank);
    }
  }

  // ----- which plans are refused ------------------------------------------------------------------

  /** The hunk a scope is about: its only one, or the first of its group. */
  function Anchor(id: ScopeId): Option<Hunk> {
    match id
    case FileScope(_) => None
    case GroupScope(_, hunks) => if hunks == [] then None else Some(hunks[0])
    case HunkScope(_, hunk) => Some(hunk)
    case BlockScope(_, hunk, _) => Some(hunk)
  }

  function BlockContents(blocks: seq<seq<Line>>): seq<seq<Digest>> {
    seq(|blocks|, i requires 0 <= i < |blocks| => Contents(blocks[i]))
  }

  /** No two blocks the hunk would be cut into have the same line contents. */
  predicate BlocksDiffer(h: Hunk, capacity: Capacity)
    requires capacity.Valid()
  {
    var blocks := BlocksOf(h.lines, capacity);
    blocks.Some? ==> NoDuplicates(BlockContents(blocks.value))
  }

  /** Every hunk that has to be cut into blocks is cut into blocks that differ. */
  ghost predicate CutsDiffer(hunks: seq<Hunk>, capacity: Capacity)
    requires capacity.Valid()
  {
    forall i :: 0 <= i < |hunks| ==> Fits([hunks[i]], capacity) || BlocksDiffer(hunks[i], capacity)
  }

  lemma NoDuplicatesBoth<T>(a: seq<T>, b: seq<T>)
    ensures NoDuplicates(a + b) <==> NoDuplicates(a) && NoDuplicates(b) && forall x :: x in a ==> x !in b
  {
    if NoDuplicates(a + b) {
      forall x | x in a ensures x !in b {
        var i :| 0 <= i < |a| && a[i] == x;
        assert (a + b)[i] == x;
        forall j | 0 <= j < |b| ensures b[j] != x { assert (a + b)[|a| + j] == b[j]; }
      }
      forall i, j | 0 <= i < j < |b| ensures b[i] != b[j] {
        assert (a + b)[|a| + i] == b[i] && (a + b)[|a| + j] == b[j];
      }
      forall i, j | 0 <= i < j < |a| ensures a[i] != a[j] {
        assert (a + b)[i] == a[i] && (a + b)[j] == a[j];
      }
    }
    if NoDuplicates(a) && NoDuplicates(b) && forall x :: x in a ==> x !in b {
      forall i, j | 0 <= i < j < |a + b| ensures (a + b)[i] != (a + b)[j] {
        if i < |a| <= j { assert a[i] in a && b[j - |a|] in b; }
      }
    }
  }

  /** The scopes that follow one plan in another. */
  ghost predicate Adds(plan: Plan, plan': Plan, ids: seq<ScopeId>) {
    Ids(plan'.scopes) == Ids(plan.scopes) + ids
  }

  lemma {:induction false} BlocksAdd(plan: Plan, fileId: nat, hunk: Hunk, blocks: seq<seq<Line>>, rank: nat)
    requires WithBlocks(plan, fileId, hunk, blocks, rank).Ok?
    ensures Adds(plan, WithBlocks(plan, fileId, hunk, blocks, rank).value, BlockIds(fileId, hunk, blocks))
  {
    hide HasRange;
    if blocks != [] {
      var init, block := blocks[..|blocks| - 1], blocks[|blocks| - 1];
      BlocksAdd(plan, fileId, hunk, init, rank);
      var id := BlockScope(fileId, hunk, Contents(block));
      var before := WithBlocks(plan, fileId, hunk, init, rank).value;
      assert Ids(before.scopes + [Scope(id, Planned)]) == Ids(before.scopes) + [id];
      assert BlockIds(fileId, hunk, blocks) == BlockIds(fileId, hunk, init) + [id];
    }
  }

  function BlockIds(fileId: nat, hunk: Hunk, blocks: seq<seq<Line>>): seq<ScopeId> {
    seq(|blocks|, i requires 0 <= i < |blocks| => BlockScope(fileId, hunk, Contents(blocks[i])))
  }

  lemma BlockIdsDiffer(fileId: nat, hunk: Hunk, blocks: seq<seq<Line>>)
    ensures NoDuplicates(BlockIds(fileId, hunk, blocks)) <==> NoDuplicates(BlockContents(blocks))
  {
    hide Contents;
    var ids, contents := BlockIds(fileId, hunk, blocks), BlockContents(blocks);
    assert forall i :: 0 <= i < |blocks| ==> ids[i] == BlockScope(fileId, hunk, contents[i]);
  }

  /** What a group adds: scopes about its first hunk, distinct exactly if blocks differ. */
  lemma GroupAdds(plan: Plan, fileId: nat, group: seq<Hunk>, capacity: Capacity, rank: nat) returns (ids: seq<ScopeId>)
    requires capacity.Valid() && Allowed(group, capacity) && WithGroup(plan, fileId, group, capacity, rank).Ok?
    ensures Adds(plan, WithGroup(plan, fileId, group, capacity, rank).value, ids)
    ensures forall i :: 0 <= i < |ids| ==> Anchor(ids[i]) == Some(group[0])
    ensures NoDuplicates(ids) <==> CutsDiffer(group, capacity)
  {
    hide Fits, AllLines, BlocksOf, HasRange, Contents, WithBlocks;
    var plan' := WithGroup(plan, fileId, group, capacity, rank).value;
    if |group| > 1 || Fits(group, capacity) {
      ids := [GroupScope(fileId, group)];
      FitsAlone(group, capacity);
    } else {
      assert group == [group[0]];
      var blocks := BlocksOf(group[0].lines, capacity);
      if blocks.Some? {
        ids := BlockIds(fileId, group[0], blocks.value);
        BlocksAdd(plan, fileId, group[0], blocks.value, rank);
        BlockIdsDiffer(fileId, group[0], blocks.value);
      } else {
        ids := [HunkScope(fileId, group[0])];
      }
    }
  }

  lemma FitsAlone(group: seq<Hunk>, capacity: Capacity)
    requires capacity.Valid() && Fits(group, capacity)
    ensures CutsDiffer(group, capacity)
  {
    hide Fits, BlocksDiffer;
    EachFits(group, capacity);
  }

  ghost predicate AllowedGroups(groups: seq<seq<Hunk>>, capacity: Capacity) {
    forall i :: 0 <= i < |groups| ==> Allowed(groups[i], capacity)
  }

  lemma {:induction false} GroupsAdd(fileId: nat, groups: seq<seq<Hunk>>, capacity: Capacity, rank: nat)
    requires capacity.Valid() && NonEmptyGroups(groups) && AllowedGroups(groups, capacity)
    requires NoDuplicates(Flatten(groups)) && WithGroups(Plan([], []), fileId, groups, capacity, rank).Ok?
    ensures var ids := Ids(WithGroups(Plan([], []), fileId, groups, capacity, rank).value.scopes);
      && (NoDuplicates(ids) <==> CutsDiffer(Flatten(groups), capacity))
      && Anchored(ids, Flatten(groups))
  {
    hide Allowed, WithGroup, Anchor, CutsDiffer, Fits;
    if groups == [] {
      NothingCut(capacity);
    } else {
      var init, group := groups[..|groups| - 1], groups[|groups| - 1];
      assert groups == init + [group];
      FlattenOneMore(init, group);
      NoDuplicatesBoth(Flatten(init), group);
      GroupsAdd(fileId, init, capacity, rank);
      var before := WithGroups(Plan([], []), fileId, init, capacity, rank).value;
      var ids := GroupAdds(before, fileId, group, capacity, rank);
      NoDuplicatesBoth(Ids(before.scopes), ids);
      CutsBoth(Flatten(init), group, capacity);
      assert group[0] in group;
    }
  }

  /** The scopes are about some of these hunks. */
  ghost predicate Anchored(ids: seq<ScopeId>, hunks: seq<Hunk>) {
    forall i :: 0 <= i < |ids| ==> Anchor(ids[i]).Some? && Anchor(ids[i]).value in hunks
  }

  lemma NothingCut(capacity: Capacity)
    requires capacity.Valid()
    ensures Flatten<Hunk>([]) == [] && CutsDiffer([], capacity)
  {
  }

  lemma CutsBoth(a: seq<Hunk>, b: seq<Hunk>, capacity: Capacity)
    requires capacity.Valid()
    ensures CutsDiffer(a + b, capacity) <==> CutsDiffer(a, capacity) && CutsDiffer(b, capacity)
  {
    hide Fits, BlocksDiffer;
    if CutsDiffer(a + b, capacity) {
      assert forall i :: 0 <= i < |a| ==> (a + b)[i] == a[i];
      assert forall i :: 0 <= i < |b| ==> (a + b)[|a| + i] == b[i];
    }
  }

  /** The scope ids of a file with distinct hunks are distinct exactly if every hunk that
      does not fit by itself is cut into blocks that differ in their contents. */
  lemma FileIdsDiffer(file: ChangedFile, capacity: Capacity, rank: nat)
    requires capacity.Valid() && Solid(file.hunks) && (file.binary ==> file.hunks == []) && NoDuplicates(file.hunks)
    ensures FilePlan(file, capacity, rank).Ok?
    ensures NoDuplicates(Ids(FilePlan(file, capacity, rank).value.scopes)) <==> CutsDiffer(file.hunks, capacity)
  {
    FilePlanCovers(file, capacity, rank);
    hide Covers, Fits, Solid, Partition, AllLines, Boxes, WithGroups, CutsDiffer, HasRange, NoDuplicates;
    if file.binary || file.hunks == [] {
      NothingCut(capacity);
      SingleId(Scope(FileScope(file.fileId), Unreviewable));
      SingleId(Scope(FileScope(file.fileId), NoReviewRequired));
    } else if Fits(file.hunks, capacity) {
      FitsAlone(file.hunks, capacity);
      SingleId(Scope(FileScope(file.fileId), Planned));
      assert [] + [Scope(FileScope(file.fileId), Planned)] == [Scope(FileScope(file.fileId), Planned)];
    } else {
      BoxedNonEmpty(file.hunks, capacity);
      BoxedPartitions(file.hunks, capacity);
      FromBoxes(file.hunks, capacity);
      GroupsSolidAllowed(Boxed(file.hunks, capacity).All(), capacity);
      GroupsAdd(file.fileId, Boxed(file.hunks, capacity).All(), capacity, rank);
    }
  }

  lemma GroupsSolidAllowed(groups: seq<seq<Hunk>>, capacity: Capacity)
    requires SolidGroups(groups, capacity)
    ensures AllowedGroups(groups, capacity)
  {
  }

  lemma SingleId(scope: Scope)
    ensures NoDuplicates(Ids([scope]))
  {
  }

  // ----- plans for all files ------------------------------------------------------------------------

  /** What planning may rely on: valid, non-empty, distinct hunks, and distinct file ids. */
  ghost predicate Plannable(files: seq<ChangedFile>) {
    DistinctIds(files) && forall i :: 0 <= i < |files| ==> PlannableFile(files[i])
  }

  ghost predicate PlannableFile(file: ChangedFile) {
    Solid(file.hunks) && NoDuplicates(file.hunks) && (file.binary ==> file.hunks == [])
  }

  ghost predicate AllCutsDiffer(files: seq<ChangedFile>, capacity: Capacity)
    requires capacity.Valid()
  {
    forall i :: 0 <= i < |files| ==> CutsDiffer(files[i].hunks, capacity)
  }

  /** Ranks count the units; the units cover the planned scopes in order; scopes belong to
      the files. */
  ghost predicate Whole(plan: Plan, files: seq<ChangedFile>) {
    && (forall i :: 0 <= i < |plan.units| ==> plan.units[i].rank == i)
    && (forall i :: 0 <= i < |plan.units| ==> plan.units[i].fileId == plan.units[i].scopeId.fileId)
    && UnitScopes(plan.units) == PlannedScopes(plan.scopes)
    && (forall i :: 0 <= i < |plan.scopes| ==> OfFile(plan.scopes[i].id, files))
  }

  ghost predicate OfFile(id: ScopeId, files: seq<ChangedFile>) {
    exists i :: 0 <= i < |files| && files[i].fileId == id.fileId
  }

  lemma {:induction false} PlannedBoth(a: seq<Scope>, b: seq<Scope>)
    ensures PlannedScopes(a + b) == PlannedScopes(a) + PlannedScopes(b)
  {
    if b == [] {
      assert a + b == a;
    } else {
      PlannedBoth(a, b[..|b| - 1]);
      assert (a + b)[..|a + b| - 1] == a + b[..|b| - 1];
    }
  }

  lemma {:induction false} FilesPlanIs(files: seq<ChangedFile>, capacity: Capacity)
    requires capacity.Valid() && Plannable(files)
    ensures FilesPlan(files, capacity).Ok? && Whole(FilesPlan(files, capacity).value, files)
    ensures NoDuplicates(Ids(FilesPlan(files, capacity).value.scopes)) <==> AllCutsDiffer(files, capacity)
  {
    hide CutsDiffer, FilePlan, PlannableFile, PlannedScopes, NoDuplicates;
    if files == [] {
      EmptyPlan();
    } else {
      var init, file := files[..|files| - 1], files[|files| - 1];
      FilesPlanIs(init, capacity);
      var before := FilesPlan(init, capacity).value;
      var more := OneFile(file, capacity, |before.units|);
      PlannedBoth(before.scopes, more.scopes);
      assert Ids(before.scopes + more.scopes) == Ids(before.scopes) + Ids(more.scopes);
      NoDuplicatesBoth(Ids(before.scopes), Ids(more.scopes));
      forall id | id in Ids(before.scopes) ensures id !in Ids(more.scopes) {
        assert OfFile(id, init);
        assert id.fileId != file.fileId;
      }
      forall i | 0 <= i < |before.scopes| + |more.scopes| ensures OfFile((before.scopes + more.scopes)[i].id, files) {
        if i < |before.scopes| {
          var k :| 0 <= k < |init| && init[k].fileId == before.scopes[i].id.fileId;
          assert files[k] == init[k];
        } else {
          assert files[|files| - 1].fileId == more.scopes[i - |before.scopes|].id.fileId;
        }
      }
      assert forall i :: 0 <= i < |init| ==> init[i] == files[i];
    }
  }

  lemma EmptyPlan()
    ensures NoDuplicates(Ids([])) && PlannedScopes([]) == []
  {
  }

  lemma OneFile(file: ChangedFile, capacity: Capacity, rank: nat) returns (plan: Plan)
    requires capacity.Valid() && PlannableFile(file)
    ensures FilePlan(file, capacity, rank) == Ok(plan)
    ensures NoDuplicates(Ids(plan.scopes)) <==> CutsDiffer(file.hunks, capacity)
    ensures UnitScopes(plan.units) == PlannedScopes(plan.scopes)
    ensures forall i :: 0 <= i < |plan.units| ==>
      plan.units[i].rank == rank + i && plan.units[i].fileId == plan.units[i].scopeId.fileId
    ensures forall i :: 0 <= i < |plan.scopes| ==> plan.scopes[i].id.fileId == file.fileId
  {
    hide Solid, NoDuplicates, CutsDiffer, FilePlan, ReviewedLines, PlannedScopes, Within;
    FileIdsDiffer(file, capacity, rank);
    FilePlanCovers(file, capacity, rank);
    plan := FilePlan(file, capacity, rank).value;
  }

  lemma {:induction false} PlannedAreIds(scopes: seq<Scope>)
    ensures forall id :: id in PlannedScopes(scopes) ==> id in Ids(scopes)
    ensures NoDuplicates(Ids(scopes)) ==> NoDuplicates(PlannedScopes(scopes))
  {
    if scopes != [] {
      var init, last := scopes[..|scopes| - 1], scopes[|scopes| - 1];
      PlannedAreIds(init);
      assert Ids(scopes) == Ids(init) + [last.id];
      NoDuplicatesBoth(Ids(init), [last.id]);
      NoDuplicatesBoth(PlannedScopes(init), [last.id]);
      assert PlannedScopes(init) + [] == PlannedScopes(init);
    }
  }

  lemma KeysDiffer(units: seq<WorkUnit>)
    requires NoDuplicates(UnitScopes(units))
    ensures NoDuplicates(UnitKeys(units))
  {
    var scopes, keys := UnitScopes(units), UnitKeys(units);
    forall i, j | 0 <= i < j < |keys| ensures keys[i] != keys[j] {
      assert scopes[i] != scopes[j];
    }
  }

  lemma PermutedIdsDiffer(files: seq<ChangedFile>, ordered: seq<ChangedFile>)
    requires DistinctIds(files) && multiset(ordered) == multiset(files)
    ensures DistinctIds(ordered)
  {
    forall i, j | 0 <= i < j < |ordered| ensures ordered[i].fileId != ordered[j].fileId {
      assert ordered[i] in multiset(files) && ordered[j] in multiset(files);
      if ordered[i] == ordered[j] {
        CountOfTwo(ordered, i, j);
        CountOfOne(files, ordered[i]);
        assert false;
      }
    }
  }

  lemma CountOfTwo(s: seq<ChangedFile>, i: nat, j: nat)
    requires i < j < |s| && s[i] == s[j]
    ensures multiset(s)[s[i]] >= 2
  {
    assert s == s[..i] + [s[i]] + s[i + 1..j] + [s[j]] + s[j + 1..];
  }

  lemma {:induction false} CountOfOne(s: seq<ChangedFile>, f: ChangedFile)
    requires DistinctIds(s)
    ensures multiset(s)[f] <= 1
  {
    if s != [] {
      var init, last := s[..|s| - 1], s[|s| - 1];
      assert s == init + [last];
      CountOfOne(init, f);
      if f == last { assert f !in init; }
    }
  }

  lemma OrderedFiles(files: seq<ChangedFile>)
    ensures multiset(InPlanOrder(files)) == multiset(files)
    ensures forall i :: 0 <= i < |InPlanOrder(files)| ==> InPlanOrder(files)[i] in files
    ensures forall i :: 0 <= i < |files| ==> files[i] in InPlanOrder(files)
  {
    var ordered := InPlanOrder(files);
    forall i | 0 <= i < |ordered| ensures ordered[i] in files { assert ordered[i] in multiset(ordered); }
    forall i | 0 <= i < |files| ensures files[i] in ordered { assert files[i] in multiset(files); }
  }

  /** Putting files in order changes neither whether they can be planned nor the condition. */
  lemma OrderedPlannable(files: seq<ChangedFile>, capacity: Capacity)
    requires capacity.Valid() && Plannable(files)
    ensures Plannable(InPlanOrder(files))
    ensures AllCutsDiffer(InPlanOrder(files), capacity) <==> AllCutsDiffer(files, capacity)
  {
    hide InPlanOrder, PlannableFile, CutsDiffer;
    OrderedFiles(files);
    PermutedIdsDiffer(files, InPlanOrder(files));
  }

  /** A plan for valid, non-empty, distinct hunks is refused exactly when some hunk has to be
      cut and two of its blocks have the same line contents; the other checks never fail. */
  lemma PlanAcceptedIff(files: seq<ChangedFile>, capacity: Capacity)
    requires capacity.Valid() && Plannable(files)
    ensures ReviewPlanOf(files, capacity).Ok? <==> AllCutsDiffer(files, capacity)
    ensures ReviewPlanOf(files, capacity).Err? ==> ReviewPlanOf(files, capacity).error == PlanRejected
  {
    hide Plannable, AllCutsDiffer, FilesPlan, NoDuplicates, PlannedScopes, InPlanOrder;
    OrderedPlannable(files, capacity);
    FilesPlanIs(InPlanOrder(files), capacity);
    var plan := FilesPlan(InPlanOrder(files), capacity).value;
    PlannedAreIds(plan.scopes);
    if NoDuplicates(Ids(plan.scopes)) { KeysDiffer(plan.units); }
  }

  // ----- inputs that cannot be planned ------------------------------------------------------------

  ghost predicate AllHunksValid(hunks: seq<Hunk>) {
    forall i :: 0 <= i < |hunks| ==> ValidHunk(hunks[i])
  }

  lemma {:induction false} ValidLinesShaped(hunks: seq<Hunk>)
    requires AllHunksValid(hunks)
    ensures forall i :: 0 <= i < |AllLines(hunks)| ==> Shaped(AllLines(hunks)[i])
  {
    hide Shaped;
    if hunks != [] {
      ValidLinesShaped(hunks[..|hunks| - 1]);
      ValidShaped(hunks[|hunks| - 1]);
    }
  }

  lemma {:induction false} BlocksSucceed(plan: Plan, fileId: nat, hunk: Hunk, blocks: seq<seq<Line>>, capacity: Capacity, rank: nat)
    requires ShapedBlocks(blocks, capacity)
    ensures WithBlocks(plan, fileId, hunk, blocks, rank).Ok?
  {
    if blocks != [] {
      BlocksSucceed(plan, fileId, hunk, blocks[..|blocks| - 1], capacity, rank);
      ShapedHasRange(blocks[|blocks| - 1]);
    }
  }

  lemma GroupFailsIff(plan: Plan, fileId: nat, group: seq<Hunk>, capacity: Capacity, rank: nat)
    requires capacity.Valid() && Allowed(group, capacity) && AllHunksValid(group)
    ensures WithGroup(plan, fileId, group, capacity, rank).Err? <==> AllLines(group) == []
  {
    hide AllLines, ValidHunk, BlocksOf, WithBlocks, Fits;
    ValidLinesShaped(group);
    if AllLines(group) != [] { ShapedHasRange(AllLines(group)); }
    if |group| == 1 {
      assert group == [group[0]];
      OneReviewed(group[0], capacity);
      var lines := group[0].lines;
      if lines == [] || capacity.contextLimit < SmallestContext {
        NoBlocks(lines, capacity);
      } else {
        ChunksShaped(lines, capacity);
        BlocksSucceed(plan, fileId, group[0], BlocksOf(lines, capacity).value, capacity, rank);
      }
    }
  }

  lemma NoBlocks(lines: seq<Line>, capacity: Capacity)
    requires capacity.Valid() && (lines == [] || capacity.contextLimit < SmallestContext)
    ensures BlocksOf(lines, capacity) == None
  {
  }

  /** Some group has only empty hunks. */
  ghost predicate SomeGroupEmpty(groups: seq<seq<Hunk>>) {
    exists i :: 0 <= i < |groups| && AllLines(groups[i]) == []
  }

  lemma {:induction false} GroupsFailIff(fileId: nat, groups: seq<seq<Hunk>>, capacity: Capacity, rank: nat)
    requires capacity.Valid() && NonEmptyGroups(groups) && AllowedGroups(groups, capacity)
    requires forall i :: 0 <= i < |groups| ==> AllHunksValid(groups[i])
    ensures WithGroups(Plan([], []), fileId, groups, capacity, rank).Err? <==> SomeGroupEmpty(groups)
  {
    hide Allowed, AllHunksValid, AllLines, WithGroup;
    if groups != [] {
      var init, group := groups[..|groups| - 1], groups[|groups| - 1];
      GroupsFailIff(fileId, init, capacity, rank);
      assert forall i :: 0 <= i < |init| ==> init[i] == groups[i];
      if SomeGroupEmpty(init) {
        var i :| 0 <= i < |init| && AllLines(init[i]) == [];
        assert AllLines(groups[i]) == [];
      } else {
        GroupFailsIff(WithGroups(Plan([], []), fileId, init, capacity, rank).value, fileId, group, capacity, rank);
        if SomeGroupEmpty(groups) {
          var i :| 0 <= i < |groups| && AllLines(groups[i]) == [];
        }
      }
    }
  }

  /** Planning a text file with valid hunks raises exactly when it would have to make a unit
      or a scope of empty hunks alone: the whole file, if it fits, or one of its groups. */
  lemma FilePlanFailsIff(file: ChangedFile, capacity: Capacity, rank: nat)
    requires capacity.Valid() && AllHunksValid(file.hunks) && !file.binary && file.hunks != []
    ensures FilePlan(file, capacity, rank).Err? <==>
      if Fits(file.hunks, capacity) then AllLines(file.hunks) == [] else SomeGroupEmpty(Boxed(file.hunks, capacity).All())
  {
    hide AllLines, Fits, WithGroups, ValidHunk, Boxes, SomeGroupEmpty;
    if Fits(file.hunks, capacity) {
      ValidLinesShaped(file.hunks);
      if AllLines(file.hunks) != [] { ShapedHasRange(AllLines(file.hunks)); }
    } else {
      var groups := Boxed(file.hunks, capacity).All();
      BoxedNonEmpty(file.hunks, capacity);
      BoxedPartitions(file.hunks, capacity);
      BoxesFlatten(Boxed(file.hunks, capacity), file.hunks, capacity);
      forall i | 0 <= i < |groups| ensures AllHunksValid(groups[i]) {
        FlattenMember(groups, i);
        assert forall j :: 0 <= j < |groups[i]| ==> groups[i][j] in groups[i];
      }
      GroupsFailIff(file.fileId, groups, capacity, rank);
    }
  }

  lemma BoxesFlatten(b: Boxing, hunks: seq<Hunk>, capacity: Capacity)
    requires Boxes(b, hunks, capacity)
    ensures Flatten(b.All()) == hunks && AllowedGroups(b.All(), capacity)
  {
  }

  /** Two lines of 12 characters with the same contents. */
  predicate Twins(h: Hunk) {
    && |h.lines| == 2
    && h.lines[0].slice.end == h.lines[0].slice.start + 12 && h.lines[1].slice.end == h.lines[1].slice.start + 12
    && h.lines[0].slice.digest == h.lines[1].slice.digest
  }

  const TinyCapacity := Capacity(262, 100)

  lemma TwinsDoNotFit(h: Hunk)
    requires Twins(h)
    ensures !Fits([h], TinyCapacity)
  {
    var a, b := h.lines[0], h.lines[1];
    OneReviewed(h, TinyCapacity);
    assert h.lines == [a, b] && [a, b][..1] == [a] && [a][..0] == [];
    assert Bytes([a]) == 12 && Bytes(h.lines) == 24;
  }

  lemma TwinBlocksEqual(h: Hunk)
    requires Twins(h)
    ensures !BlocksDiffer(h, TinyCapacity)
  {
    var a, b := h.lines[0], h.lines[1];
    var blocks := Chunks(h.lines, 1);
    assert BlocksOf(h.lines, TinyCapacity) == Some(blocks);
    assert h.lines[..1] == [a] && h.lines[1..] == [b];
    assert blocks == [[a]] + Chunks([b], 1) == [[a], [b]];
    assert BlockContents(blocks)[0] == BlockContents(blocks)[1];
  }

  /** Two equal lines, cut into blocks of one, collide: whatever the file and however valid
      its hunk, the plan is refused. */
  lemma EqualBlocksRefused(file: ChangedFile)
    requires PlannableFile(file) && |file.hunks| == 1 && Twins(file.hunks[0])
    ensures ReviewPlanOf([file], TinyCapacity).Err?
  {
    hide ReviewPlanOf, PlannableFile, Fits, BlocksDiffer;
    TwinsDoNotFit(file.hunks[0]);
    TwinBlocksEqual(file.hunks[0]);
    assert [file][0] == file && !CutsDiffer([file][0].hunks, TinyCapacity);
    PlanAcceptedIff([file], TinyCapacity);
  }

  // ----- what a caller can rely on --------------------------------------------------------------

  /** Planning a file never raises when all its hunks have lines. */
  lemma NonEmptyHunksPlan(file: ChangedFile, capacity: Capacity, rank: nat)
    requires capacity.Valid() && AllHunksValid(file.hunks) && (file.binary ==> file.hunks == [])
    requires forall i :: 0 <= i < |file.hunks| ==> file.hunks[i].lines != []
    ensures FilePlan(file, capacity, rank).Ok?
  {
    hide FilePlan, ValidHunk;
    FilePlanCovers(file, capacity, rank);
  }

  lemma {:induction false} NoLinesAtAll(hunks: seq<Hunk>)
    requires forall i :: 0 <= i < |hunks| ==> hunks[i].lines == []
    ensures AllLines(hunks) == []
  {
    if hunks != [] { NoLinesAtAll(hunks[..|hunks| - 1]); }
  }

  /** Planning a file with hunks always raises when none of them has lines. */
  lemma EmptyHunksFail(file: ChangedFile, capacity: Capacity, rank: nat)
    requires capacity.Valid() && AllHunksValid(file.hunks) && !file.binary && file.hunks != []
    requires forall i :: 0 <= i < |file.hunks| ==> file.hunks[i].lines == []
    ensures FilePlan(file, capacity, rank).Err?
  {
    hide FilePlan, ValidHunk, Fits, Partition, AllLines;
    FilePlanFailsIff(file, capacity, rank);
    NoLinesAtAll(file.hunks);
    if !Fits(file.hunks, capacity) {
      var groups := Boxed(file.hunks, capacity).All();
      BoxedPartitions(file.hunks, capacity);
      BoxesFlatten(Boxed(file.hunks, capacity), file.hunks, capacity);
      NoGroups(groups, file.hunks, capacity);
      FlattenMember(groups, 0);
      assert forall j :: 0 <= j < |groups[0]| ==> groups[0][j] in groups[0];
      NoLinesAtAll(groups[0]);
    }
  }
}
