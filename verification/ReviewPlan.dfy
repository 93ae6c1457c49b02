/** Review plans: the scopes and work units of every file, and the checks a frozen plan
    makes on them. */
module ReviewPlan {
  import opened Wrappers
  import opened DiffModel
  import opened Planner
  import opened Sorting

  /** Scope ids are digests of these parts, the digest of a hunk standing for its ranges and
      lines. A block is known only by the contents of its lines. */
  datatype ScopeId =
    | FileScope(fileId: nat)
    | GroupScope(fileId: nat, hunks: seq<Hunk>)
    | HunkScope(fileId: nat, hunk: Hunk)
    | BlockScope(fileId: nat, hunk: Hunk, contents: seq<Digest>)

  datatype Disposition = Planned | Unreviewable | NoReviewRequired

  datatype Scope = Scope(id: ScopeId, disposition: Disposition)

  datatype UnitKind = WholeFile | HunkGroup | LineBlock

  datatype WorkUnit = WorkUnit(
    kind: UnitKind, fileId: nat, scopeId: ScopeId, refs: seq<Slice>, estimate: Estimate, rank: nat)

  datatype PlanError = EmptyRange | PlanRejected

  datatype Plan = Plan(scopes: seq<Scope>, units: seq<WorkUnit>)

  function Slices(lines: seq<Line>): seq<Slice> {
    seq(|lines|, i requires 0 <= i < |lines| => lines[i].slice)
  }

  function Contents(lines: seq<Line>): seq<Digest> {
    seq(|lines|, i requires 0 <= i < |lines| => lines[i].slice.digest)
  }

  /** Some line has a number on some side; a range without one is refused. */
  predicate HasRange(lines: seq<Line>) {
    exists i :: 0 <= i < |lines| && (lines[i].oldNumber.Some? || lines[i].newNumber.Some?)
  }

  // ----- one file -----------------------------------------------------------------------------

  /** The plan with one more scope and the unit that covers it. */
  function WithUnit(plan: Plan, kind: UnitKind, id: ScopeId, lines: seq<Line>, estimate: Estimate, rank: nat)
    : Result<Plan, PlanError>
  {
    if !HasRange(lines) then Err(EmptyRange)
    else Ok(Plan(plan.scopes + [Scope(id, Planned)],
                 plan.units + [WorkUnit(kind, id.fileId, id, Slices(lines), estimate, rank + |plan.units|)]))
  }

  function WithBlocks(plan: Plan, fileId: nat, hunk: Hunk, blocks: seq<seq<Line>>, rank: nat): Result<Plan, PlanError> {
    if blocks == [] then Ok(plan)
    else
      var before := WithBlocks(plan, fileId, hunk, blocks[..|blocks| - 1], rank);
      var block := blocks[|blocks| - 1];
      if before.Err? then before
      else WithUnit(before.value, LineBlock, BlockScope(fileId, hunk, Contents(block)), block, EstimateLines(|block|), rank)
  }

  function WithGroup(plan: Plan, fileId: nat, group: seq<Hunk>, capacity: Capacity, rank: nat): Result<Plan, PlanError>
    requires capacity.Valid() && group != []
  {
    if |group| > 1 || Fits(group, capacity) then
      WithUnit(plan, HunkGroup, GroupScope(fileId, group), AllLines(group), EstimateHunks(group), rank)
    else
      var blocks := BlocksOf(group[0].lines, capacity);
      if blocks.Some? then WithBlocks(plan, fileId, group[0], blocks.value, rank)
      else if !HasRange(group[0].lines) then Err(EmptyRange)
      else Ok(plan.(scopes := plan.scopes + [Scope(HunkScope(fileId, group[0]), Unreviewable)]))
  }

  ghost predicate NonEmptyGroups(groups: seq<seq<Hunk>>) {
    forall i :: 0 <= i < |groups| ==> groups[i] != []
  }

  function WithGroups(plan: Plan, fileId: nat, groups: seq<seq<Hunk>>, capacity: Capacity, rank: nat): Result<Plan, PlanError>
    requires capacity.Valid() && NonEmptyGroups(groups)
  {
    if groups == [] then Ok(plan)
    else
      var before := WithGroups(plan, fileId, groups[..|groups| - 1], capacity, rank);
      if before.Err? then before else WithGroup(before.value, fileId, groups[|groups| - 1], capacity, rank)
  }

  lemma BoxedNonEmpty(hunks: seq<Hunk>, capacity: Capacity)
    ensures NonEmptyGroups(Boxed(hunks, capacity).All())
  {
    BoxedPartitions(hunks, capacity);
  }

  function FilePlan(file: ChangedFile, capacity: Capacity, rank: nat): Result<Plan, PlanError>
    requires capacity.Valid()
  {
    if file.binary then Ok(Plan([Scope(FileScope(file.fileId), Unreviewable)], []))
    else if file.hunks == [] then Ok(Plan([Scope(FileScope(file.fileId), NoReviewRequired)], []))
    else if Fits(file.hunks, capacity) then
      WithUnit(Plan([], []), WholeFile, FileScope(file.fileId), AllLines(file.hunks), EstimateHunks(file.hunks), rank)
    else
      BoxedNonEmpty(file.hunks, capacity);
      WithGroups(Plan([], []), file.fileId, Boxed(file.hunks, capacity).All(), capacity, rank)
  }

  method BuildUnit(kind: UnitKind, id: ScopeId, lines: seq<Line>, estimate: Estimate, rank: nat)
    returns (result: Result<WorkUnit, PlanError>)
    ensures result == if HasRange(lines) then Ok(WorkUnit(kind, id.fileId, id, Slices(lines), estimate, rank)) else Err(EmptyRange)
  {
    if !HasRange(lines) { return Err(EmptyRange); }
    return Ok(WorkUnit(kind, id.fileId, id, Slices(lines), estimate, rank));
  }

  method PlanFile(file: ChangedFile, capacity: Capacity, startRank: nat) returns (result: Result<Plan, PlanError>, rank: nat)
    requires capacity.Valid()
    ensures result == FilePlan(file, capacity, startRank)
    ensures result.Ok? ==> rank == startRank + |result.value.units|
  {
    hide Fits, HasRange, Boxed, WithGroups, AllLines, EstimateHunks, Slices, NonEmptyGroups;
    rank := startRank;
    if file.binary { return Ok(Plan([Scope(FileScope(file.fileId), Unreviewable)], [])), rank; }
    if file.hunks == [] { return Ok(Plan([Scope(FileScope(file.fileId), NoReviewRequired)], [])), rank; }
    if Fits(file.hunks, capacity) {
      var unit := BuildUnit(WholeFile, FileScope(file.fileId), AllLines(file.hunks), EstimateHunks(file.hunks), rank);
      if unit.Err? { return Err(unit.error), rank; }
      ghost var none := Plan([], []);
      assert none.scopes + [Scope(FileScope(file.fileId), Planned)] == [Scope(FileScope(file.fileId), Planned)];
      assert none.units + [unit.value] == [unit.value];
      return Ok(Plan([Scope(FileScope(file.fileId), Planned)], [unit.value])), rank + 1;
    }
    var groups := BoxHunks(file.hunks, capacity);
    BoxedNonEmpty(file.hunks, capacity);
    result := PlanGroups(file.fileId, groups, capacity, startRank);
    if result.Ok? { rank := startRank + |result.value.units|; }
  }

  method PlanGroups(fileId: nat, groups: seq<seq<Hunk>>, capacity: Capacity, startRank: nat)
    returns (result: Result<Plan, PlanError>)
    requires capacity.Valid() && NonEmptyGroups(groups)
    ensures result == WithGroups(Plan([], []), fileId, groups, capacity, startRank)
  {
    hide WithGroup;
    var plan := Plan([], []);
    for g := 0 to |groups|
      invariant WithGroups(Plan([], []), fileId, groups[..g], capacity, startRank) == Ok(plan)
    {
      assert groups[..g + 1][..g] == groups[..g];
      var after := PlanGroup(plan, fileId, groups[g], capacity, startRank);
      assert WithGroups(Plan([], []), fileId, groups[..g + 1], capacity, startRank) == after;
      if after.Err? {
        GroupsFail(Plan([], []), fileId, groups, capacity, startRank, g + 1);
        return after;
      }
      plan := after.value;
    }
    assert groups[..|groups|] == groups;
    return Ok(plan);
  }

  method PlanGroup(plan: Plan, fileId: nat, group: seq<Hunk>, capacity: Capacity, startRank: nat)
    returns (result: Result<Plan, PlanError>)
    requires capacity.Valid() && group != []
    ensures result == WithGroup(plan, fileId, group, capacity, startRank)
  {
    hide Fits, HasRange, WithBlocks, AllLines, EstimateHunks, Slices, BlocksOf;
    var rank := startRank + |plan.units|;
    if |group| > 1 || Fits(group, capacity) {
      var id := GroupScope(fileId, group);
      var unit := BuildUnit(HunkGroup, id, AllLines(group), EstimateHunks(group), rank);
      if unit.Err? { return Err(unit.error); }
      return Ok(Plan(plan.scopes + [Scope(id, Planned)], plan.units + [unit.value]));
    }
    var blocks := LineBlocks(group[0].lines, capacity);
    if blocks == None {
      if !HasRange(group[0].lines) { return Err(EmptyRange); }
      return Ok(plan.(scopes := plan.scopes + [Scope(HunkScope(fileId, group[0]), Unreviewable)]));
    }
    result := PlanBlocks(plan, fileId, group[0], blocks.value, startRank);
  }

  method PlanBlocks(plan: Plan, fileId: nat, hunk: Hunk, blocks: seq<seq<Line>>, startRank: nat)
    returns (result: Result<Plan, PlanError>)
    ensures result == WithBlocks(plan, fileId, hunk, blocks, startRank)
  {
    hide HasRange;
    var scopes, units, rank := plan.scopes, plan.units, startRank + |plan.units|;
    for b := 0 to |blocks|
      invariant rank == startRank + |units|
      invariant WithBlocks(plan, fileId, hunk, blocks[..b], startRank) == Ok(Plan(scopes, units))
    {
      var block := blocks[b];
      assert blocks[..b + 1][..b] == blocks[..b];
      var id := BlockScope(fileId, hunk, Contents(block));
      var unit := BuildUnit(LineBlock, id, block, EstimateLines(|block|), rank);
      if unit.Err? {
        BlocksFail(plan, fileId, hunk, blocks, startRank, b + 1);
        return Err(unit.error);
      }
      scopes, units, rank := scopes + [Scope(id, Planned)], units + [unit.value], rank + 1;
    }
    assert blocks[..|blocks|] == blocks;
    return Ok(Plan(scopes, units));
  }

  lemma {:induction false} GroupsFail(plan: Plan, fileId: nat, groups: seq<seq<Hunk>>, capacity: Capacity, rank: nat, n: nat)
    requires capacity.Valid() && NonEmptyGroups(groups) && n <= |groups|
    requires WithGroups(plan, fileId, groups[..n], capacity, rank).Err?
    ensures WithGroups(plan, fileId, groups, capacity, rank) == WithGroups(plan, fileId, groups[..n], capacity, rank)
    decreases |groups|
  {
    if n == |groups| {
      assert groups[..n] == groups;
    } else {
      assert groups[..|groups| - 1][..n] == groups[..n];
      GroupsFail(plan, fileId, groups[..|groups| - 1], capacity, rank, n);
    }
  }

  lemma {:induction false} BlocksFail(plan: Plan, fileId: nat, hunk: Hunk, blocks: seq<seq<Line>>, rank: nat, n: nat)
    requires n <= |blocks| && WithBlocks(plan, fileId, hunk, blocks[..n], rank).Err?
    ensures WithBlocks(plan, fileId, hunk, blocks, rank) == WithBlocks(plan, fileId, hunk, blocks[..n], rank)
    decreases |blocks|
  {
    if n == |blocks| {
      assert blocks[..n] == blocks;
    } else {
      assert blocks[..|blocks| - 1][..n] == blocks[..n];
      BlocksFail(plan, fileId, hunk, blocks[..|blocks| - 1], rank, n);
    }
  }

  // ----- whole plans ----------------------------------------------------------------------------

  function Ids(scopes: seq<Scope>): seq<ScopeId> {
    seq(|scopes|, i requires 0 <= i < |scopes| => scopes[i].id)
  }

  function UnitScopes(units: seq<WorkUnit>): seq<ScopeId> {
    seq(|units|, i requires 0 <= i < |units| => units[i].scopeId)
  }

  predicate NoDuplicates<T(==)>(s: seq<T>) {
    forall i, j :: 0 <= i < j < |s| ==> s[i] != s[j]
  }

  function PlannedScopes(scopes: seq<Scope>): seq<ScopeId> {
    if scopes == [] then []
    else
      var last := scopes[|scopes| - 1];
      PlannedScopes(scopes[..|scopes| - 1]) + (if last.disposition == Planned then [last.id] else [])
  }

  /** What a unit's own id is a digest of. */
  function UnitKeys(units: seq<WorkUnit>): seq<(UnitKind, nat, ScopeId)> {
    seq(|units|, i requires 0 <= i < |units| => (units[i].kind, units[i].fileId, units[i].scopeId))
  }

  /** The checks of a frozen plan: scope ids are unique, the units cover each planned scope
      exactly once and nothing else, and unit ids are unique. */
  predicate Frozen(plan: Plan) {
    && NoDuplicates(Ids(plan.scopes))
    && NoDuplicates(UnitScopes(plan.units))
    && (set id | id in UnitScopes(plan.units)) == (set id | id in PlannedScopes(plan.scopes))
    && NoDuplicates(UnitKeys(plan.units))
  }

  function FilesPlan(files: seq<ChangedFile>, capacity: Capacity): Result<Plan, PlanError>
    requires capacity.Valid()
  {
    if files == [] then Ok(Plan([], []))
    else
      var before := FilesPlan(files[..|files| - 1], capacity);
      if before.Err? then before
      else
        var more := FilePlan(files[|files| - 1], capacity, |before.value.units|);
        if more.Err? then more
        else Ok(Plan(before.value.scopes + more.value.scopes, before.value.units + more.value.units))
  }

  const OrderOf: ChangedFile -> int := (file: ChangedFile) => file.order

  /** The files in the order they are planned in. */
  function InPlanOrder(files: seq<ChangedFile>): seq<ChangedFile> {
    SortBy(files, OrderOf)
  }

  function ReviewPlanOf(files: seq<ChangedFile>, capacity: Capacity): Result<Plan, PlanError>
    requires capacity.Valid()
  {
    var plan := FilesPlan(InPlanOrder(files), capacity);
    if plan.Ok? && !Frozen(plan.value) then Err(PlanRejected) else plan
  }

  method MakePlan(files: seq<ChangedFile>, capacity: Capacity) returns (result: Result<Plan, PlanError>)
    requires capacity.Valid()
    ensures result == ReviewPlanOf(files, capacity)
  {
    hide FilePlan, Frozen, InPlanOrder;
    var scopes: seq<Scope>, units: seq<WorkUnit>, rank := [], [], 0;
    var ordered := InPlanOrder(files);
    for n := 0 to |ordered|
      invariant rank == |units|
      invariant FilesPlan(ordered[..n], capacity) == Ok(Plan(scopes, units))
    {
      assert ordered[..n + 1][..n] == ordered[..n];
      var more, next := PlanFile(ordered[n], capacity, rank);
      if more.Err? {
        FilesFail(ordered, capacity, n + 1);
        return Err(more.error);
      }
      scopes, units, rank := scopes + more.value.scopes, units + more.value.units, next;
    }
    assert ordered[..|ordered|] == ordered;
    if !Frozen(Plan(scopes, units)) { return Err(PlanRejected); }
    return Ok(Plan(scopes, units));
  }

  lemma {:induction false} FilesFail(files: seq<ChangedFile>, capacity: Capacity, n: nat)
    requires capacity.Valid() && n <= |files| && FilesPlan(files[..n], capacity).Err?
    ensures FilesPlan(files, capacity) == FilesPlan(files[..n], capacity)
    decreases |files|
  {
    if n == |files| {
      assert files[..n] == files;
    } else {
      assert files[..|files| - 1][..n] == files[..n];
      FilesFail(files[..|files| - 1], capacity, n);
    }
  }
}
