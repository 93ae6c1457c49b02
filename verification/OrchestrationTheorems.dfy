/** What holds over every sequence of runs, interruptions, failing saves and purges. */
module OrchestrationTheorems {
  import opened Wrappers
  import opened CheckpointCodec
  import opened Checkpoints
  import opened Orchestration

  // ----- results come from executions ---------------------------------------------------------------

  /** Each of these values is the result of an execution of its unit. */
  ghost predicate AllRan(values: map<UnitId, Value>, log: seq<Entry>) {
    forall u :: u in values ==> Ran(u, values[u]) in log
  }

  /** The row decodes to what was encoded, and that was executed. */
  ghost predicate StoreOk(reg: Registry, s: Stored, log: seq<Entry>) {
    RowHolds(reg, s, CompletedOf(reg, s), UnknownOf(reg, s)) && AllRan(CompletedOf(reg, s), log)
  }

  /** The results are those of the first units, in rank order, each from an execution. */
  ghost predicate Passed(units: seq<WorkUnit>, results: seq<Value>, log: seq<Entry>) {
    |results| <= |units| && forall i :: 0 <= i < |results| ==> Ran(units[i].id, results[i]) in log
  }

  ghost predicate StageOk(reg: Registry, plan: Planner, stage: Stage, log: seq<Entry>) {
    match stage
    case Down => true
    case Looping(b, todo, completed, results, _) =>
      var units := InRankOrder(plan(b));
      Passed(units, results, log) && todo == units[|results|..] && AllRan(completed, log)
    case Holding(b, todo, completed, results, _, value, _) =>
      var units := InRankOrder(plan(b));
      && Passed(units, results, log) && todo == units[|results|..] && AllRan(completed, log)
      && todo != [] && todo[0].id !in completed && Ran(todo[0].id, value) in log && RoundTrips(reg, value)
    case Finished(b, results, _, unknown, stopped) =>
      var units := InRankOrder(plan(b));
      Passed(units, results, log) && (unknown || stopped || |results| == |units|)
  }

  ghost predicate Inv(reg: Registry, plan: Planner, s: State) {
    StoreOk(reg, s.stored, s.log) && StageOk(reg, plan, s.stage, s.log)
  }

  /** Results that checkpoints can hold: they come back from the codec. */
  ghost predicate Serializable(reg: Registry, events: seq<Event>) {
    forall i :: 0 <= i < |events| ==> EventOk(reg, events[i])
  }

  ghost predicate EventOk(reg: Registry, e: Event) {
    e.Execute? ==> RoundTrips(reg, e.value)
  }

  lemma SavedBinding(reg: Registry, s: Stored, b: Binding, u: Option<UnitId>, execution: Option<Value>, unknown: Option<Value>)
    requires Saved(reg, s, b, u, execution, unknown).Ok?
    ensures s.row.Some? ==> s.row.value.binding == b
  {
  }

  /** A save that succeeds adds its execution to the completed values. */
  lemma SaveEffect(reg: Registry, s: Stored, b: Binding, u: Option<UnitId>, execution: Option<Value>, unknown: Option<Value>, log: seq<Entry>)
    requires StoreOk(reg, s, log) && Saved(reg, s, b, u, execution, unknown).Ok?
    requires execution.Some? ==> u.Some? && RoundTrips(reg, execution.value) && Ran(u.value, execution.value) in log
    requires unknown.Some? ==> u.Some? && RoundTrips(reg, unknown.value)
    requires u.Some? ==> execution.Some? || unknown.Some?
    ensures var s' := Saved(reg, s, b, u, execution, unknown).value;
      && StoreOk(reg, s', log) && s'.row.Some? && s'.expired == s.expired
      && CompletedOf(reg, s') == Put(CompletedOf(reg, s), u, execution)
  {
    hide Saved, RoundTrips, RowHolds, CompletedOf, UnknownOf;
    SavedBinding(reg, s, b, u, execution, unknown);
    SaveAdds(reg, s, b, CompletedOf(reg, s), UnknownOf(reg, s), u, execution, unknown);
    HeldIsDecoded(reg, Saved(reg, s, b, u, execution, unknown).value,
                  Put(CompletedOf(reg, s), u, execution), Put(UnknownOf(reg, s), u, unknown));
  }

  lemma LoadEffect(reg: Registry, s: Stored, b: Binding, late: bool, log: seq<Entry>)
    requires StoreOk(reg, s, log)
    ensures var loaded := Loaded(reg, s, b, late);
      && (loaded.Ok? ==> s.row.Some? && loaded.value == CompletedOf(reg, s))
      && (loaded == Err(NotFound) ==> s.row == None && !s.expired)
      && (s.row == None && s.expired ==> loaded == Err(Expired))
  {
    hide RowHolds, Encode, Decode;
  }

  lemma EmptyOk(reg: Registry, s: Stored, log: seq<Entry>)
    requires s.row == None
    ensures StoreOk(reg, s, log) && CompletedOf(reg, s) == map[]
  {
  }

  lemma LogGrows(reg: Registry, plan: Planner, s: Stored, stage: Stage, log: seq<Entry>, e: Entry)
    requires StoreOk(reg, s, log)
    ensures StoreOk(reg, s, log + [e])
    ensures StageOk(reg, plan, stage, log) ==> StageOk(reg, plan, stage, log + [e])
  {
    hide RowHolds, CompletedOf, UnknownOf, RoundTrips, InRankOrder;
  }

  lemma BeginKeeps(reg: Registry, plan: Planner, s: State, b: Binding, resume: bool, late: bool, available: bool)
    requires Inv(reg, plan, s)
    ensures Inv(reg, plan, Begin(reg, plan, s, b, resume, late, available))
    ensures CompletedOf(reg, Begin(reg, plan, s, b, resume, late, available).stored) == CompletedOf(reg, s.stored)
  {
    hide StoreOk, CompletedOf, Saved, Loaded, InRankOrder;
    LoadEffect(reg, s.stored, b, late, s.log);
    StoreRan(reg, s.stored, s.log);
    if Loaded(reg, s.stored, b, late) == Err(NotFound) && !resume && available && Saved(reg, s.stored, b, None, None, None).Ok? {
      SaveEffect(reg, s.stored, b, None, None, None, s.log);
    }
  }

  lemma StoreRan(reg: Registry, s: Stored, log: seq<Entry>)
    requires StoreOk(reg, s, log)
    ensures AllRan(CompletedOf(reg, s), log)
  {
  }

  lemma SaveKeeps(reg: Registry, plan: Planner, s: State, available: bool)
    requires Inv(reg, plan, s) && s.stage.Holding?
    ensures Inv(reg, plan, SaveHeld(reg, s, available))
    ensures var u, saved := s.stage.todo[0].id,
                            available && Saved(reg, s.stored, s.stage.binding, Some(s.stage.todo[0].id),
                              if s.stage.unknown then None else Some(s.stage.value), if s.stage.unknown then Some(s.stage.value) else None).Ok?;
      CompletedOf(reg, SaveHeld(reg, s, available).stored) ==
        if saved && !s.stage.unknown then CompletedOf(reg, s.stored)[u := s.stage.value] else CompletedOf(reg, s.stored)
  {
    hide StoreOk, CompletedOf, Saved, InRankOrder, RoundTrips;
    var h := s.stage;
    var u, execution, unknown := Some(h.todo[0].id), if h.unknown then None else Some(h.value), if h.unknown then Some(h.value) else None;
    if available && Saved(reg, s.stored, h.binding, u, execution, unknown).Ok? {
      SaveEffect(reg, s.stored, h.binding, u, execution, unknown, s.log);
      if !h.unknown {
        LogGrows(reg, plan, Saved(reg, s.stored, h.binding, u, execution, unknown).value, h, s.log, Kept(h.todo[0].id, h.value));
      }
    }
  }

  lemma StepKeeps(reg: Registry, plan: Planner, s: State, e: Event)
    requires Inv(reg, plan, s) && EventOk(reg, e)
    ensures Inv(reg, plan, Step(reg, plan, s, e))
  {
    hide StoreOk, InRankOrder, RoundTrips, Begin, SaveHeld;
    match e
    case Start(b, resume, late, available) =>
      if !InProgress(s.stage) { BeginKeeps(reg, plan, s, b, resume, late, available); }
    case Save(available) =>
      if s.stage.Holding? { SaveKeeps(reg, plan, s, available); }
    case Execute(value, unknown) =>
      if Step(reg, plan, s, e) != s { LogGrows(reg, plan, s.stored, s.stage, s.log, Ran(s.stage.todo[0].id, value)); }
    case Purge => EmptyOk(reg, Stored(None, true), s.log);
    case _ =>
  }

  lemma {:induction false} RunInv(reg: Registry, plan: Planner, events: seq<Event>)
    requires Serializable(reg, events)
    ensures Inv(reg, plan, Run(reg, plan, Fresh, events))
  {
    hide Inv, Step, EventOk;
    if events == [] {
      FreshOk(reg, plan);
    } else {
      RunInv(reg, plan, events[..|events| - 1]);
      StepKeeps(reg, plan, Run(reg, plan, Fresh, events[..|events| - 1]), events[|events| - 1]);
    }
  }

  lemma FreshOk(reg: Registry, plan: Planner)
    ensures Inv(reg, plan, Fresh)
  {
    EmptyOk(reg, Fresh.stored, []);
  }

  function ResultsOf(f: UnitId -> Value, units: seq<WorkUnit>): seq<Value> {
    seq(|units|, i requires 0 <= i < |units| => f(units[i].id))
  }

  /** If executing a unit always gives the same result, a run that neither stops nor meets an
      unknown outcome passes on the same tuple, in rank order, whatever was interrupted,
      resumed, purged or failed to be saved before: the tuple of an uninterrupted run. */
  lemma ResumedEqualsUninterrupted(reg: Registry, plan: Planner, events: seq<Event>, f: UnitId -> Value)
    requires Serializable(reg, events)
    requires forall u, v :: Ran(u, v) in Run(reg, plan, Fresh, events).log ==> v == f(u)
    requires var stage := Run(reg, plan, Fresh, events).stage; stage.Finished? && !stage.unknown && !stage.stopped
    ensures var stage := Run(reg, plan, Fresh, events).stage;
      stage.results == ResultsOf(f, InRankOrder(plan(stage.binding)))
  {
    hide StoreOk, InRankOrder, Run;
    RunInv(reg, plan, events);
    var stage := Run(reg, plan, Fresh, events).stage;
    var units := InRankOrder(plan(stage.binding));
    assert forall i :: 0 <= i < |units| ==> Ran(units[i].id, stage.results[i]) in Run(reg, plan, Fresh, events).log;
  }

  // ----- what reviews pass on ------------------------------------------------------------------

  ghost predicate Repeats(answers: map<UnitId, Answer>, f: UnitId -> Value) {
    forall u :: u in answers ==> answers[u].value == f(u)
  }

  /** Any number of reviews one after the other, each from what those before it stored: the
      k-th goes through `passed[k]` units, is answered by `answers[k]` and leaves `stored[k + 1]`. */
  ghost predicate InTurn(units: seq<WorkUnit>, answers: seq<map<UnitId, Answer>>, passed: seq<nat>, stored: seq<map<UnitId, Value>>) {
    && |stored| == |answers| + 1 == |passed| + 1 && stored[0] == map[]
    && (forall k :: 0 <= k < |answers| ==> AllAnswered(units, answers[k]))
    && (forall k :: 0 <= k < |answers| ==> StoresResults(units, stored[k], answers[k], passed[k], stored[k + 1]))
  }

  lemma {:induction false} StoredRepeats(units: seq<WorkUnit>, answers: seq<map<UnitId, Answer>>, passed: seq<nat>,
                                         stored: seq<map<UnitId, Value>>, f: UnitId -> Value, k: nat)
    requires InTurn(units, answers, passed, stored) && k <= |answers|
    requires forall i :: 0 <= i < |answers| ==> Repeats(answers[i], f)
    ensures forall u :: u in stored[k] ==> stored[k][u] == f(u)
  {
    if k > 0 {
      StoredRepeats(units, answers, passed, stored, f, k - 1);
      assert StoresResults(units, stored[k - 1], answers[k - 1], passed[k - 1], stored[k]);
    }
  }

  /** What `RunReview` answers: if executing a unit always gives the same result, a review that
      gets through all units passes on the same tuple however many reviews before it were
      cut short, and whatever of theirs was stored. */
  lemma ResumedReviewsAgree(units: seq<WorkUnit>, answers: seq<map<UnitId, Answer>>, passed: seq<nat>,
                            stored: seq<map<UnitId, Value>>, last: map<UnitId, Answer>, results: seq<Value>, f: UnitId -> Value)
    requires InTurn(units, answers, passed, stored) && AllAnswered(units, last)
    requires Repeats(last, f) && forall i :: 0 <= i < |answers| ==> Repeats(answers[i], f)
    requires Delivers(units, stored[|answers|], last, results) && |results| == |units|
    ensures results == ResultsOf(f, units)
  {
    StoredRepeats(units, answers, passed, stored, f, |answers|);
  }

  // ----- what was saved is passed on -------------------------------------------------------

  ghost predicate DistinctUnits(units: seq<WorkUnit>) {
    forall i, j :: 0 <= i < j < |units| ==> units[i].id != units[j].id
  }

  ghost predicate DistinctPlans(plan: Planner) {
    forall b :: DistinctUnits(InRankOrder(plan(b)))
  }

  /** Checkpoints are purged only while no run is in progress. */
  ghost predicate Quiet(reg: Registry, plan: Planner, events: seq<Event>) {
    forall i :: 0 <= i < |events| && events[i].Purge? ==> !InProgress(Run(reg, plan, Fresh, events[..i]).stage)
  }

  ghost predicate NotKept(log: seq<Entry>, u: UnitId) {
    forall i :: 0 <= i < |log| ==> !(log[i].Kept? && log[i].id == u)
  }

  /** What was saved is what the store holds for the unit; or the row was purged for good. */
  ghost predicate KeptStored(reg: Registry, s: Stored, progress: bool, log: seq<Entry>) {
    && (forall i :: 0 <= i < |log| && log[i].Kept? ==>
          (s.row == None && s.expired && !progress)
          || (log[i].id in CompletedOf(reg, s) && CompletedOf(reg, s)[log[i].id] == log[i].value))
    && (forall u :: u in CompletedOf(reg, s) ==> Kept(u, CompletedOf(reg, s)[u]) in log)
  }

  /** Of the units still to come, those not loaded were never saved; what was loaded was. */
  ghost predicate Ahead(todo: seq<WorkUnit>, completed: map<UnitId, Value>, log: seq<Entry>) {
    && (forall i :: 0 <= i < |todo| && todo[i].id !in completed ==> NotKept(log, todo[i].id))
    && (forall u :: u in completed ==> Kept(u, completed[u]) in log)
  }

  /** Where a unit's result was saved, it is the result passed on. */
  ghost predicate KeptPassed(units: seq<WorkUnit>, results: seq<Value>, log: seq<Entry>) {
    forall i, j :: 0 <= i < |results| && i < |units| && 0 <= j < |log| && log[j].Kept? && log[j].id == units[i].id ==>
      log[j].value == results[i]
  }

  ghost predicate StageKept(plan: Planner, stage: Stage, log: seq<Entry>) {
    match stage
    case Down => true
    case Looping(b, todo, completed, results, _) => Ahead(todo, completed, log) && KeptPassed(InRankOrder(plan(b)), results, log)
    case Holding(b, todo, completed, results, _, _, _) => Ahead(todo, completed, log) && KeptPassed(InRankOrder(plan(b)), results, log)
    case Finished(b, results, _, _, _) => KeptPassed(InRankOrder(plan(b)), results, log)
  }

  ghost predicate OneKept(log: seq<Entry>) {
    forall i, j :: 0 <= i < |log| && 0 <= j < |log| && log[i].Kept? && log[j].Kept? && log[i].id == log[j].id ==>
      log[i].value == log[j].value
  }

  ghost predicate KInv(reg: Registry, plan: Planner, s: State) {
    && OneKept(s.log)
    && KeptStored(reg, s.stored, InProgress(s.stage), s.log)
    && StageKept(plan, s.stage, s.log)
  }

  lemma BeginKeepsK(reg: Registry, plan: Planner, s: State, b: Binding, resume: bool, late: bool, available: bool)
    requires Inv(reg, plan, s) && KInv(reg, plan, s) && !InProgress(s.stage)
    ensures KInv(reg, plan, Begin(reg, plan, s, b, resume, late, available))
  {
    hide StoreOk, StageOk, CompletedOf, Saved, Loaded, InRankOrder, OneKept;
    LoadEffect(reg, s.stored, b, late, s.log);
    BeginKeeps(reg, plan, s, b, resume, late, available);
    if Loaded(reg, s.stored, b, late) == Err(NotFound) {
      EmptyOk(reg, s.stored, s.log);
      if available && Saved(reg, s.stored, b, None, None, None).Ok? {
        SaveEffect(reg, s.stored, b, None, None, None, s.log);
      }
    }
  }

  /** Saving the result of a unit that was never saved. */
  lemma KeepOne(reg: Registry, units: seq<WorkUnit>, s: Stored, s': Stored, log: seq<Entry>, u: UnitId, v: Value)
    requires OneKept(log) && KeptStored(reg, s, true, log) && NotKept(log, u)
    requires CompletedOf(reg, s') == CompletedOf(reg, s)[u := v]
    ensures OneKept(log + [Kept(u, v)]) && KeptStored(reg, s', true, log + [Kept(u, v)])
  {
    hide CompletedOf;
    var log' := log + [Kept(u, v)];
    assert forall i :: 0 <= i < |log| ==> log'[i] == log[i];
    assert log'[|log|] == Kept(u, v);
    forall x | x in CompletedOf(reg, s') ensures Kept(x, CompletedOf(reg, s')[x]) in log' {
      if x == u { assert log'[|log|] in log'; } else { assert Kept(x, CompletedOf(reg, s)[x]) in log; }
    }
  }

  lemma StageKeepsOne(todo: seq<WorkUnit>, completed: map<UnitId, Value>, units: seq<WorkUnit>, results: seq<Value>,
                      log: seq<Entry>, v: Value)
    requires Ahead(todo, completed, log) && KeptPassed(units, results, log) && |results| < |units|
    requires DistinctUnits(units) && todo == units[|results|..] && todo[0].id !in completed
    ensures var log' := log + [Kept(todo[0].id, v)];
      Ahead(todo[1..], completed, log') && KeptPassed(units, results + [v], log')
    ensures KeptPassed(units, results + [v], log)
    ensures Ahead(todo[1..], completed, log)
  {
    var u, log' := todo[0].id, log + [Kept(todo[0].id, v)];
    assert u == units[|results|].id && NotKept(log, u);
    assert forall i :: 0 <= i < |todo[1..]| ==> todo[1..][i] == todo[i + 1] == units[|results| + 1 + i];
    forall i | 0 <= i < |todo[1..]| && todo[1..][i].id !in completed ensures NotKept(log', todo[1..][i].id) {
      assert NotKept(log, todo[i + 1].id);
    }
  }

  lemma SaveKeepsK(reg: Registry, plan: Planner, s: State, available: bool)
    requires Inv(reg, plan, s) && KInv(reg, plan, s) && s.stage.Holding? && DistinctUnits(InRankOrder(plan(s.stage.binding)))
    ensures KInv(reg, plan, SaveHeld(reg, s, available))
  {
    hide StoreOk, CompletedOf, Saved, InRankOrder, OneKept, KeptStored, Ahead, KeptPassed, DistinctUnits, Passed, AllRan;
    var h := s.stage;
    var u, units := h.todo[0].id, InRankOrder(plan(h.binding));
    var s' := SaveHeld(reg, s, available);
    HeldIndex(units, h.results, s.log);
    SaveKeeps(reg, plan, s, available);
    StageKeepsOne(h.todo, h.completed, units, h.results, s.log, h.value);
    NeverKept(h.todo, h.completed, s.log);
    if s'.log != s.log {
      KeepOne(reg, units, s.stored, s'.stored, s.log, u, h.value);
    } else {
      SameKept(reg, s.stored, s'.stored, s.log);
    }
  }

  lemma HeldIndex(units: seq<WorkUnit>, results: seq<Value>, log: seq<Entry>)
    requires Passed(units, results, log)
    ensures |results| <= |units|
  {
  }

  lemma NeverKept(todo: seq<WorkUnit>, completed: map<UnitId, Value>, log: seq<Entry>)
    requires Ahead(todo, completed, log) && todo != [] && todo[0].id !in completed
    ensures NotKept(log, todo[0].id)
  {
  }

  lemma SameKept(reg: Registry, s: Stored, s': Stored, log: seq<Entry>)
    requires KeptStored(reg, s, true, log) && CompletedOf(reg, s') == CompletedOf(reg, s)
    ensures KeptStored(reg, s', true, log) && KeptStored(reg, s', false, log)
  {
    hide CompletedOf;
  }

  lemma ExecuteKeepsK(reg: Registry, plan: Planner, s: State, value: Value, unknown: bool)
    requires Inv(reg, plan, s) && KInv(reg, plan, s)
    ensures KInv(reg, plan, Step(reg, plan, s, Execute(value, unknown)))
  {
    hide StoreOk, StageOk, CompletedOf, InRankOrder;
    var s' := Step(reg, plan, s, Execute(value, unknown));
    if s' != s {
      var e := Ran(s.stage.todo[0].id, value);
      NeverKept(s.stage.todo, s.stage.completed, s.log);
      assert s'.log[|s.log|] == e && forall i :: 0 <= i < |s.log| ==> s'.log[i] == s.log[i];
      forall u | NotKept(s.log, u) ensures NotKept(s'.log, u) {
      }
    }
  }

  lemma ReuseKeepsK(reg: Registry, plan: Planner, s: State)
    requires Inv(reg, plan, s) && KInv(reg, plan, s)
    ensures KInv(reg, plan, Step(reg, plan, s, Reuse))
  {
    hide StoreOk, CompletedOf, InRankOrder;
    var s' := Step(reg, plan, s, Reuse);
    if s' != s {
      var units, u := InRankOrder(plan(s.stage.binding)), s.stage.todo[0].id;
      assert Kept(u, s.stage.completed[u]) in s.log;
      assert units[|s.stage.results|].id == u;
      assert forall i :: 0 <= i < |s.stage.todo[1..]| ==> s.stage.todo[1..][i] == s.stage.todo[i + 1];
    }
  }

  lemma StepKeepsK(reg: Registry, plan: Planner, s: State, e: Event)
    requires Inv(reg, plan, s) && KInv(reg, plan, s) && DistinctPlans(plan)
    requires e.Purge? ==> !InProgress(s.stage)
    ensures KInv(reg, plan, Step(reg, plan, s, e))
  {
    hide Inv, InRankOrder, Begin, SaveHeld, OneKept, KeptStored, StageKept, DistinctUnits;
    match e
    case Start(b, resume, late, available) =>
      if !InProgress(s.stage) { BeginKeepsK(reg, plan, s, b, resume, late, available); }
    case Save(available) =>
      if s.stage.Holding? && s.stage.todo != [] { SaveKeepsK(reg, plan, s, available); }
    case Execute(value, unknown) => ExecuteKeepsK(reg, plan, s, value, unknown);
    case Reuse => ReuseKeepsK(reg, plan, s);
    case Purge => PurgeKeepsK(reg, s.stored, s.log, InProgress(s.stage));
    case _ => EndKeepsK(reg, plan, s, e);
  }

  lemma PurgeKeepsK(reg: Registry, s: Stored, log: seq<Entry>, progress: bool)
    requires KeptStored(reg, s, progress, log)
    ensures !progress ==> KeptStored(reg, Stored(None, true), false, log)
  {
  }

  lemma EndKeepsK(reg: Registry, plan: Planner, s: State, e: Event)
    requires KInv(reg, plan, s) && (e.Stop? || e.Finish? || e.Crash?)
    ensures KInv(reg, plan, Step(reg, plan, s, e))
  {
    hide CompletedOf, InRankOrder, OneKept;
  }

  lemma {:induction false} RunKInv(reg: Registry, plan: Planner, events: seq<Event>)
    requires Serializable(reg, events) && Quiet(reg, plan, events) && DistinctPlans(plan)
    ensures KInv(reg, plan, Run(reg, plan, Fresh, events))
  {
    hide Inv, Step, EventOk, KInv, DistinctPlans;
    if events == [] {
      FreshKept(reg, plan);
    } else {
      var init := events[..|events| - 1];
      assert forall i :: 0 <= i < |init| ==> init[..i] == events[..i];
      RunKInv(reg, plan, init);
      RunInv(reg, plan, init);
      StepKeepsK(reg, plan, Run(reg, plan, Fresh, init), events[|events| - 1]);
    }
  }

  lemma FreshKept(reg: Registry, plan: Planner)
    ensures KInv(reg, plan, Fresh)
  {
  }

  /** What a finished run passes on is, unit by unit in rank order, a result of executing the
      unit, and the one that was saved, if one was, even when executing is not repeatable. */
  lemma SavedResultsArePassedOn(reg: Registry, plan: Planner, events: seq<Event>)
    requires Serializable(reg, events) && Quiet(reg, plan, events) && DistinctPlans(plan)
    requires Run(reg, plan, Fresh, events).stage.Finished?
    ensures var s := Run(reg, plan, Fresh, events); var units := InRankOrder(plan(s.stage.binding));
      && Passed(units, s.stage.results, s.log) && KeptPassed(units, s.stage.results, s.log)
      && (s.stage.unknown || s.stage.stopped || |s.stage.results| == |units|)
  {
    hide Run, StoreOk, InRankOrder;
    RunInv(reg, plan, events);
    RunKInv(reg, plan, events);
  }
}
