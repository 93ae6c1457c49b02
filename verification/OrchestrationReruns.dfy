/** When a unit whose result was saved is executed again: exactly when its checkpoint was
    purged during a run and something else was saved after that. */
module OrchestrationReruns {
  import opened Wrappers
  import opened CheckpointCodec
  import opened Checkpoints
  import opened Orchestration
  import opened OrchestrationTheorems
  import Sorting

  /** No unit runs after its result was saved. */
  ghost predicate NoneAgain(log: seq<Entry>) {
    forall i, j :: 0 <= i < j < |log| && log[i].Kept? && log[j].Ran? ==> log[i].id != log[j].id
  }

  ghost predicate NoneKept(log: seq<Entry>) {
    forall i :: 0 <= i < |log| ==> !log[i].Kept?
  }

  predicate InPlan(units: seq<WorkUnit>, u: UnitId) {
    exists i :: 0 <= i < |units| && units[i].id == u
  }

  /** Of these units, those that were saved are in the store. */
  ghost predicate AllStored(units: seq<WorkUnit>, completed: map<UnitId, Value>, log: seq<Entry>) {
    forall i :: 0 <= i < |log| && log[i].Kept? && InPlan(units, log[i].id) ==> log[i].id in completed
  }

  /** The entry saved a unit of these, and the unit is not in the store. */
  predicate Missing(units: seq<WorkUnit>, completed: map<UnitId, Value>, e: Entry) {
    e.Kept? && InPlan(units, e.id) && e.id !in completed
  }

  /** There is a checkpoint, and a unit of its plan that was saved is not in it. */
  ghost predicate AtRisk(reg: Registry, plan: Planner, s: State) {
    s.stored.row.Some? && !AllStored(plan(s.stored.row.value.binding), CompletedOf(reg, s.stored), s.log)
  }

  /** Checkpoints are purged only while no run is in progress. */
  ghost predicate QuietFrom(reg: Registry, plan: Planner, s: State, more: seq<Event>) {
    forall i :: 0 <= i < |more| && more[i].Purge? ==> !InProgress(Run(reg, plan, s, more[..i]).stage)
  }

  ghost predicate PurgeFree(more: seq<Event>) {
    forall i :: 0 <= i < |more| ==> !more[i].Purge?
  }

  // ----- what keeps saved units from running --------------------------------------------------------

  ghost predicate TodoCalm(plan: Planner, stage: Stage, s: Stored, log: seq<Entry>) {
    (stage.Looping? || stage.Holding?) ==>
      && (s.row.Some? ==> s.row.value.binding == stage.binding)
      && forall i :: 0 <= i < |stage.todo| ==>
           InPlan(plan(stage.binding), stage.todo[i].id)
           && (stage.todo[i].id !in stage.completed ==> NotKept(log, stage.todo[i].id))
  }

  ghost predicate StoreCalm(reg: Registry, plan: Planner, s: Stored, progress: bool, log: seq<Entry>) {
    if s.row == None then (s.expired && !progress) || NoneKept(log)
    else AllStored(plan(s.row.value.binding), CompletedOf(reg, s), log)
  }

  ghost predicate Calm(reg: Registry, plan: Planner, s: State) {
    NoneAgain(s.log) && StoreCalm(reg, plan, s.stored, InProgress(s.stage), s.log) && TodoCalm(plan, s.stage, s.stored, s.log)
  }

  lemma LoadBinding(reg: Registry, s: Stored, b: Binding, late: bool)
    ensures Loaded(reg, s, b, late).Ok? ==> s.row.Some? && s.row.value.binding == b
  {
  }

  lemma SaveBinding(reg: Registry, s: Stored, b: Binding, u: Option<UnitId>, execution: Option<Value>, unknown: Option<Value>)
    ensures var saved := Saved(reg, s, b, u, execution, unknown);
      saved.Ok? ==> saved.value.row.Some? && saved.value.row.value.binding == b && (s.row.Some? ==> s.row.value.binding == b)
  {
  }

  lemma RankedInPlan(units: seq<WorkUnit>)
    ensures forall i :: 0 <= i < |InRankOrder(units)| ==> InPlan(units, InRankOrder(units)[i].id)
    ensures forall u :: InPlan(units, u) ==> InPlan(InRankOrder(units), u)
  {
    hide InRankOrder;
    SortedUnits(units);
    forall i | 0 <= i < |InRankOrder(units)| ensures InPlan(units, InRankOrder(units)[i].id) {
      assert InRankOrder(units)[i] in units;
    }
    forall u | InPlan(units, u) ensures InPlan(InRankOrder(units), u) {
      var i :| 0 <= i < |units| && units[i].id == u;
      assert units[i] in InRankOrder(units);
    }
  }

  lemma BeginKeepsCalm(reg: Registry, plan: Planner, s: State, b: Binding, resume: bool, late: bool, available: bool)
    requires Inv(reg, plan, s) && Calm(reg, plan, s) && !InProgress(s.stage)
    ensures Calm(reg, plan, Begin(reg, plan, s, b, resume, late, available))
  {
    hide StoreOk, StageOk, CompletedOf, Saved, Loaded, InRankOrder, NoneAgain, InPlan;
    LoadEffect(reg, s.stored, b, late, s.log);
    LoadBinding(reg, s.stored, b, late);
    SaveBinding(reg, s.stored, b, None, None, None);
    RankedInPlan(plan(b));
    BeginKeeps(reg, plan, s, b, resume, late, available);
  }

  lemma SaveKeepsCalm(reg: Registry, plan: Planner, s: State, available: bool)
    requires Inv(reg, plan, s) && Calm(reg, plan, s) && s.stage.Holding? && DistinctUnits(InRankOrder(plan(s.stage.binding)))
    ensures Calm(reg, plan, SaveHeld(reg, s, available))
  {
    hide StoreOk, CompletedOf, Saved, InRankOrder, InPlan, Passed, AllRan, RoundTrips;
    var h, s' := s.stage, SaveHeld(reg, s, available);
    var u, execution, unknown := Some(h.todo[0].id), if h.unknown then None else Some(h.value), if h.unknown then Some(h.value) else None;
    SaveBinding(reg, s.stored, h.binding, u, execution, unknown);
    SaveKeeps(reg, plan, s, available);
    HeldIndex(InRankOrder(plan(h.binding)), h.results, s.log);
    OthersDiffer(InRankOrder(plan(h.binding)), |h.results|);
    assert forall i :: 0 <= i < |h.todo[1..]| ==> h.todo[1..][i] == h.todo[i + 1];
    assert forall i :: 0 <= i < |s.log| ==> s'.log[i] == s.log[i];
  }

  lemma OthersDiffer(units: seq<WorkUnit>, n: nat)
    requires DistinctUnits(units) && n < |units|
    ensures forall i :: 0 < i < |units[n..]| ==> units[n..][i].id != units[n..][0].id
  {
  }

  lemma ExecuteKeepsCalm(reg: Registry, plan: Planner, s: State, value: Value, unknown: bool)
    requires Calm(reg, plan, s)
    ensures Calm(reg, plan, Step(reg, plan, s, Execute(value, unknown)))
  {
    hide CompletedOf, InRankOrder, InPlan;
    var s' := Step(reg, plan, s, Execute(value, unknown));
    if s' != s {
      assert NotKept(s.log, s.stage.todo[0].id);
      assert s'.log[|s.log|].Ran? && forall i :: 0 <= i < |s.log| ==> s'.log[i] == s.log[i];
      forall u | NotKept(s.log, u) ensures NotKept(s'.log, u) {
      }
    }
  }

  lemma StepKeepsCalm(reg: Registry, plan: Planner, s: State, e: Event)
    requires Inv(reg, plan, s) && Calm(reg, plan, s) && DistinctPlans(plan)
    requires e.Purge? ==> !InProgress(s.stage)
    ensures Calm(reg, plan, Step(reg, plan, s, e))
  {
    hide Inv, InRankOrder, Begin, SaveHeld, NoneAgain, DistinctUnits, CompletedOf, InPlan;
    match e
    case Start(b, resume, late, available) =>
      if !InProgress(s.stage) { BeginKeepsCalm(reg, plan, s, b, resume, late, available); }
    case Save(available) =>
      if s.stage.Holding? && s.stage.todo != [] { SaveKeepsCalm(reg, plan, s, available); }
    case Execute(value, unknown) => ExecuteKeepsCalm(reg, plan, s, value, unknown);
    case _ => PlainKeepsCalm(reg, plan, s, e);
  }

  lemma PlainKeepsCalm(reg: Registry, plan: Planner, s: State, e: Event)
    requires Calm(reg, plan, s) && (e.Reuse? || e.Stop? || e.Finish? || e.Crash? || (e.Purge? && !InProgress(s.stage)))
    ensures Calm(reg, plan, Step(reg, plan, s, e))
  {
    hide CompletedOf, InRankOrder, NoneAgain, InPlan, NotKept, NoneKept, AllStored;
  }

  lemma {:induction false} RunKeepsCalm(reg: Registry, plan: Planner, s: State, more: seq<Event>)
    requires Inv(reg, plan, s) && Calm(reg, plan, s) && DistinctPlans(plan)
    requires Serializable(reg, more) && QuietFrom(reg, plan, s, more)
    ensures Inv(reg, plan, Run(reg, plan, s, more)) && Calm(reg, plan, Run(reg, plan, s, more))
  {
    hide Inv, Step, EventOk, Calm, DistinctPlans;
    if more != [] {
      var init := more[..|more| - 1];
      assert forall i :: 0 <= i < |init| ==> init[..i] == more[..i];
      RunKeepsCalm(reg, plan, s, init);
      StepKeeps(reg, plan, Run(reg, plan, s, init), more[|more| - 1]);
      StepKeepsCalm(reg, plan, Run(reg, plan, s, init), more[|more| - 1]);
    }
  }

  // ----- every run ------------------------------------------------------------------------------------

  /** Without a row, and none purged, nothing was ever saved. */
  ghost predicate Traced(s: State) {
    s.stored.row == None && !s.stored.expired ==> NoneKept(s.log)
  }

  lemma StepTraced(reg: Registry, plan: Planner, s: State, e: Event)
    requires Traced(s)
    ensures Traced(Step(reg, plan, s, e))
  {
    hide Saved, Loaded, InRankOrder;
    if e.Start? { SavedKeepsExpired(reg, s.stored, e.binding, None, None, None); }
    if e.Save? && s.stage.Holding? && s.stage.todo != [] {
      var h := s.stage;
      SavedKeepsExpired(reg, s.stored, h.binding, Some(h.todo[0].id),
                        if h.unknown then None else Some(h.value), if h.unknown then Some(h.value) else None);
    }
  }

  lemma SavedKeepsExpired(reg: Registry, s: Stored, b: Binding, u: Option<UnitId>, execution: Option<Value>, unknown: Option<Value>)
    ensures var saved := Saved(reg, s, b, u, execution, unknown); saved.Ok? ==> saved.value.row.Some?
  {
  }

  lemma {:induction false} RunTraced(reg: Registry, plan: Planner, events: seq<Event>)
    ensures Traced(Run(reg, plan, Fresh, events))
  {
    hide Step;
    if events != [] {
      RunTraced(reg, plan, events[..|events| - 1]);
      StepTraced(reg, plan, Run(reg, plan, Fresh, events[..|events| - 1]), events[|events| - 1]);
    }
  }

  lemma {:induction false} RunBoth(reg: Registry, plan: Planner, s: State, before: seq<Event>, after: seq<Event>)
    ensures Run(reg, plan, s, before + after) == Run(reg, plan, Run(reg, plan, s, before), after)
  {
    hide Step;
    if after == [] {
      assert before + after == before;
    } else {
      RunBoth(reg, plan, s, before, after[..|after| - 1]);
      assert (before + after)[..|before + after| - 1] == before + after[..|after| - 1];
    }
  }

  /** A state between runs that is not at risk is calm. */
  lemma NoRiskIsCalm(reg: Registry, plan: Planner, s: State)
    requires !InProgress(s.stage) && NoneAgain(s.log) && Traced(s) && !AtRisk(reg, plan, s)
    ensures Calm(reg, plan, s)
  {
    hide CompletedOf, InPlan, NoneAgain;
  }

  /** Between runs, if no unit of the plan that was saved is missing from the checkpoint, no
      saved unit is ever executed again, however often the run is interrupted and resumed,
      unless a checkpoint is purged during a run after that. */
  lemma SafeFromHere(reg: Registry, plan: Planner, events: seq<Event>, more: seq<Event>)
    requires Serializable(reg, events) && Serializable(reg, more) && DistinctPlans(plan)
    requires var s := Run(reg, plan, Fresh, events);
      !InProgress(s.stage) && NoneAgain(s.log) && !AtRisk(reg, plan, s) && QuietFrom(reg, plan, s, more)
    ensures NoneAgain(Run(reg, plan, Fresh, events + more).log)
  {
    hide Run, AtRisk, NoneAgain, Inv, Traced, StoreCalm, TodoCalm;
    RunInv(reg, plan, events);
    RunTraced(reg, plan, events);
    NoRiskIsCalm(reg, plan, Run(reg, plan, Fresh, events));
    RunKeepsCalm(reg, plan, Run(reg, plan, Fresh, events), more);
    RunBoth(reg, plan, Fresh, events, more);
  }

  /** A unit whose result was saved is never executed again, however often the run is
      interrupted and resumed, if no checkpoint is purged during a run. */
  lemma SavedUnitsNeverRunAgain(reg: Registry, plan: Planner, events: seq<Event>)
    requires Serializable(reg, events) && Quiet(reg, plan, events) && DistinctPlans(plan)
    ensures NoneAgain(Run(reg, plan, Fresh, events).log)
  {
    hide Step, DistinctPlans;
    var none: seq<Event> := [];
    assert Run(reg, plan, Fresh, none) == Fresh && none + events == events;
    SafeFromHere(reg, plan, none, events);
  }

  // ----- a unit at risk can be executed again ---------------------------------------------------------

  const Done := Execute(Plain(Null), false)

  ghost predicate Harmless(reg: Registry, more: seq<Event>) {
    PurgeFree(more) && Serializable(reg, more)
  }

  lemma HarmlessBoth(reg: Registry, a: seq<Event>, b: seq<Event>)
    requires Harmless(reg, a) && Harmless(reg, b)
    ensures Harmless(reg, a + b)
  {
    hide EventOk;
  }

  /** From here unit `todo[k]`, which is not loaded, can be reached and executed; the log
      only grows. */
  lemma {:induction false} ReachUnit(reg: Registry, plan: Planner, s: State, k: nat) returns (more: seq<Event>)
    requires s.stage.Looping? && k < |s.stage.todo| && s.stage.todo[k].id !in s.stage.completed
    ensures Harmless(reg, more)
    ensures var log := Run(reg, plan, s, more).log;
      |s.log| < |log| && s.log == log[..|s.log|] && log[|log| - 1] == Ran(s.stage.todo[k].id, Plain(Null))
    decreases k
  {
    hide Step, Run, Harmless, EventOk;
    var first := if s.stage.todo[0].id in s.stage.completed then [Reuse] else if k == 0 then [Done] else [Done, Save(false)];
    FirstStep(reg, plan, s, k, first);
    if k == 0 {
      more := first;
    } else {
      var s' := Run(reg, plan, s, first);
      var rest := ReachUnit(reg, plan, s', k - 1);
      more := first + rest;
      RunBoth(reg, plan, s, first, rest);
      HarmlessBoth(reg, first, rest);
    }
  }

  lemma FirstStep(reg: Registry, plan: Planner, s: State, k: nat, first: seq<Event>)
    requires s.stage.Looping? && k < |s.stage.todo| && s.stage.todo[k].id !in s.stage.completed
    requires first == if s.stage.todo[0].id in s.stage.completed then [Reuse] else if k == 0 then [Done] else [Done, Save(false)]
    ensures Harmless(reg, first)
    ensures var s' := Run(reg, plan, s, first); var h := s.stage;
      && |s.log| <= |s'.log| && s'.log[..|s.log|] == s.log
      && (k == 0 ==> s'.log == s.log + [Ran(h.todo[0].id, Plain(Null))])
      && (k > 0 ==> s'.stage.Looping? && s'.stage.todo == h.todo[1..] && s'.stage.completed == h.completed)
  {
    hide Saved, Loaded, InRankOrder, RoundTrips;
    PlainRoundTrips(reg, Null);
    assert [Done, Save(false)][..1] == [Done] && [Done][..0] == [] && [Reuse][..0] == [];
    assert Run(reg, plan, s, []) == s && Run(reg, plan, s, [Done]) == Step(reg, plan, s, Done);
  }

  lemma ResumeLoads(reg: Registry, plan: Planner, s: State) returns (s': State)
    requires Inv(reg, plan, s) && !InProgress(s.stage) && s.stored.row.Some?
    ensures var b := s.stored.row.value.binding;
      && s' == Run(reg, plan, s, [Start(b, true, false, true)]) && s'.log == s.log
      && s'.stage == Looping(b, InRankOrder(plan(b)), CompletedOf(reg, s.stored), [], false)
  {
    hide StageOk, InRankOrder, Loaded, RowHolds, Saved, CompletedOf, UnknownOf;
    var b := s.stored.row.value.binding;
    SaveAdds(reg, s.stored, b, CompletedOf(reg, s.stored), UnknownOf(reg, s.stored), None, None, None);
    var e := Start(b, true, false, true);
    s' := Step(reg, plan, s, e);
    assert [e][..0] == [] && Run(reg, plan, s, []) == s;
  }

  /** Resuming a run at risk can execute a saved unit again. */
  lemma RiskRunsAgain(reg: Registry, plan: Planner, s: State) returns (more: seq<Event>)
    requires Inv(reg, plan, s) && !InProgress(s.stage) && AtRisk(reg, plan, s)
    ensures Harmless(reg, more) && !NoneAgain(Run(reg, plan, s, more).log)
  {
    hide Inv, Run, InRankOrder, CompletedOf, Harmless, InPlan;
    var b := s.stored.row.value.binding;
    var i :| 0 <= i < |s.log| && s.log[i].Kept? && InPlan(plan(b), s.log[i].id) && s.log[i].id !in CompletedOf(reg, s.stored);
    var s' := ResumeLoads(reg, plan, s);
    RankedInPlan(plan(b));
    var k := PlaceOf(InRankOrder(plan(b)), s.log[i].id);
    var rest := ReachUnit(reg, plan, s', k);
    var start := [Start(b, true, false, true)];
    more := start + rest;
    RunBoth(reg, plan, s, start, rest);
    StartHarmless(reg, b);
    HarmlessBoth(reg, start, rest);
    var log := Run(reg, plan, s, more).log;
    assert log[i] == s.log[i] && log[|log| - 1].id == s.log[i].id;
  }

  lemma PlaceOf(units: seq<WorkUnit>, u: UnitId) returns (k: nat)
    requires InPlan(units, u)
    ensures k < |units| && units[k].id == u
  {
    k :| 0 <= k < |units| && units[k].id == u;
  }

  lemma StartHarmless(reg: Registry, b: Binding)
    ensures Harmless(reg, [Start(b, true, false, true)])
  {
  }

  ghost predicate RunsAgainBy(reg: Registry, plan: Planner, events: seq<Event>, more: seq<Event>) {
    PurgeFree(more) && Serializable(reg, more) && !NoneAgain(Run(reg, plan, Fresh, events + more).log)
  }

  /** Between runs, after any history, purges during runs included, in which no saved unit
      ran again: some continuation without a purge executes a saved unit again exactly if
      there is a checkpoint and a unit of its plan that was saved is not in it. */
  lemma RunsAgainIff(reg: Registry, plan: Planner, events: seq<Event>)
    requires Serializable(reg, events) && DistinctPlans(plan)
    requires var s := Run(reg, plan, Fresh, events); !InProgress(s.stage) && NoneAgain(s.log)
    ensures var s := Run(reg, plan, Fresh, events);
      (exists more :: RunsAgainBy(reg, plan, events, more)) <==>
      s.stored.row.Some? && var units := plan(s.stored.row.value.binding);
      exists i :: 0 <= i < |s.log| && Missing(units, CompletedOf(reg, s.stored), s.log[i])
  {
    hide Run, Inv, NoneAgain, CompletedOf, InPlan, EventOk;
    var s := Run(reg, plan, Fresh, events);
    if AtRisk(reg, plan, s) {
      RunInv(reg, plan, events);
      var more := RiskRunsAgain(reg, plan, s);
      RunBoth(reg, plan, Fresh, events, more);
      assert RunsAgainBy(reg, plan, events, more);
      var i :| 0 <= i < |s.log| && s.log[i].Kept? && InPlan(plan(s.stored.row.value.binding), s.log[i].id)
               && s.log[i].id !in CompletedOf(reg, s.stored);
      assert Missing(plan(s.stored.row.value.binding), CompletedOf(reg, s.stored), s.log[i]);
    } else {
      forall more ensures !RunsAgainBy(reg, plan, events, more) {
        if PurgeFree(more) && Serializable(reg, more) { SafeFromHere(reg, plan, events, more); }
      }
    }
  }

  // ----- a purge during a run ------------------------------------------------------------------------

  const TwoUnits: Planner := (b: Binding) => [WorkUnit(1, 0), WorkUnit(2, 1)]

  const SomeBinding := Binding(7, 8)

  /** Unit 1 is saved, the row is purged, unit 2 is saved into a new row, and the run dies;
      the next run finds unit 2 only. */
  const PurgedRun: seq<Event> :=
    [Start(SomeBinding, false, false, false), Done, Save(true), Purge, Done, Save(true), Crash,
     Start(SomeBinding, true, false, true), Done]

  lemma TwoInOrder()
    ensures InRankOrder(TwoUnits(SomeBinding)) == [WorkUnit(1, 0), WorkUnit(2, 1)]
  {
    var units := [WorkUnit(1, 0), WorkUnit(2, 1)];
    assert Sorting.Ordered(units, RankOf);
    Sorting.OrderedStays(units, RankOf);
  }

  /** What saving and loading do to the row in this run. */
  lemma SavesNull(s: Stored, u: UnitId, log: seq<Entry>)
    requires s.row == None && Ran(u, Plain(Null)) in log
    ensures var saved := Saved(map[], s, SomeBinding, Some(u), Some(Plain(Null)), None);
      && saved.Ok? && saved.value.row.Some?
      && Loaded(map[], saved.value, SomeBinding, false) == Ok(map[u := Plain(Null)])
  {
    hide CompletedOf, UnknownOf, RowHolds, Saved, Loaded;
    PlainRoundTrips(map[], Null);
    NothingHeld(map[], s);
    SaveAdds(map[], s, SomeBinding, map[], map[], Some(u), Some(Plain(Null)), None);
    var saved := Saved(map[], s, SomeBinding, Some(u), Some(Plain(Null)), None).value;
    assert Put(map[], Some(u), Some(Plain(Null))) == map[u := Plain(Null)];
    SaveAdds(map[], saved, SomeBinding, map[u := Plain(Null)], map[], None, None, None);
  }

  lemma NothingHeld(reg: Registry, s: Stored)
    requires s.row == None
    ensures RowHolds(reg, s, map[], map[])
  {
  }

  /** The run up to the crash. */
  lemma FirstPass() returns (stored: Stored)
    ensures var units := [WorkUnit(1, 0), WorkUnit(2, 1)];
      var s := Step(map[], TwoUnits, Fresh, Start(SomeBinding, false, false, false));
      var s := Step(map[], TwoUnits, Step(map[], TwoUnits, s, Done), Save(true));
      var s := Step(map[], TwoUnits, s, Purge);
      var s := Step(map[], TwoUnits, Step(map[], TwoUnits, s, Done), Save(true));
      && s.log == [Ran(1, Plain(Null)), Kept(1, Plain(Null)), Ran(2, Plain(Null)), Kept(2, Plain(Null))]
      && s.stored == stored
    ensures Loaded(map[], stored, SomeBinding, false) == Ok(map[2 := Plain(Null)])
  {
    hide Saved, Loaded, InRankOrder;
    TwoInOrder();
    LoadEffectFresh();
    var units := [WorkUnit(1, 0), WorkUnit(2, 1)];
    var ran := [Ran(1, Plain(Null))];
    SavesNull(Fresh.stored, 1, ran);
    var s1 := Step(map[], TwoUnits, Fresh, Start(SomeBinding, false, false, false));
    assert s1 == State(Fresh.stored, Looping(SomeBinding, units, map[], [], true), []);
    var s3 := Step(map[], TwoUnits, Step(map[], TwoUnits, s1, Done), Save(true));
    assert s3.stage == Looping(SomeBinding, units[1..], map[], [Plain(Null)], true);
    assert s3.log == [Ran(1, Plain(Null)), Kept(1, Plain(Null))];
    var purged := Stored(None, true);
    var s4 := Step(map[], TwoUnits, s3, Purge);
    assert s4.stored == purged;
    SavesNull(purged, 2, [Ran(2, Plain(Null))]);
    var s6 := Step(map[], TwoUnits, Step(map[], TwoUnits, s4, Done), Save(true));
    stored := s6.stored;
  }

  lemma LoadEffectFresh()
    ensures Loaded(map[], Fresh.stored, SomeBinding, false) == Err(NotFound)
  {
  }

  lemma RunLast(reg: Registry, plan: Planner, s: State, events: seq<Event>)
    requires events != []
    ensures Run(reg, plan, s, events) == Step(reg, plan, Run(reg, plan, s, events[..|events| - 1]), events[|events| - 1])
  {
  }

  /** When the checkpoint is purged during a run, a saved unit can be executed again. */
  lemma PurgedUnitsRunAgain()
    ensures !NoneAgain(Run(map[], TwoUnits, Fresh, PurgedRun).log)
  {
    hide Saved, Loaded, InRankOrder, Run;
    var stored := FirstPass();
    TwoInOrder();
    Unroll();
    var log := Run(map[], TwoUnits, Fresh, PurgedRun).log;
    assert log[1] == Kept(1, Plain(Null)) && log[4] == Ran(1, Plain(Null));
  }

  lemma Unroll()
    ensures var s := Step(map[], TwoUnits, Fresh, Start(SomeBinding, false, false, false));
      var s := Step(map[], TwoUnits, Step(map[], TwoUnits, s, Done), Save(true));
      var s := Step(map[], TwoUnits, s, Purge);
      var s := Step(map[], TwoUnits, Step(map[], TwoUnits, s, Done), Save(true));
      var s := Step(map[], TwoUnits, Step(map[], TwoUnits, s, Crash), Start(SomeBinding, true, false, true));
      Run(map[], TwoUnits, Fresh, PurgedRun) == Step(map[], TwoUnits, s, Done)
  {
    hide Step, Run;
    var e := PurgedRun;
    var init: seq<Event> := [];
    assert Run(map[], TwoUnits, Fresh, init) == Fresh by { RunEmpty(map[], TwoUnits, Fresh); }
    forall n: nat | n < |e| ensures Run(map[], TwoUnits, Fresh, e[..n + 1]) == Step(map[], TwoUnits, Run(map[], TwoUnits, Fresh, e[..n]), e[n]) {
      RunLast(map[], TwoUnits, Fresh, e[..n + 1]);
      assert e[..n + 1][..n] == e[..n] && e[..n + 1][n] == e[n];
    }
    assert e[..0] == init && e[..|e|] == e;
    assert Run(map[], TwoUnits, Fresh, e[..0 + 1]) == Step(map[], TwoUnits, Fresh, e[0]);
    assert Run(map[], TwoUnits, Fresh, e[..1 + 1]) == Step(map[], TwoUnits, Run(map[], TwoUnits, Fresh, e[..1]), Done);
    assert Run(map[], TwoUnits, Fresh, e[..2 + 1]) == Step(map[], TwoUnits, Run(map[], TwoUnits, Fresh, e[..2]), Save(true));
    assert Run(map[], TwoUnits, Fresh, e[..3 + 1]) == Step(map[], TwoUnits, Run(map[], TwoUnits, Fresh, e[..3]), Purge);
    assert Run(map[], TwoUnits, Fresh, e[..4 + 1]) == Step(map[], TwoUnits, Run(map[], TwoUnits, Fresh, e[..4]), Done);
    assert Run(map[], TwoUnits, Fresh, e[..5 + 1]) == Step(map[], TwoUnits, Run(map[], TwoUnits, Fresh, e[..5]), Save(true));
    assert Run(map[], TwoUnits, Fresh, e[..6 + 1]) == Step(map[], TwoUnits, Run(map[], TwoUnits, Fresh, e[..6]), Crash);
    assert Run(map[], TwoUnits, Fresh, e[..7 + 1]) ==
      Step(map[], TwoUnits, Run(map[], TwoUnits, Fresh, e[..7]), Start(SomeBinding, true, false, true));
    assert Run(map[], TwoUnits, Fresh, e[..8 + 1]) == Step(map[], TwoUnits, Run(map[], TwoUnits, Fresh, e[..8]), Done);
  }

  lemma RunEmpty(reg: Registry, plan: Planner, s: State)
    ensures Run(reg, plan, s, []) == s
  {
  }
}
