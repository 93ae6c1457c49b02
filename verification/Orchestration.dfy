/** The review run as a transition system: a run loads the checkpoint, passes over the units
    in rank order, saves each result, and may die at any point. */
module Orchestration {
  import opened Wrappers
  import opened CheckpointCodec
  import opened Checkpoints
  import opened Sorting

  datatype WorkUnit = WorkUnit(id: UnitId, rank: nat)

  /** The plan is determined by what a checkpoint is bound to. */
  type Planner = Binding -> seq<WorkUnit>

  const RankOf: WorkUnit -> int := (u: WorkUnit) => u.rank

  function InRankOrder(units: seq<WorkUnit>): seq<WorkUnit> {
    SortBy(units, RankOf)
  }

  datatype Stage =
    | Down
    | Looping(binding: Binding, todo: seq<WorkUnit>, completed: map<UnitId, Value>, results: seq<Value>, failed: bool)
    | Holding(binding: Binding, todo: seq<WorkUnit>, completed: map<UnitId, Value>, results: seq<Value>, failed: bool,
              value: Value, unknown: bool)
    | Finished(binding: Binding, results: seq<Value>, failed: bool, unknown: bool, stopped: bool)

  /** What happened, in order: a unit was executed with this result, or that result was
      saved as completed. */
  datatype Entry = Ran(id: UnitId, value: Value) | Kept(id: UnitId, value: Value)

  datatype State = State(stored: Stored, stage: Stage, log: seq<Entry>)

  datatype Event =
    | Start(binding: Binding, resume: bool, late: bool, available: bool)
    | Reuse
    | Stop
    | Execute(value: Value, unknown: bool)
    | Save(available: bool)
    | Finish
    | Crash
    | Purge

  function InProgress(stage: Stage): bool { stage.Looping? || stage.Holding? }

  function Begin(reg: Registry, plan: Planner, s: State, b: Binding, resume: bool, late: bool, available: bool): State {
    var loaded := Loaded(reg, s.stored, b, late);
    var units := InRankOrder(plan(b));
    if loaded.Ok? then s.(stage := Looping(b, units, loaded.value, [], false))
    else if loaded.error != NotFound || resume then s.(stage := Down)
    else
      var saved := Saved(reg, s.stored, b, None, None, None);
      if available && saved.Ok? then s.(stored := saved.value, stage := Looping(b, units, map[], [], false))
      else s.(stage := Looping(b, units, map[], [], true))
  }

  function SaveHeld(reg: Registry, s: State, available: bool): State
    requires s.stage.Holding? && s.stage.todo != []
  {
    var h := s.stage;
    var u := h.todo[0].id;
    var saved := Saved(reg, s.stored, h.binding, Some(u),
                       if h.unknown then None else Some(h.value), if h.unknown then Some(h.value) else None);
    var ok := available && saved.Ok?;
    var results, failed := h.results + [h.value], h.failed || !ok;
    State(if ok then saved.value else s.stored,
          if h.unknown then Finished(h.binding, results, failed, true, false)
          else Looping(h.binding, h.todo[1..], h.completed, results, failed),
          if ok && !h.unknown then s.log + [Kept(u, h.value)] else s.log)
  }

  /** What an event does; one that is not possible does nothing. */
  function Step(reg: Registry, plan: Planner, s: State, e: Event): State {
    var stage := s.stage;
    match e
    case Start(b, resume, late, available) =>
      if InProgress(stage) then s else Begin(reg, plan, s, b, resume, late, available)
    case Reuse =>
      if stage.Looping? && stage.todo != [] && stage.todo[0].id in stage.completed
      then s.(stage := Looping(stage.binding, stage.todo[1..], stage.completed,
                               stage.results + [stage.completed[stage.todo[0].id]], stage.failed))
      else s
    case Stop =>
      if stage.Looping? && stage.todo != [] && stage.todo[0].id !in stage.completed
      then s.(stage := Finished(stage.binding, stage.results, stage.failed, false, true))
      else s
    case Execute(value, unknown) =>
      if stage.Looping? && stage.todo != [] && stage.todo[0].id !in stage.completed
      then s.(stage := Holding(stage.binding, stage.todo, stage.completed, stage.results, stage.failed, value, unknown),
              log := s.log + [Ran(stage.todo[0].id, value)])
      else s
    case Save(available) =>
      if stage.Holding? && stage.todo != [] then SaveHeld(reg, s, available) else s
    case Finish =>
      if stage.Looping? && stage.todo == []
      then s.(stage := Finished(stage.binding, stage.results, stage.failed, false, false))
      else s
    case Crash => s.(stage := Down)
    case Purge => if s.stored.row.Some? then s.(stored := Stored(None, true)) else s
  }

  function Run(reg: Registry, plan: Planner, s: State, events: seq<Event>): State {
    if events == [] then s
    else Step(reg, plan, Run(reg, plan, s, events[..|events| - 1]), events[|events| - 1])
  }

  const Fresh := State(Stored(None, false), Down, [])

  // ----- the phases of a session --------------------------------------------------------------------

  datatype Phase =
    | SessionAcquired | InputNormalizing | Planning | Executing | Consolidating | Snapshotting | Reporting | Completed

  function IndexOf(p: Phase): nat {
    match p
    case SessionAcquired => 0 case InputNormalizing => 1 case Planning => 2 case Executing => 3
    case Consolidating => 4 case Snapshotting => 5 case Reporting => 6 case Completed => 7
  }

  datatype TraceEvent = TraceEvent(number: nat, phase: Phase)

  /** The trace of a session that went through all phases up to this one. */
  function TraceUpTo(p: nat): seq<TraceEvent> {
    if p == 0 || p > 7 then [] else TraceUpTo(p - 1) + [TraceEvent(p, PhaseAt(p))]
  }

  function PhaseAt(i: nat): (p: Phase)
    requires i <= 7
    ensures IndexOf(p) == i
  {
    match i
    case 0 => SessionAcquired case 1 => InputNormalizing case 2 => Planning case 3 => Executing
    case 4 => Consolidating case 5 => Snapshotting case 6 => Reporting case _ => Completed
  }

  class ExecutionSession {
    var phase: Phase
    var trace: seq<TraceEvent>

    /** The trace shows every phase passed, in order and numbered without gaps. */
    predicate Valid()
      reads this
    {
      trace == TraceUpTo(IndexOf(phase))
    }

    constructor ()
      ensures Valid() && phase == SessionAcquired
    {
      phase, trace := SessionAcquired, [];
    }

    /** Moves to the next phase and to no other. */
    method Advance(target: Phase) returns (ok: bool)
      requires Valid()
      modifies this
      ensures Valid()
      ensures ok <==> IndexOf(target) == old(IndexOf(phase)) + 1
      ensures ok <==>
        || (old(phase) == SessionAcquired && target == InputNormalizing)
        || (old(phase) == InputNormalizing && target == Planning)
        || (old(phase) == Planning && target == Executing)
        || (old(phase) == Executing && target == Consolidating)
        || (old(phase) == Consolidating && target == Snapshotting)
        || (old(phase) == Snapshotting && target == Reporting)
        || (old(phase) == Reporting && target == Completed)
      ensures phase == if ok then target else old(phase)
      ensures trace == if ok then old(trace) + [TraceEvent(|old(trace)| + 1, target)] else old(trace)
    {
      var current, index := IndexOf(phase), IndexOf(target);
      if index <= current { return false; }
      if index != current + 1 { return false; }
      PhaseOfIndex(target);
      phase := target;
      trace := trace + [TraceEvent(|trace| + 1, target)];
      TraceLength(current);
      return true;
    }
  }

  lemma {:induction false} TraceLength(p: nat)
    requires p <= 7
    ensures |TraceUpTo(p)| == p
  {
    if p > 0 { TraceLength(p - 1); }
  }

  lemma PhaseOfIndex(p: Phase)
    ensures PhaseAt(IndexOf(p)) == p
  {
  }

  // ----- one run of the orchestrator ----------------------------------------------------------------

  /** What the world does at a unit that is not in the checkpoint: whether a stop is asked
      for, else whether executing it raises, else its result, and whether the database is
      there to save it. */
  datatype Answer = Answer(stop: bool, raises: bool, value: Value, unknown: bool, available: bool)

  /** The other steps that may raise. */
  datatype Fault = AtNormalize | AtPlan | AtConsolidate | AtSnapshot | AtReport | AtDeliver

  datatype RunError = CheckpointError(error: StoreError) | StepRaised

  /** The phase of a session in which the step raises. */
  function PhaseOf(fault: Fault): Phase {
    match fault
    case AtNormalize => SessionAcquired
    case AtPlan => InputNormalizing
    case AtConsolidate => Consolidating
    case AtSnapshot => Snapshotting
    case AtReport => Snapshotting
    case AtDeliver => Reporting
  }

  datatype Limitation = CheckpointPersistenceFailed | UnknownExecution | StopRequested

  datatype ResultState = Partial | Unknown | AsSnapshot

  /** What is passed on to consolidation, and the state and limitation reported. */
  datatype RunResult = RunResult(results: seq<Value>, state: ResultState, limitation: Option<Limitation>)

  function Outcome(stage: Stage): RunResult
    requires stage.Finished?
  {
    RunResult(stage.results, if stage.failed then Partial else if stage.unknown then Unknown else AsSnapshot,
              if stage.failed then Some(CheckpointPersistenceFailed)
              else if stage.unknown then Some(UnknownExecution)
              else if stage.stopped then Some(StopRequested) else None)
  }

  // ----- what a run does with the answers it is given --------------------------------------------------

  /** The unit is executed: it is not in the checkpoint and nobody asks to stop at it. */
  predicate Executes(u: UnitId, held: map<UnitId, Value>, answers: map<UnitId, Answer>)
    requires u in answers
  {
    u !in held && !answers[u].stop && !answers[u].raises
  }

  ghost predicate AllAnswered(units: seq<WorkUnit>, answers: map<UnitId, Answer>) {
    forall i :: 0 <= i < |units| ==> units[i].id in answers
  }

  /** The loop gets past the first `n` units: each is in the checkpoint, or is executed with
      a known outcome. */
  ghost predicate GetsPast(units: seq<WorkUnit>, held: map<UnitId, Value>, answers: map<UnitId, Answer>, n: int)
    requires AllAnswered(units, answers)
  {
    n <= |units| && forall i :: 0 <= i < n ==> units[i].id in held || (Executes(units[i].id, held, answers) && !answers[units[i].id].unknown)
  }

  /** The results are those of the first units: what the checkpoint has, else the answer. */
  ghost predicate Delivers(units: seq<WorkUnit>, held: map<UnitId, Value>, answers: map<UnitId, Answer>, results: seq<Value>)
    requires AllAnswered(units, answers)
  {
    && |results| <= |units|
    && forall i :: 0 <= i < |results| ==>
         results[i] == if units[i].id in held then held[units[i].id] else answers[units[i].id].value
  }

  /** The last of `n` units was executed, with an unknown outcome. */
  ghost predicate EndsUnknown(units: seq<WorkUnit>, held: map<UnitId, Value>, answers: map<UnitId, Answer>, n: int)
    requires AllAnswered(units, answers)
  {
    && 0 < n <= |units| && GetsPast(units, held, answers, n - 1)
    && Executes(units[n - 1].id, held, answers) && answers[units[n - 1].id].unknown
  }

  ghost predicate EndsStopped(units: seq<WorkUnit>, held: map<UnitId, Value>, answers: map<UnitId, Answer>, n: int)
    requires AllAnswered(units, answers)
  {
    && 0 <= n < |units| && GetsPast(units, held, answers, n)
    && units[n].id !in held && answers[units[n].id].stop
  }

  ghost predicate EndsRaised(units: seq<WorkUnit>, held: map<UnitId, Value>, answers: map<UnitId, Answer>, n: int)
    requires AllAnswered(units, answers)
  {
    && 0 <= n < |units| && GetsPast(units, held, answers, n)
    && units[n].id !in held && !answers[units[n].id].stop && answers[units[n].id].raises
  }

  /** One of the first `n` units was executed while the database was not there. */
  ghost predicate SaveMissed(units: seq<WorkUnit>, held: map<UnitId, Value>, answers: map<UnitId, Answer>, n: int)
    requires AllAnswered(units, answers)
  {
    exists i :: 0 <= i < n && i < |units| && units[i].id !in held && !answers[units[i].id].available
  }

  /** One of the first `n` units was executed, known, and the database was there. */
  ghost predicate SavedAmong(units: seq<WorkUnit>, held: map<UnitId, Value>, answers: map<UnitId, Answer>, n: int, u: UnitId)
    requires AllAnswered(units, answers)
  {
    u !in held && exists i :: 0 <= i < n && i < |units| && units[i].id == u && !answers[u].unknown && answers[u].available
  }

  /** What is stored as completed is what was, and these new results. */
  ghost predicate StoresResults(units: seq<WorkUnit>, held: map<UnitId, Value>, answers: map<UnitId, Answer>, n: int,
                                stored: map<UnitId, Value>)
    requires AllAnswered(units, answers)
  {
    && (forall u :: u in stored <==> u in held || SavedAmong(units, held, answers, n, u))
    && (forall u :: u in stored ==> stored[u] == if u in held then held[u] else if u in answers then answers[u].value else stored[u])
  }

  /** How a run ends, as its state and limitation tell: partial before unknown before stopped. */
  ghost predicate EndsAs(units: seq<WorkUnit>, held: map<UnitId, Value>, answers: map<UnitId, Answer>, n: nat,
                         state: ResultState, limitation: Option<Limitation>)
    requires AllAnswered(units, answers)
  {
    && (state == Partial <==> limitation == Some(CheckpointPersistenceFailed))
    && (state == Unknown <==> limitation == Some(UnknownExecution))
    && (state == Unknown ==> EndsUnknown(units, held, answers, n))
    && (limitation == Some(StopRequested) ==> EndsStopped(units, held, answers, n))
    && (limitation == None ==> n == |units| && GetsPast(units, held, answers, n))
    && (EndsUnknown(units, held, answers, n) || EndsStopped(units, held, answers, n)
        || (n == |units| && GetsPast(units, held, answers, n)))
  }

  ghost predicate Savable(reg: Registry, answers: map<UnitId, Answer>) {
    forall u :: u in answers ==> RoundTrips(reg, answers[u].value)
  }

  lemma RunOneMore(reg: Registry, plan: Planner, s: State, events: seq<Event>, e: Event)
    ensures Run(reg, plan, s, events + [e]) == Step(reg, plan, Run(reg, plan, s, events), e)
  {
    assert (events + [e])[..|events|] == events;
  }

  /** One run is one of the runs of the transition system: the events it goes through are
      returned with what it passes on. A step that raises is, to what is stored, a crash. */
  method RunReview(store: CheckpointStore, session: ExecutionSession, reg: Registry, plan: Planner, b: Binding,
                   resume: bool, late: bool, available: bool, answers: map<UnitId, Answer>, fault: Option<Fault>)
    returns (result: Result<RunResult, RunError>, ghost events: seq<Event>, ghost end: State)
    requires session.Valid() && session.phase == SessionAcquired
    requires forall u :: u in plan(b) ==> u.id in answers
    modifies store, session
    ensures end == Run(reg, plan, State(old(store.Contents()), Down, []), events) && end.stored == store.Contents()
    ensures result.Ok? ==> fault == None && end.stage.Finished? && result.value == Outcome(end.stage)
    ensures result.Err? ==> end.stage == Down
    ensures result != Err(StepRaised) ==> Uninterrupted(events)
    ensures session.Valid()
    ensures result.Ok? ==> session.phase == Completed
    ensures result.Err? && result.error.CheckpointError? ==> session.phase == InputNormalizing
    ensures result == Err(StepRaised) ==> session.phase == Executing || (fault.Some? && session.phase == PhaseOf(fault.value))
    ensures AllAnswered(InRankOrder(plan(b)), answers)
    ensures result.Ok? ==>
      var units, held := InRankOrder(plan(b)), CompletedOf(reg, old(store.Contents()));
      Delivers(units, held, answers, result.value.results)
      && EndsAs(units, held, answers, |result.value.results|, result.value.state, result.value.limitation)
    ensures result.Ok? ==>
      var units, held := InRankOrder(plan(b)), CompletedOf(reg, old(store.Contents()));
      (old(store.row) == None && !available) || SaveMissed(units, held, answers, |result.value.results|) ==>
        result.value.state == Partial
    ensures result.Ok? && Savable(reg, answers) && Sound(reg, old(store.Contents()), b) ==>
      var units, held := InRankOrder(plan(b)), CompletedOf(reg, old(store.Contents()));
      && (result.value.state == Partial ==>
            (old(store.row) == None && !available) || SaveMissed(units, held, answers, |result.value.results|))
      && StoresResults(units, held, answers, |result.value.results|, CompletedOf(reg, store.Contents()))
    ensures result == Err(StepRaised) && fault == None ==>
      exists n :: EndsRaised(InRankOrder(plan(b)), CompletedOf(reg, old(store.Contents())), answers, n)
    ensures fault != Some(AtNormalize) ==>
      && (result == Err(CheckpointError(NotFound)) <==> old(store.row) == None && !old(store.expired) && resume)
      && (result == Err(CheckpointError(BindingMismatch)) <==> old(store.row).Some? && old(store.row).value.binding != b)
      && (result == Err(CheckpointError(Corrupted)) <==>
            old(store.row).Some? && old(store.row).value.binding == b && !old(store.Readable(reg)))
      && (result == Err(CheckpointError(Expired)) <==>
            (old(store.row) == None && old(store.expired))
            || (old(store.row).Some? && old(store.row).value.binding == b && old(store.Readable(reg)) && late))
  {
    hide Saved, Loaded, InRankOrder, Run, Encode, Decode, TraceUpTo, Begin, SaveHeld, Uninterrupted, CompletedOf, Sound, Savable,
         Delivers, EndsUnknown, EndsStopped, EndsRaised, EndsAs, GetsPast, SaveMissed, StoresResults, CheckpointStore.Readable, Step;
    ghost var before := State(store.Contents(), Down, []);
    events, end := [], before;
    NoEvents(reg, plan, before);
    SortedUnits(plan(b));
    if fault == Some(AtNormalize) { return Err(StepRaised), events, end; }
    var _ := session.Advance(InputNormalizing);
    events, end := StartRecorded(reg, plan, before, events, b, resume, late, available);
    var opening := OpenCheckpoint(store, reg, plan, b, resume, late, available);
    if opening.Err? { return Err(CheckpointError(opening.error)), events, end; }
    var (completed, failed) := opening.value;
    if fault == Some(AtPlan) {
      events, end := Raise(reg, plan, before, events, end);
      return Err(StepRaised), events, end;
    }
    var _ := session.Advance(Planning);
    var _ := session.Advance(Executing);
    var units := InRankOrder(plan(b));
    var results, unknown, stopped, raised;
    results, failed, unknown, stopped, raised, events, end :=
      PassOverUnits(store, reg, plan, b, units, completed, failed, answers, before, events, end);
    if raised {
      events, end := Raise(reg, plan, before, events, end);
      return Err(StepRaised), events, end;
    }
    var done := Complete(session, fault);
    if !done {
      events, end := Raise(reg, plan, before, events, end);
      return Err(StepRaised), events, end;
    }
    EndedSo(units, completed, answers, |results|, failed, unknown, stopped);
    var limitation := None;
    if failed {
      limitation := Some(CheckpointPersistenceFailed);
    } else if unknown {
      limitation := Some(UnknownExecution);
    } else if stopped {
      limitation := Some(StopRequested);
    }
    result := Ok(RunResult(results, if failed then Partial else if unknown then Unknown else AsSnapshot, limitation));
  }

  /** Consolidation, snapshot, report and delivery, each of which may raise. */
  method Complete(session: ExecutionSession, fault: Option<Fault>) returns (done: bool)
    requires session.Valid() && session.phase == Executing && (fault.Some? ==> !fault.value.AtNormalize? && !fault.value.AtPlan?)
    modifies session
    ensures session.Valid() && done == fault.None?
    ensures session.phase == if done then Completed else PhaseOf(fault.value)
  {
    hide TraceUpTo;
    var _ := session.Advance(Consolidating);
    if fault.Some? && fault.value.AtConsolidate? { return false; }
    var _ := session.Advance(Snapshotting);
    if fault.Some? && (fault.value.AtSnapshot? || fault.value.AtReport?) { return false; }
    var _ := session.Advance(Reporting);
    if fault.Some? && fault.value.AtDeliver? { return false; }
    var _ := session.Advance(Completed);
    return true;
  }

  /** Loads the completed results, or creates the checkpoint on a first run; the flag says
      that creating it failed. */
  method OpenCheckpoint(store: CheckpointStore, reg: Registry, plan: Planner, b: Binding, resume: bool, late: bool, available: bool)
    returns (result: Result<(map<UnitId, Value>, bool), StoreError>)
    modifies store
    ensures var s := Begin(reg, plan, State(old(store.Contents()), Down, []), b, resume, late, available);
      && s.stored == store.Contents() && s.log == []
      && s.stage == if result.Ok? then Looping(b, InRankOrder(plan(b)), result.value.0, [], result.value.1) else Down
    ensures result == Err(NotFound) <==> old(store.row) == None && !old(store.expired) && resume
    ensures result == Err(BindingMismatch) <==> old(store.row).Some? && old(store.row).value.binding != b
    ensures result == Err(Corrupted) <==>
      old(store.row).Some? && old(store.row).value.binding == b && !old(store.Readable(reg))
    ensures result == Err(Expired) <==>
      (old(store.row) == None && old(store.expired))
      || (old(store.row).Some? && old(store.row).value.binding == b && old(store.Readable(reg)) && late)
    ensures result.Ok? ==> result.value.0 == CompletedOf(reg, old(store.Contents()))
    ensures result.Ok? ==> result.value.1 == (old(store.row) == None && !available)
    ensures result.Ok? && Sound(reg, old(store.Contents()), b) ==>
      Sound(reg, store.Contents(), b) && CompletedOf(reg, store.Contents()) == result.value.0
  {
    hide Saved, Loaded, InRankOrder, CheckpointStore.Readable, Sound, CompletedOf;
    OpeningCompleted(reg, store.Contents(), b, late);
    var loaded := store.LoadCheckpoint(reg, b, late);
    if loaded.Ok? { return Ok((loaded.value, false)); }
    if loaded.error != NotFound || resume { return Err(loaded.error); }
    var error := store.SaveCheckpoint(reg, b, None, None, None, available);
    return Ok((map[], error.Some?));
  }

  lemma StartRecorded(reg: Registry, plan: Planner, before: State, events: seq<Event>, b: Binding, resume: bool, late: bool, available: bool)
    returns (events': seq<Event>, end': State)
    requires before == Run(reg, plan, before, events) && Uninterrupted(events) && before.stage == Down
    ensures end' == Run(reg, plan, before, events') && Uninterrupted(events')
    ensures end' == Begin(reg, plan, before, b, resume, late, available)
  {
    hide Run, Begin, Uninterrupted;
    events', end' := Record(reg, plan, before, events, before, Start(b, resume, late, available));
  }

  lemma EndedSo(units: seq<WorkUnit>, held: map<UnitId, Value>, answers: map<UnitId, Answer>, n: nat,
                failed: bool, unknown: bool, stopped: bool)
    requires AllAnswered(units, answers)
    requires unknown ==> EndsUnknown(units, held, answers, n)
    requires stopped ==> EndsStopped(units, held, answers, n)
    requires !unknown && !stopped ==> n == |units| && GetsPast(units, held, answers, n)
    ensures EndsAs(units, held, answers, n, if failed then Partial else if unknown then Unknown else AsSnapshot,
                   if failed then Some(CheckpointPersistenceFailed)
                   else if unknown then Some(UnknownExecution)
                   else if stopped then Some(StopRequested) else None)
  {
    hide EndsUnknown, EndsStopped, GetsPast;
  }

  lemma OpeningCompleted(reg: Registry, s: Stored, b: Binding, late: bool)
    ensures Loaded(reg, s, b, late).Ok? ==> s.row.Some? && Loaded(reg, s, b, late).value == CompletedOf(reg, s)
    ensures s.row == None ==> CompletedOf(reg, s) == map[] && Saved(reg, s, b, None, None, None).Ok? && Sound(reg, s, b)
    ensures s.row == None ==>
      var s' := Saved(reg, s, b, None, None, None).value; Sound(reg, s', b) && CompletedOf(reg, s') == map[]
  {
    hide Encode, Decode, RoundTrips;
    if s.row == None { SoundSave(reg, s, b, None, None, None); }
  }

  ghost predicate Uninterrupted(events: seq<Event>) {
    forall i :: 0 <= i < |events| ==> !events[i].Crash? && !events[i].Purge?
  }

  method PassOverUnits(store: CheckpointStore, reg: Registry, plan: Planner, b: Binding, units: seq<WorkUnit>,
                       completed: map<UnitId, Value>, alreadyFailed: bool, answers: map<UnitId, Answer>,
                       ghost before: State, ghost sofar: seq<Event>, ghost from: State)
    returns (results: seq<Value>, failed: bool, unknown: bool, stopped: bool, raised: bool, ghost events: seq<Event>, ghost end: State)
    requires AllAnswered(units, answers)
    requires from == Run(reg, plan, before, sofar) && from.stored == store.Contents() && Uninterrupted(sofar)
    requires from.stage == Looping(b, units, completed, [], alreadyFailed)
    modifies store
    ensures end == Run(reg, plan, before, events) && end.stored == store.Contents() && Uninterrupted(events)
    ensures !raised ==> end.stage == Finished(b, results, failed, unknown, stopped)
    ensures Delivers(units, completed, answers, results)
    ensures unknown ==> EndsUnknown(units, completed, answers, |results|)
    ensures stopped ==> EndsStopped(units, completed, answers, |results|)
    ensures raised ==> EndsRaised(units, completed, answers, |results|)
    ensures !unknown && !stopped && !raised ==> |results| == |units| && GetsPast(units, completed, answers, |results|)
    ensures alreadyFailed || SaveMissed(units, completed, answers, |results|) ==> failed
    ensures var sound := Savable(reg, answers) && Sound(reg, old(store.Contents()), b)
                         && CompletedOf(reg, old(store.Contents())) == completed;
      && (sound && failed ==> alreadyFailed || SaveMissed(units, completed, answers, |results|))
      && (sound ==> StoresResults(units, completed, answers, |results|, CompletedOf(reg, store.Contents())))
  {
    hide Saved, Loaded, InRankOrder, Run, SaveHeld, GetsPast, SaveMissed, StoresResults, Sound, CompletedOf, Savable, Delivers,
         EndsUnknown, EndsStopped, EndsRaised, Step, Uninterrupted;
    ghost var sound := Savable(reg, answers) && Sound(reg, store.Contents(), b) && CompletedOf(reg, store.Contents()) == completed;
    NothingYet(units, completed, answers);
    events, end := sofar, from;
    results, failed, unknown, stopped, raised := [], alreadyFailed, false, false, false;
    for i := 0 to |units|
      invariant end == Run(reg, plan, before, events) && end.stored == store.Contents() && Uninterrupted(events)
      invariant end.stage == Looping(b, units[i..], completed, results, failed) && !unknown && !stopped && !raised
      invariant |results| == i && Delivers(units, completed, answers, results) && GetsPast(units, completed, answers, i)
      invariant alreadyFailed || SaveMissed(units, completed, answers, i) ==> failed
      invariant sound && failed ==> alreadyFailed || SaveMissed(units, completed, answers, i)
      invariant sound ==> Sound(reg, store.Contents(), b)
      invariant sound ==> StoresResults(units, completed, answers, i, CompletedOf(reg, store.Contents()))
    {
      var u := units[i];
      assert units[i..][0] == u && units[i..][1..] == units[i + 1..];
      LoopSteps(reg, plan, end, answers[u.id]);
      if u.id in completed {
        DeliversNext(units, completed, answers, results);
        results := results + [completed[u.id]];
        events, end := Record(reg, plan, before, events, end, Reuse);
        PastHeld(units, completed, answers, i, CompletedOf(reg, store.Contents()));
        continue;
      }
      var answer := answers[u.id];
      if answer.stop {
        stopped := true;
        Ends(units, completed, answers, i);
        events, end := Record(reg, plan, before, events, end, Stop);
        return;
      }
      if answer.raises {
        raised := true;
        Ends(units, completed, answers, i);
        return;
      }
      Ends(units, completed, answers, i);
      DeliversNext(units, completed, answers, results);
      results := results + [answer.value];
      events, end := Record(reg, plan, before, events, end, Execute(answer.value, answer.unknown));
      events, end := SaveRecorded(reg, plan, before, events, end, answer.available);
      ghost var was := store.Contents();
      var error := store.SaveCheckpoint(reg, b, Some(u.id), if answer.unknown then None else Some(answer.value),
                                        if answer.unknown then Some(answer.value) else None, answer.available);
      if error.Some? { failed := true; }
      if sound && answer.available { AnswerSaved(reg, was, b, u.id, answers); }
      PastExecuted(units, completed, answers, i, CompletedOf(reg, was), CompletedOf(reg, store.Contents()));
      if answer.unknown {
        unknown := true;
        return;
      }
    }
    FinishStep(reg, plan, end);
    events, end := Record(reg, plan, before, events, end, Finish);
  }

  /** What the events of the loop do to a run that is at a unit. */
  lemma LoopSteps(reg: Registry, plan: Planner, s: State, a: Answer)
    requires s.stage.Looping? && s.stage.todo != []
    ensures var stage, u := s.stage, s.stage.todo[0].id;
      if u in stage.completed then
        Step(reg, plan, s, Reuse) == s.(stage := Looping(stage.binding, stage.todo[1..], stage.completed,
                                                         stage.results + [stage.completed[u]], stage.failed))
      else
        && Step(reg, plan, s, Stop) == s.(stage := Finished(stage.binding, stage.results, stage.failed, false, true))
        && Step(reg, plan, s, Execute(a.value, a.unknown)) ==
             s.(stage := Holding(stage.binding, stage.todo, stage.completed, stage.results, stage.failed, a.value, a.unknown),
                log := s.log + [Ran(u, a.value)])
  {
  }

  lemma FinishStep(reg: Registry, plan: Planner, s: State)
    requires s.stage.Looping? && s.stage.todo == []
    ensures Step(reg, plan, s, Finish) == s.(stage := Finished(s.stage.binding, s.stage.results, s.stage.failed, false, false))
  {
  }

  lemma DeliversNext(units: seq<WorkUnit>, held: map<UnitId, Value>, answers: map<UnitId, Answer>, results: seq<Value>)
    requires AllAnswered(units, answers) && Delivers(units, held, answers, results) && |results| < |units|
    ensures var u := units[|results|].id;
      Delivers(units, held, answers, results + [if u in held then held[u] else answers[u].value])
  {
  }

  lemma Ends(units: seq<WorkUnit>, held: map<UnitId, Value>, answers: map<UnitId, Answer>, i: nat)
    requires AllAnswered(units, answers) && i < |units| && GetsPast(units, held, answers, i) && units[i].id !in held
    ensures var a := answers[units[i].id];
      && (a.stop ==> EndsStopped(units, held, answers, i))
      && (!a.stop && a.raises ==> EndsRaised(units, held, answers, i))
      && (!a.stop && !a.raises && a.unknown ==> EndsUnknown(units, held, answers, i + 1))
  {
  }

  lemma NothingYet(units: seq<WorkUnit>, held: map<UnitId, Value>, answers: map<UnitId, Answer>)
    requires AllAnswered(units, answers)
    ensures Delivers(units, held, answers, [])
    ensures GetsPast(units, held, answers, 0) && !SaveMissed(units, held, answers, 0)
    ensures StoresResults(units, held, answers, 0, held)
  {
  }

  lemma PastHeld(units: seq<WorkUnit>, held: map<UnitId, Value>, answers: map<UnitId, Answer>, i: nat, stored: map<UnitId, Value>)
    requires AllAnswered(units, answers) && i < |units| && units[i].id in held && GetsPast(units, held, answers, i)
    ensures GetsPast(units, held, answers, i + 1)
    ensures SaveMissed(units, held, answers, i + 1) <==> SaveMissed(units, held, answers, i)
    ensures StoresResults(units, held, answers, i, stored) ==> StoresResults(units, held, answers, i + 1, stored)
  {
    forall u ensures SavedAmong(units, held, answers, i + 1, u) <==> SavedAmong(units, held, answers, i, u) {
    }
  }

  /** What saving the answer of a unit puts into a sound row. */
  lemma AnswerSaved(reg: Registry, s: Stored, b: Binding, u: UnitId, answers: map<UnitId, Answer>)
    requires Sound(reg, s, b) && Savable(reg, answers) && u in answers
    ensures var a := answers[u];
      var s' := Saved(reg, s, b, Some(u), if a.unknown then None else Some(a.value), if a.unknown then Some(a.value) else None);
      s'.Ok? && Sound(reg, s'.value, b)
      && CompletedOf(reg, s'.value) == if a.unknown then CompletedOf(reg, s) else CompletedOf(reg, s)[u := a.value]
  {
    hide RoundTrips, Saved, Sound, CompletedOf;
    var a := answers[u];
    SoundSave(reg, s, b, Some(u), if a.unknown then None else Some(a.value), if a.unknown then Some(a.value) else None);
  }

  lemma PastExecuted(units: seq<WorkUnit>, held: map<UnitId, Value>, answers: map<UnitId, Answer>, i: nat,
                     stored: map<UnitId, Value>, stored': map<UnitId, Value>)
    requires AllAnswered(units, answers) && i < |units| && Executes(units[i].id, held, answers) && GetsPast(units, held, answers, i)
    ensures !answers[units[i].id].unknown ==> GetsPast(units, held, answers, i + 1)
    ensures SaveMissed(units, held, answers, i + 1) <==> SaveMissed(units, held, answers, i) || !answers[units[i].id].available
    ensures var a := answers[units[i].id];
      StoresResults(units, held, answers, i, stored)
      && stored' == (if a.available && !a.unknown then stored[units[i].id := a.value] else stored) ==>
        StoresResults(units, held, answers, i + 1, stored')
  {
    var id := units[i].id;
    var a := answers[id];
    if SaveMissed(units, held, answers, i) || !a.available { assert SaveMissed(units, held, answers, i + 1) by { MissedAt(units, held, answers, i); } }
    forall u ensures SavedAmong(units, held, answers, i + 1, u) <==>
                       SavedAmong(units, held, answers, i, u) || (u == id && !a.unknown && a.available)
    {
      AmongNext(units, held, answers, i, u);
    }
  }

  lemma MissedAt(units: seq<WorkUnit>, held: map<UnitId, Value>, answers: map<UnitId, Answer>, i: nat)
    requires AllAnswered(units, answers) && i < |units| && units[i].id !in held
    requires SaveMissed(units, held, answers, i) || !answers[units[i].id].available
    ensures SaveMissed(units, held, answers, i + 1)
  {
    if !answers[units[i].id].available { assert units[i].id !in held && !answers[units[i].id].available; }
  }

  lemma AmongNext(units: seq<WorkUnit>, held: map<UnitId, Value>, answers: map<UnitId, Answer>, i: nat, u: UnitId)
    requires AllAnswered(units, answers) && i < |units| && units[i].id !in held
    ensures var a := answers[units[i].id];
      SavedAmong(units, held, answers, i + 1, u) <==>
      SavedAmong(units, held, answers, i, u) || (u == units[i].id && !a.unknown && a.available)
  {
    if u == units[i].id && !answers[u].unknown && answers[u].available { assert units[i].id == u; }
  }

  lemma SaveRecorded(reg: Registry, plan: Planner, before: State, events: seq<Event>, end: State, available: bool)
    returns (events': seq<Event>, end': State)
    requires end == Run(reg, plan, before, events) && Uninterrupted(events) && end.stage.Holding? && end.stage.todo != []
    ensures end' == Run(reg, plan, before, events') && Uninterrupted(events')
    ensures var h := end.stage;
      var saved := Saved(reg, end.stored, h.binding, Some(h.todo[0].id),
                         if h.unknown then None else Some(h.value), if h.unknown then Some(h.value) else None);
      var ok := available && saved.Ok?;
      && end'.stored == (if ok then saved.value else end.stored)
      && end'.stage == (if h.unknown then Finished(h.binding, h.results + [h.value], h.failed || !ok, true, false)
                        else Looping(h.binding, h.todo[1..], h.completed, h.results + [h.value], h.failed || !ok))
  {
    hide Saved, Run;
    events', end' := Record(reg, plan, before, events, end, Save(available));
  }

  lemma Record(reg: Registry, plan: Planner, before: State, events: seq<Event>, end: State, e: Event)
    returns (events': seq<Event>, end': State)
    requires end == Run(reg, plan, before, events) && Uninterrupted(events) && !e.Crash? && !e.Purge?
    ensures end' == Run(reg, plan, before, events') && Uninterrupted(events') && end' == Step(reg, plan, end, e)
  {
    events', end' := events + [e], Step(reg, plan, end, e);
    RunOneMore(reg, plan, before, events, e);
  }

  lemma Raise(reg: Registry, plan: Planner, before: State, events: seq<Event>, end: State) returns (events': seq<Event>, end': State)
    requires end == Run(reg, plan, before, events)
    ensures end' == Run(reg, plan, before, events') && end'.stage == Down && end'.stored == end.stored
  {
    events', end' := events + [Crash], Step(reg, plan, end, Crash);
    RunOneMore(reg, plan, before, events, Crash);
  }

  lemma NoEvents(reg: Registry, plan: Planner, s: State)
    ensures Run(reg, plan, s, []) == s && Uninterrupted([])
  {
  }

  /** The units of a plan in rank order are the units of the plan. */
  lemma UnitsAreRanked(units: seq<WorkUnit>)
    ensures multiset(InRankOrder(units)) == multiset(units)
    ensures forall i, j :: 0 <= i < j < |InRankOrder(units)| ==> InRankOrder(units)[i].rank <= InRankOrder(units)[j].rank
  {
    SortOrders(units, RankOf);
    var sorted := InRankOrder(units);
    forall i, j | 0 <= i < j < |sorted| ensures sorted[i].rank <= sorted[j].rank {
      assert RankOf(sorted[i]) <= RankOf(sorted[j]);
    }
  }

  lemma SortedUnits(units: seq<WorkUnit>)
    ensures forall u :: u in InRankOrder(units) <==> u in units
  {
    assert multiset(InRankOrder(units)) == multiset(units);
    assert forall u :: u in InRankOrder(units) <==> u in multiset(InRankOrder(units));
  }
}
