/** Model calls across crashes: a reservation is prepared, the call is recorded as started,
    sent, settled and recorded as finished; a process may die between any two of these
    durable steps, and a resume closes what it finds open. */
module ModelCallRecovery {
  import opened Wrappers
  import opened BudgetLedger
  import opened Budget
  import opened BudgetSafety
  import Gateway = ModelGateway

  // ----- the table of started calls -----------------------------------------------------

  datatype Terminal = Unfinished | UnknownOutcome | Finished(state: Gateway.ProviderState)

  /** A row of the pending calls table; the table is in the order the calls were started. */
  datatype CallRow = CallRow(callId: Id, rid: Id, terminal: Terminal)

  function OpenRids(rows: seq<CallRow>): seq<Id> {
    if rows == [] then []
    else
      var last := rows[|rows| - 1];
      OpenRids(rows[..|rows| - 1]) + (if last.terminal == Unfinished then [last.rid] else [])
  }

  function MarkFinished(rows: seq<CallRow>, callId: Id, state: Gateway.ProviderState): seq<CallRow> {
    seq(|rows|, i requires 0 <= i < |rows| =>
      if rows[i].callId == callId then rows[i].(terminal := Finished(state)) else rows[i])
  }

  function MarkUnknown(rows: seq<CallRow>): seq<CallRow> {
    seq(|rows|, i requires 0 <= i < |rows| =>
      if rows[i].terminal == Unfinished then rows[i].(terminal := UnknownOutcome) else rows[i])
  }

  // ----- runs with crashes ----------------------------------------------------------------

  datatype Stage =
    | Idle
    | ReservedCall(callId: Id, rid: Id)
    | StartedCall(callId: Id, rid: Id)
    | SettledCall(callId: Id, state: Gateway.ProviderState)
    | Down
    | Recovering(todo: seq<Id>)

  /** Durable budget and call rows, the stage the process is in, and, for the record, the
      reservations a crash has left active with nobody to settle them. */
  datatype State = State(budget: BudgetState, rows: seq<CallRow>, stage: Stage, stranded: set<Id>)

  datatype Event =
    | Reserve(rid: Id, id: Id, callId: Id, inputBound: int, outputMax: int, digest: Id, capability: Capability)
    | BeginCall
    | BeginRefused
    | Answer(answer: Gateway.ProviderAnswer, trusted: bool)
    | FinishCall
    | Crash
    | Resume
    | SettleNext
    | ResumeDone
    | Other(op: Op)

  function IsActive(b: BudgetState, rid: Id): bool {
    rid in b.reservations && b.reservations[rid].state == Active
  }

  function Abandoned(s: State): set<Id> {
    match s.stage
    case ReservedCall(_, rid) => {rid}
    case Recovering(todo) => set rid | rid in todo && IsActive(s.budget, rid)
    case _ => {}
  }

  function SettleMissing(b: BudgetState, rid: Id): BudgetState {
    SettledWithUncertain(b, rid, Missing, None).0
  }

  /** Budget operations that are not about a model call: accounts and authorization. */
  predicate Administrative(op: Op) {
    op.CreateOp? || op.AuthorizeOp? || op.UnfreezeOp?
  }

  function Step(s: State, e: Event): State {
    match e
    case Reserve(rid, id, callId, inputBound, outputMax, digest, capability) =>
      if s.stage != Idle || rid in s.budget.reservations then s
      else
        var (b, result) := Reserved(s.budget, rid, id, callId, inputBound, outputMax, digest, capability);
        s.(budget := b, stage := if result.Ok? && result.value.Granted? then ReservedCall(callId, rid) else Idle)
    case BeginCall =>
      if !s.stage.ReservedCall? then s
      else s.(rows := s.rows + [CallRow(s.stage.callId, s.stage.rid, Unfinished)],
              stage := StartedCall(s.stage.callId, s.stage.rid))
    case BeginRefused =>
      if !s.stage.ReservedCall? then s
      else s.(budget := ReleasedUnsent(s.budget, s.stage.rid).0, stage := Idle)
    case Answer(answer, trusted) =>
      if !s.stage.StartedCall? || s.stage.rid !in s.budget.reservations then s
      else
        var outcome := Gateway.Received(answer, s.budget.reservations[s.stage.rid].amount, trusted);
        if outcome == None then s.(stage := Down)
        else s.(budget := Gateway.Settled(s.budget, s.stage.rid, outcome.value).0,
                stage := SettledCall(s.stage.callId, outcome.value.state))
    case FinishCall =>
      if !s.stage.SettledCall? then s
      else s.(rows := MarkFinished(s.rows, s.stage.callId, s.stage.state), stage := Idle)
    case Crash => s.(stage := Down, stranded := s.stranded + Abandoned(s))
    case Resume =>
      if s.stage != Down then s else s.(rows := MarkUnknown(s.rows), stage := Recovering(OpenRids(s.rows)))
    case SettleNext =>
      if !s.stage.Recovering? || s.stage.todo == [] then s
      else s.(budget := SettleMissing(s.budget, s.stage.todo[0]), stage := Recovering(s.stage.todo[1..]))
    case ResumeDone => if s.stage == Recovering([]) then s.(stage := Idle) else s
    case Other(op) => if Administrative(op) then s.(budget := Apply(s.budget, op)) else s
  }

  function Run(s: State, events: seq<Event>): State {
    if events == [] then s else Step(Run(s, events[..|events| - 1]), events[|events| - 1])
  }

  const Fresh := State(Empty, [], Idle, {})

  // ----- the invariant -----------------------------------------------------------------------

  ghost predicate DistinctRids(rids: seq<Id>) {
    forall i, j :: 0 <= i < j < |rids| ==> rids[i] != rids[j]
  }

  ghost predicate RowsOk(rows: seq<CallRow>, b: BudgetState) {
    && (forall i :: 0 <= i < |rows| ==>
          rows[i].rid in b.reservations && b.reservations[rows[i].rid].callId == rows[i].callId && rows[i].callId in b.calls)
    && (forall i, j :: 0 <= i < j < |rows| ==> rows[i].rid != rows[j].rid && rows[i].callId != rows[j].callId)
  }

  ghost predicate OnlyOpen(rows: seq<CallRow>, callId: Id) {
    forall i :: 0 <= i < |rows| && rows[i].terminal == Unfinished ==> rows[i].callId == callId
  }

  predicate NoneOpen(rows: seq<CallRow>) {
    forall i :: 0 <= i < |rows| ==> rows[i].terminal != Unfinished
  }

  ghost predicate StageOk(s: State) {
    match s.stage
    case Idle => NoneOpen(s.rows)
    case ReservedCall(callId, rid) =>
      NoneOpen(s.rows) && IsActive(s.budget, rid) && s.budget.reservations[rid].callId == callId
      && callId in s.budget.calls && rid !in s.stranded
      && forall i :: 0 <= i < |s.rows| ==> s.rows[i].rid != rid && s.rows[i].callId != callId
    case StartedCall(callId, rid) =>
      OnlyOpen(s.rows, callId) && IsActive(s.budget, rid) && rid in OpenRids(s.rows)
    case SettledCall(callId, _) =>
      OnlyOpen(s.rows, callId) && forall rid :: rid in OpenRids(s.rows) ==> !IsActive(s.budget, rid)
    case Down => true
    case Recovering(todo) => NoneOpen(s.rows) && DistinctRids(todo)
  }

  /** An active reservation is in exactly one of three places: stranded by a crash, held by
      the process, or in an open row; the stranded ones are all active. */
  ghost predicate ActiveAccounted(s: State) {
    && (forall rid :: rid in s.stranded ==> IsActive(s.budget, rid) && rid !in Abandoned(s) && rid !in OpenRids(s.rows))
    && (forall rid :: IsActive(s.budget, rid) ==> rid in s.stranded || rid in Abandoned(s) || rid in OpenRids(s.rows))
  }

  ghost predicate RInv(s: State) {
    Inv(s.budget) && RowsOk(s.rows, s.budget) && StageOk(s) && ActiveAccounted(s)
  }

  lemma {:induction false} OpenRidsAre(rows: seq<CallRow>)
    ensures forall rid :: rid in OpenRids(rows) <==> exists i :: 0 <= i < |rows| && rows[i].rid == rid && rows[i].terminal == Unfinished
  {
    if rows != [] {
      var init := rows[..|rows| - 1];
      OpenRidsAre(init);
      forall rid | rid in OpenRids(init) ensures exists i :: 0 <= i < |rows| && rows[i].rid == rid && rows[i].terminal == Unfinished {
        var i :| 0 <= i < |init| && init[i].rid == rid && init[i].terminal == Unfinished;
        assert rows[i] == init[i];
      }
      forall i | 0 <= i < |rows| && rows[i].terminal == Unfinished ensures rows[i].rid in OpenRids(rows) {
        if i < |init| { assert init[i] == rows[i]; }
      }
    }
  }

  lemma {:induction false} OpenRidsDistinct(rows: seq<CallRow>)
    requires forall i, j :: 0 <= i < j < |rows| ==> rows[i].rid != rows[j].rid
    ensures DistinctRids(OpenRids(rows))
  {
    if rows != [] {
      var init := rows[..|rows| - 1];
      OpenRidsDistinct(init);
      OpenRidsAre(init);
      forall rid | rid in OpenRids(init) ensures rid != rows[|rows| - 1].rid {
        var i :| 0 <= i < |init| && init[i].rid == rid && init[i].terminal == Unfinished;
        assert rows[i].rid == rid;
      }
      var rids := OpenRids(rows);
      assert forall i, j :: 0 <= i < j < |OpenRids(init)| ==> rids[i] == OpenRids(init)[i] && rids[j] == OpenRids(init)[j];
      if rows[|rows| - 1].terminal == Unfinished {
        assert rids == OpenRids(init) + [rows[|rows| - 1].rid];
        assert forall i :: 0 <= i < |OpenRids(init)| ==> OpenRids(init)[i] in OpenRids(init);
      } else {
        assert rids == OpenRids(init);
      }
    }
  }

  /** What any budget operation does to reservations other than the one it is about. */
  ghost predicate SameBut(b: BudgetState, b': BudgetState, rid: Id) {
    && (forall x :: x != rid ==> (x in b'.reservations <==> x in b.reservations))
    && (forall x :: x != rid && x in b.reservations ==> b'.reservations[x] == b.reservations[x])
    && (forall c :: c in b.calls ==> c in b'.calls)
    && (rid in b.reservations ==> rid in b'.reservations && b'.reservations[rid].callId == b.reservations[rid].callId)
  }

  lemma SameRows(rows: seq<CallRow>, b: BudgetState, b': BudgetState, rid: Id)
    requires RowsOk(rows, b) && SameBut(b, b', rid)
    ensures RowsOk(rows, b')
  {
  }

  lemma ReserveKeepsR(s: State, e: Event)
    requires RInv(s) && e.Reserve?
    ensures RInv(Step(s, e))
  {
    hide Inv, Reserved;
    var s' := Step(s, e);
    if s' != s {
      ReserveKeeps(s.budget, e.rid, e.id, e.callId, e.inputBound, e.outputMax, e.digest, e.capability);
      ReservedEffect(s.budget, e.rid, e.id, e.callId, e.inputBound, e.outputMax, e.digest, e.capability);
      OpenRidsAre(s.rows);
      if s'.stage != Idle { SameRows(s.rows, s.budget, s'.budget, e.rid); }
    }
  }

  lemma ReservedEffect(b: BudgetState, rid: Id, id: Id, callId: Id, inputBound: int, outputMax: int, digest: Id, capability: Capability)
    requires rid !in b.reservations
    ensures var (b', result) := Reserved(b, rid, id, callId, inputBound, outputMax, digest, capability);
      if result.Ok? && result.value.Granted? then
        SameBut(b, b', rid) && IsActive(b', rid) && b'.reservations[rid].callId == callId && callId in b'.calls && callId !in b.calls
        && b'.reservations[rid] == result.value.reservation
      else b' == b
  {
  }

  lemma BeginKeepsR(s: State)
    requires RInv(s)
    ensures RInv(Step(s, BeginCall))
  {
    hide Inv, RowsOk, IsActive;
    var s' := Step(s, BeginCall);
    if s' != s {
      OpenRidsAre(s.rows);
      OneMoreRow(s, s.stage.callId, s.stage.rid);
    }
  }

  /** The row of a call that is reserved can be added, and is then the only open one. */
  lemma OneMoreRow(s: State, callId: Id, rid: Id)
    requires RowsOk(s.rows, s.budget) && StageOk(s) && s.stage == ReservedCall(callId, rid)
    ensures var rows := s.rows + [CallRow(callId, rid, Unfinished)];
      RowsOk(rows, s.budget) && OpenRids(rows) == OpenRids(s.rows) + [rid] && OnlyOpen(rows, callId)
  {
    var rows := s.rows + [CallRow(callId, rid, Unfinished)];
    assert rows[..|rows| - 1] == s.rows;
  }

  /** Closing an active reservation, in whichever way, leaves it not active and every
      other reservation alone. */
  ghost predicate Closes1(b: BudgetState, b': BudgetState, rid: Id) {
    SameBut(b, b', rid) && rid in b'.reservations && !IsActive(b', rid) && Inv(b')
  }

  lemma ActiveClosable(b: BudgetState, rid: Id)
    requires Inv(b) && IsActive(b, rid)
    ensures Closable(b, rid) == None
  {
  }

  lemma ReleaseCloses(b: BudgetState, rid: Id)
    requires Inv(b) && IsActive(b, rid)
    ensures Closes1(b, ReleasedUnsent(b, rid).0, rid)
  {
    hide Inv;
    ActiveClosable(b, rid);
    ReleaseKeeps(b, rid);
  }

  lemma MissingCloses(b: BudgetState, rid: Id)
    requires Inv(b) && IsActive(b, rid)
    ensures Closes1(b, SettleMissing(b, rid), rid)
    ensures var r, r' := b.reservations[rid], SettleMissing(b, rid).reservations[rid];
      r' == r.(state := SettledUncertain, usageState := Missing, actual := Some(r.amount))
  {
    hide Inv;
    AmountPositive(b, rid);
    ActiveClosable(b, rid);
    SettleUncertainKeeps(b, rid, Missing, None);
  }

  lemma AmountPositive(b: BudgetState, rid: Id)
    requires Inv(b) && rid in b.reservations
    ensures b.reservations[rid].amount > 0
  {
  }

  lemma AnswerCloses(b: BudgetState, rid: Id, answer: Gateway.ProviderAnswer, trusted: bool)
    requires Inv(b) && IsActive(b, rid)
    ensures var outcome := Gateway.Received(answer, b.reservations[rid].amount, trusted);
      outcome.Some? ==> Closes1(b, Gateway.Settled(b, rid, outcome.value).0, rid)
  {
    hide Inv, Gateway.Received, SettledWithKnown, SettledWithUncertain, ReleasedUnsent;
    var outcome := Gateway.Received(answer, b.reservations[rid].amount, trusted);
    if outcome.Some? {
      Gateway.OutcomeUsage(answer, b.reservations[rid].amount, trusted) by { CancelledHasNone(answer, b.reservations[rid].amount, trusted); }
      var o := outcome.value;
      match o.action
      case ReleaseReservation => ReleaseCloses(b, rid);
      case SettleAsKnown =>
        KnownCloses(b, rid, Max(0, Gateway.OrZero(o.usage.inputTokens)), Max(0, Gateway.OrZero(o.usage.outputTokens)));
      case SettleAsUncertain =>
        UncertainCloses(b, rid, if o.usage.state == Missing then Missing else Untrusted, o.usage.ReportedTotal());
    }
  }

  lemma CancelledHasNone(answer: Gateway.ProviderAnswer, amount: nat, trusted: bool)
    ensures Gateway.Received(answer, amount, trusted).Some? ==> answer != Gateway.ProviderCancelled
  {
  }

  lemma KnownCloses(b: BudgetState, rid: Id, inputTokens: nat, outputTokens: nat)
    requires Inv(b) && IsActive(b, rid)
    ensures Closes1(b, SettledWithKnown(b, rid, inputTokens, outputTokens).0, rid)
  {
    hide Inv;
    ActiveClosable(b, rid);
    SettleKnownKeeps(b, rid, inputTokens, outputTokens);
  }

  lemma UncertainCloses(b: BudgetState, rid: Id, usage: UsageState, reported: Option<int>)
    requires Inv(b) && IsActive(b, rid) && usage != KnownUsage && (reported.Some? ==> reported.value >= 0)
    ensures Closes1(b, SettledWithUncertain(b, rid, usage, reported).0, rid)
  {
    hide Inv;
    ActiveClosable(b, rid);
    SettleUncertainKeeps(b, rid, usage, reported);
  }

  /** A step that closes reservation `rid` and leaves the rows alone. */
  lemma ClosureKeeps(s: State, s': State, rid: Id)
    requires RInv(s) && Closes1(s.budget, s'.budget, rid) && IsActive(s.budget, rid) && rid !in s.stranded
    requires s'.rows == s.rows && s'.stranded == s.stranded && StageOk(s')
    requires forall x :: x != rid ==> (x in Abandoned(s') <==> x in Abandoned(s))
    requires forall x :: x in Abandoned(s') ==> x !in s.stranded
    ensures RInv(s')
  {
    hide Inv, StageOk;
    SameRows(s.rows, s.budget, s'.budget, rid);
  }

  lemma RefuseKeepsR(s: State)
    requires RInv(s)
    ensures RInv(Step(s, BeginRefused))
  {
    hide Inv, ReleasedUnsent, SameBut;
    var s' := Step(s, BeginRefused);
    if s' != s {
      ReleaseCloses(s.budget, s.stage.rid);
      ClosureKeeps(s, s', s.stage.rid);
    }
  }

  lemma AnswerKeepsR(s: State, answer: Gateway.ProviderAnswer, trusted: bool)
    requires RInv(s)
    ensures RInv(Step(s, Answer(answer, trusted)))
  {
    hide Inv, Gateway.Settled, Gateway.Received;
    var s' := Step(s, Answer(answer, trusted));
    if s' != s && s'.stage != Down {
      var rid := s.stage.rid;
      AnswerCloses(s.budget, rid, answer, trusted);
      OpenRidsAre(s.rows);
      ClosureKeeps(s, s', rid);
    }
  }

  lemma FinishKeepsR(s: State)
    requires RInv(s)
    ensures RInv(Step(s, FinishCall))
  {
    hide Inv;
    var s' := Step(s, FinishCall);
    if s' != s {
      OpenRidsAre(s.rows);
      OpenRidsAre(s'.rows);
    }
  }

  lemma ResumeKeepsR(s: State)
    requires RInv(s)
    ensures RInv(Step(s, Resume))
  {
    hide Inv;
    var s' := Step(s, Resume);
    if s' != s {
      OpenRidsAre(s.rows);
      OpenRidsAre(s'.rows);
      OpenRidsDistinct(s.rows);
    }
  }

  lemma SettleNextKeepsR(s: State)
    requires RInv(s)
    ensures RInv(Step(s, SettleNext))
  {
    hide Inv, SettleMissing, SameBut;
    var s' := Step(s, SettleNext);
    if s' != s {
      var rid, rest := s.stage.todo[0], s.stage.todo[1..];
      assert s.stage.todo == [rid] + rest;
      if IsActive(s.budget, rid) {
        MissingCloses(s.budget, rid);
        StillActive(s.budget, s'.budget, rid);
        ClosureKeeps(s, s', rid);
      } else {
        NotActiveNoEffect(s.budget, rid);
      }
    }
  }

  lemma StillActive(b: BudgetState, b': BudgetState, rid: Id)
    requires Closes1(b, b', rid)
    ensures forall x :: x != rid ==> (IsActive(b', x) <==> IsActive(b, x))
    ensures !IsActive(b', rid)
  {
  }

  /** `already settled`, the error the resume loop passes over. */
  lemma NotActiveNoEffect(b: BudgetState, rid: Id)
    requires !IsActive(b, rid)
    ensures SettleMissing(b, rid) == b
  {
  }

  lemma OtherKeepsR(s: State, op: Op)
    requires RInv(s)
    ensures RInv(Step(s, Other(op)))
  {
    hide Inv, Created, Authorize, Unfrozen;
    var s' := Step(s, Other(op));
    if s' != s {
      ApplyKeeps(s.budget, op);
      AdministrativeLeaves(s.budget, op);
    }
  }

  lemma AdministrativeLeaves(b: BudgetState, op: Op)
    requires Administrative(op)
    ensures Apply(b, op).reservations == b.reservations && Apply(b, op).calls == b.calls
  {
  }

  lemma StepKeepsR(s: State, e: Event)
    requires RInv(s)
    ensures RInv(Step(s, e))
  {
    match e
    case Reserve(_, _, _, _, _, _, _) => ReserveKeepsR(s, e);
    case BeginCall => BeginKeepsR(s);
    case BeginRefused => RefuseKeepsR(s);
    case Answer(answer, trusted) => AnswerKeepsR(s, answer, trusted);
    case FinishCall => FinishKeepsR(s);
    case Crash => CrashKeepsR(s);
    case Resume => ResumeKeepsR(s);
    case SettleNext => SettleNextKeepsR(s);
    case ResumeDone => DoneKeepsR(s);
    case Other(op) => OtherKeepsR(s, op);
  }

  lemma CrashKeepsR(s: State)
    requires RInv(s)
    ensures RInv(Step(s, Crash))
  {
    hide Inv;
    OpenRidsAre(s.rows);
  }

  lemma DoneKeepsR(s: State)
    requires RInv(s)
    ensures RInv(Step(s, ResumeDone))
  {
    hide Inv;
  }

  lemma {:induction false} RunKeepsR(s: State, events: seq<Event>)
    requires RInv(s)
    ensures RInv(Run(s, events))
  {
    if events != [] {
      RunKeepsR(s, events[..|events| - 1]);
      hide RInv;
      StepKeepsR(Run(s, events[..|events| - 1]), events[|events| - 1]);
    }
  }

  lemma FreshOk()
    ensures RInv(Fresh)
  {
  }

  // ----- what a resume achieves ------------------------------------------------------------

  function Repeat(e: Event, n: nat): seq<Event> {
    if n == 0 then [] else Repeat(e, n - 1) + [e]
  }

  /** A resume that is not interrupted, of a process that went down with `n` rows open. */
  function ResumeEvents(n: nat): seq<Event> {
    [Resume] + Repeat(SettleNext, n) + [ResumeDone]
  }

  /** The budget after settling these reservations one after the other. */
  function SettleAll(b: BudgetState, rids: seq<Id>): BudgetState {
    if rids == [] then b else SettleMissing(SettleAll(b, rids[..|rids| - 1]), rids[|rids| - 1])
  }

  /** Each listed reservation that was active is charged its full amount as uncertain
      usage; every other reservation is as it was. */
  ghost predicate ChargedInFull(b: BudgetState, b': BudgetState, rids: seq<Id>) {
    && b'.reservations.Keys == b.reservations.Keys
    && forall x :: x in b.reservations ==>
         b'.reservations[x] ==
           if x in rids && b.reservations[x].state == Active
           then b.reservations[x].(state := SettledUncertain, usageState := Missing, actual := Some(b.reservations[x].amount))
           else b.reservations[x]
  }

  lemma {:induction false} SettleAllCharges(b: BudgetState, rids: seq<Id>)
    requires Inv(b) && DistinctRids(rids) && forall rid :: rid in rids ==> rid in b.reservations
    ensures Inv(SettleAll(b, rids)) && ChargedInFull(b, SettleAll(b, rids), rids)
  {
    hide Inv, SettleMissing, ChargedInFull;
    if rids == [] {
      NothingCharged(b);
    } else {
      var init, last := rids[..|rids| - 1], rids[|rids| - 1];
      assert rids == init + [last];
      SettleAllCharges(b, init);
      ChargesOneMore(b, SettleAll(b, init), init, last);
    }
  }

  lemma NothingCharged(b: BudgetState)
    ensures ChargedInFull(b, b, [])
  {
  }

  lemma ChargesOneMore(b: BudgetState, before: BudgetState, init: seq<Id>, last: Id)
    requires Inv(before) && ChargedInFull(b, before, init) && last !in init && last in b.reservations
    ensures Inv(SettleMissing(before, last)) && ChargedInFull(b, SettleMissing(before, last), init + [last])
  {
    hide Inv, SettleMissing;
    var after := SettleMissing(before, last);
    if IsActive(before, last) {
      MissingCloses(before, last);
      assert after.reservations.Keys == before.reservations.Keys;
    } else {
      NotActiveNoEffect(before, last);
    }
  }

  lemma {:induction false} RunAppend(s: State, before: seq<Event>, after: seq<Event>)
    ensures Run(s, before + after) == Run(Run(s, before), after)
  {
    if after == [] {
      assert before + after == before;
    } else {
      RunAppend(s, before, after[..|after| - 1]);
      assert (before + after)[..|before + after| - 1] == before + after[..|after| - 1];
    }
  }

  lemma {:induction false} SettleSteps(s: State, rids: seq<Id>, n: nat)
    requires s.stage == Recovering(rids) && n <= |rids|
    ensures Run(s, Repeat(SettleNext, n)) == s.(budget := SettleAll(s.budget, rids[..n]), stage := Recovering(rids[n..]))
  {
    hide Step, Run, SettleMissing;
    if n == 0 {
      assert rids[..0] == [] && rids[0..] == rids;
      RunNothing(s);
    } else {
      SettleSteps(s, rids, n - 1);
      var before := Run(s, Repeat(SettleNext, n - 1));
      assert rids[n - 1..][1..] == rids[n..];
      assert rids[..n][..n - 1] == rids[..n - 1] && rids[..n][n - 1] == rids[n - 1];
      RunAppend(s, Repeat(SettleNext, n - 1), [SettleNext]);
      RunSingle(before, SettleNext);
      SettleOne(before, rids[n - 1..]);
    }
  }

  lemma RunNothing(s: State)
    ensures Run(s, []) == s && Repeat(SettleNext, 0) == []
  {
  }

  lemma SettleOne(s: State, rids: seq<Id>)
    requires s.stage == Recovering(rids) && rids != []
    ensures Step(s, SettleNext) == s.(budget := SettleMissing(s.budget, rids[0]), stage := Recovering(rids[1..]))
  {
  }

  /** Whatever crashes came before, an uninterrupted resume leaves no row open and none of
      the open rows' reservations active: those still active are charged in full, once,
      those settled before the crash are left as they were settled, and nothing else moves.
      The reservations active afterwards are exactly those some crash has lost. */
  lemma ResumeSettlesOpenCalls(events: seq<Event>)
    requires Run(Fresh, events).stage == Down
    ensures var s := Run(Fresh, events); var rids := OpenRids(s.rows);
      var s' := Run(Fresh, events + ResumeEvents(|rids|));
      && s'.stage == Idle && NoneOpen(s'.rows)
      && ChargedInFull(s.budget, s'.budget, rids)
      && (forall rid :: rid in rids ==> !IsActive(s'.budget, rid))
      && (forall rid :: IsActive(s'.budget, rid) <==> LostIn(events, rid))
  {
    hide RInv, Inv, Run, SettleAll, ResumeEvents, OpenRids, NoneOpen, LostIn;
    forall rid ensures rid in Run(Fresh, events).stranded <==> LostIn(events, rid) { StrandedIffLost(events, rid); }
    FreshOk();
    RunKeepsR(Fresh, events);
    var s := Run(Fresh, events);
    var rids := OpenRids(s.rows);
    RunAppend(Fresh, events, ResumeEvents(|rids|));
    ResumeRuns(s);
    RunKeepsR(s, ResumeEvents(|rids|));
    InvParts(s, rids);
    SettleAllCharges(s.budget, rids);
    IdleActive(Run(s, ResumeEvents(|rids|)));
  }

  /** Where the events of a resume lead. */
  lemma ResumeRuns(s: State)
    requires s.stage == Down
    ensures var rids := OpenRids(s.rows);
      Run(s, ResumeEvents(|rids|)) == State(SettleAll(s.budget, rids), MarkUnknown(s.rows), Idle, s.stranded)
  {
    hide OpenRids, MarkUnknown, SettleAll, Run;
    var rids := OpenRids(s.rows);
    var n, s1 := |rids|, Step(s, Resume);
    RunAppend(s, [Resume] + Repeat(SettleNext, n), [ResumeDone]);
    RunAppend(s, [Resume], Repeat(SettleNext, n));
    RunSingle(s, Resume);
    SettleSteps(s1, rids, n);
    assert rids[..n] == rids && rids[n..] == [];
    RunSingle(Run(s1, Repeat(SettleNext, n)), ResumeDone);
  }

  lemma RunSingle(s: State, e: Event)
    ensures Run(s, [e]) == Step(s, e)
  {
    assert Run(s, []) == s && [e][..0] == [];
  }

  lemma InvParts(s: State, rids: seq<Id>)
    requires RInv(s) && rids == OpenRids(s.rows)
    ensures Inv(s.budget) && DistinctRids(rids) && forall rid :: rid in rids ==> rid in s.budget.reservations
  {
    OpenRidsAre(s.rows);
    OpenRidsDistinct(s.rows);
  }

  lemma IdleActive(s: State)
    requires RInv(s) && s.stage == Idle
    ensures NoneOpen(s.rows) && forall rid :: IsActive(s.budget, rid) <==> rid in s.stranded
  {
    hide Inv, RowsOk, OpenRids;
    OpenRidsAre(s.rows);
  }

  /** A crash now loses the reservation: it comes between preparing it and recording its
      call, or between a resume committing its row as unknown and settling it. */
  ghost predicate Lost(s: State, rid: Id) {
    && IsActive(s.budget, rid)
    && ((s.stage.ReservedCall? && s.stage.rid == rid) || (s.stage.Recovering? && rid in s.stage.todo))
  }

  ghost predicate LostAt(events: seq<Event>, i: nat, rid: Id)
    requires i < |events|
  {
    events[i] == Crash && Lost(Run(Fresh, events[..i]), rid)
  }

  /** Some crash of the run has lost the reservation. */
  ghost predicate LostIn(events: seq<Event>, rid: Id) {
    exists i :: 0 <= i < |events| && LostAt(events, i, rid)
  }

  lemma LostOneMore(init: seq<Event>, e: Event, rid: Id)
    ensures LostIn(init + [e], rid) <==> LostIn(init, rid) || (e == Crash && Lost(Run(Fresh, init), rid))
  {
    hide Lost, Run;
    var events := init + [e];
    assert events[..|init|] == init;
    assert forall i :: 0 <= i < |init| ==> events[..i] == init[..i];
    if LostIn(init, rid) {
      var i :| 0 <= i < |init| && LostAt(init, i, rid);
      assert LostAt(events, i, rid);
    }
    if e == Crash && Lost(Run(Fresh, init), rid) { assert LostAt(events, |init|, rid); }
    if LostIn(events, rid) {
      var i :| 0 <= i < |events| && LostAt(events, i, rid);
      assert i < |init| ==> LostAt(init, i, rid);
    }
  }

  /** The reservations stranded are exactly those some crash has lost. */
  lemma {:induction false} StrandedIffLost(events: seq<Event>, rid: Id)
    ensures rid in Run(Fresh, events).stranded <==> LostIn(events, rid)
  {
    hide Step, RInv, LostIn, Lost;
    if events == [] {
      NothingLost(rid);
    } else {
      var init, e := events[..|events| - 1], events[|events| - 1];
      assert events == init + [e];
      StrandedIffLost(init, rid);
      LostOneMore(init, e, rid);
      FreshOk();
      RunKeepsR(Fresh, init);
      LostStep(Run(Fresh, init), e, rid);
    }
  }

  lemma NothingLost(rid: Id)
    ensures !LostIn([], rid) && rid !in Run(Fresh, []).stranded
  {
  }

  lemma LostStep(s: State, e: Event, rid: Id)
    requires RInv(s)
    ensures rid in Step(s, e).stranded <==> rid in s.stranded || (e == Crash && Lost(s, rid))
  {
    hide Inv, Apply, Reserved, ReleasedUnsent, SettleMissing, Gateway.Received, Gateway.Settled, RowsOk, ActiveAccounted;
    if rid in Step(s, e).stranded && rid !in s.stranded { StrandedStep(s, e, rid); }
  }

  /** After any run that went down and any uninterrupted resume, a reservation is still
      active exactly if a crash came between preparing it and recording its call, or
      between a resume committing its row as unknown and settling it. */
  lemma StrandedOnlyByThoseCrashes(events: seq<Event>, rid: Id)
    requires Run(Fresh, events).stage == Down
    ensures var resumed := Run(Fresh, events + ResumeEvents(|OpenRids(Run(Fresh, events).rows)|));
      IsActive(resumed.budget, rid) <==>
      exists i :: 0 <= i < |events| && events[i] == Crash
                  && var s := Run(Fresh, events[..i]);
                     IsActive(s.budget, rid)
                     && ((s.stage.ReservedCall? && s.stage.rid == rid) || (s.stage.Recovering? && rid in s.stage.todo))
  {
    hide Run, ResumeEvents, OpenRids, IsActive;
    ResumeSettlesOpenCalls(events);
    if LostIn(events, rid) {
      var i :| 0 <= i < |events| && LostAt(events, i, rid);
      assert Lost(Run(Fresh, events[..i]), rid);
    }
    if i: nat :| i < |events| && events[i] == Crash && Lost(Run(Fresh, events[..i]), rid) {
      assert LostAt(events, i, rid);
    }
  }

  lemma StrandedStep(s: State, e: Event, rid: Id)
    requires RInv(s) && rid in Step(s, e).stranded && rid !in s.stranded
    ensures e == Crash && IsActive(s.budget, rid)
    ensures (s.stage.ReservedCall? && s.stage.rid == rid) || (s.stage.Recovering? && rid in s.stage.todo)
  {
    hide Inv, Apply, Reserved, ReleasedUnsent, SettleMissing, Gateway.Received, Gateway.Settled, RowsOk, ActiveAccounted;
  }

  /** What a crash has lost stays active whatever happens afterwards. */
  lemma StrandedStaysActive(events: seq<Event>, more: seq<Event>, rid: Id)
    requires LostIn(events, rid)
    ensures IsActive(Run(Fresh, events + more).budget, rid)
  {
    hide Run, LostIn, Inv, RowsOk, StageOk;
    StrandedIffLost(events, rid);
    FreshOk();
    RunKeepsR(Fresh, events + more);
    RunAppend(Fresh, events, more);
    StrandedGrows(Run(Fresh, events), more);
  }

  lemma {:induction false} StrandedGrows(s: State, more: seq<Event>)
    ensures s.stranded <= Run(s, more).stranded
  {
    if more != [] { StrandedGrows(s, more[..|more| - 1]); }
  }

  // ----- the code that does it ---------------------------------------------------------------

  /** The pending calls table, updated in place. */
  class PendingCalls {
    var rows: seq<CallRow>

    constructor ()
      ensures rows == []
    {
      rows := [];
    }

    method BeginModelCall(callId: Id, rid: Id)
      modifies this
      ensures rows == old(rows) + [CallRow(callId, rid, Unfinished)]
    {
      rows := rows + [CallRow(callId, rid, Unfinished)];
    }

    method FinishModelCall(callId: Id, state: Gateway.ProviderState)
      modifies this
      ensures rows == MarkFinished(old(rows), callId, state)
      ensures |rows| == |old(rows)|
      ensures forall i :: 0 <= i < |rows| && old(rows)[i].callId != callId ==> rows[i] == old(rows)[i]
      ensures forall i :: 0 <= i < |rows| && old(rows)[i].callId == callId ==>
        rows[i] == CallRow(callId, old(rows)[i].rid, Finished(state))
    {
      for i := 0 to |rows|
        invariant |rows| == |old(rows)|
        invariant forall j :: 0 <= j < i ==> rows[j] == MarkFinished(old(rows), callId, state)[j]
        invariant forall j :: i <= j < |rows| ==> rows[j] == old(rows)[j]
      {
        if rows[i].callId == callId { rows := rows[i := rows[i].(terminal := Finished(state))]; }
      }
    }

    /** Commits every open row as unknown and returns their reservations, oldest first. */
    method RecoverPendingModelCalls() returns (rids: seq<Id>)
      modifies this
      ensures rids == OpenRids(old(rows)) && rows == MarkUnknown(old(rows)) && NoneOpen(rows)
      ensures |rows| == |old(rows)|
      ensures forall i :: 0 <= i < |rows| && old(rows)[i].terminal != Unfinished ==> rows[i] == old(rows)[i]
      ensures forall i :: 0 <= i < |rows| && old(rows)[i].terminal == Unfinished ==>
        rows[i] == CallRow(old(rows)[i].callId, old(rows)[i].rid, UnknownOutcome)
    {
      rids := [];
      for i := 0 to |rows|
        invariant |rows| == |old(rows)| && rids == OpenRids(old(rows)[..i])
        invariant forall j :: 0 <= j < i ==> rows[j] == MarkUnknown(old(rows))[j]
        invariant forall j :: i <= j < |rows| ==> rows[j] == old(rows)[j]
      {
        assert old(rows)[..i + 1][..i] == old(rows)[..i];
        if rows[i].terminal == Unfinished {
          rids := rids + [rows[i].rid];
          rows := rows[i := rows[i].(terminal := UnknownOutcome)];
        }
      }
      assert old(rows)[..|rows|] == old(rows);
    }
  }

  /** The reservations a recovery returns are those of the open rows, in the order of the
      table: one for each. */
  lemma {:induction false} OpenRidsListed(rows: seq<CallRow>) returns (at: seq<nat>)
    ensures ListsOpen(rows, OpenRids(rows), at)
  {
    hide ListsOpen;
    if rows == [] {
      at := [];
      NothingOpen();
    } else {
      var n := |rows| - 1;
      at := OpenRidsListed(rows[..n]);
      hide OpenRids;
      OpenRidsStep(rows);
      assert rows == rows[..n] + [rows[n]];
      ListsOneMore(rows[..n], OpenRids(rows[..n]), at, rows[n]);
      at := at + (if rows[n].terminal == Unfinished then [n] else []);
    }
  }

  /** These are the reservations of the open rows, at these places: all of them, in order. */
  ghost predicate ListsOpen(rows: seq<CallRow>, rids: seq<Id>, at: seq<nat>) {
    && |at| == |rids|
    && (forall k :: 0 <= k < |at| ==> at[k] < |rows| && rows[at[k]].terminal == Unfinished && rows[at[k]].rid == rids[k])
    && (forall j, k :: 0 <= j < k < |at| ==> at[j] < at[k])
    && (forall i: nat :: i < |rows| && rows[i].terminal == Unfinished ==> i in at)
  }

  lemma NothingOpen()
    ensures ListsOpen([], OpenRids([]), [])
  {
  }

  lemma ListsOneMore(rows: seq<CallRow>, rids: seq<Id>, at: seq<nat>, row: CallRow)
    requires ListsOpen(rows, rids, at)
    ensures ListsOpen(rows + [row], rids + (if row.terminal == Unfinished then [row.rid] else []),
                      at + (if row.terminal == Unfinished then [|rows|] else []))
  {
    var all := rows + [row];
    assert forall i :: 0 <= i < |rows| ==> all[i] == rows[i];
    if row.terminal != Unfinished {
      assert rids + [] == rids && at + [] == at;
    } else {
      assert (at + [|rows|])[|at|] == |rows|;
    }
  }

  lemma OpenRidsStep(rows: seq<CallRow>)
    requires rows != []
    ensures var last := rows[|rows| - 1];
      OpenRids(rows) == OpenRids(rows[..|rows| - 1]) + (if last.terminal == Unfinished then [last.rid] else [])
  {
  }

  /** The recovery loop of `resume`: what an uninterrupted resume does to table and budget. */
  method ResumeCalls(calls: PendingCalls, budget: BudgetService)
    modifies calls, budget
    ensures calls.rows == MarkUnknown(old(calls.rows))
    ensures |calls.rows| == |old(calls.rows)|
    ensures forall i :: 0 <= i < |calls.rows| ==>
      calls.rows[i] == if old(calls.rows)[i].terminal == Unfinished then old(calls.rows)[i].(terminal := UnknownOutcome)
                       else old(calls.rows)[i]
    ensures budget.Contents() == SettleAll(old(budget.Contents()), OpenRids(old(calls.rows)))
  {
    var rids := calls.RecoverPendingModelCalls();
    for i := 0 to |rids|
      invariant calls.rows == MarkUnknown(old(calls.rows)) && rids == OpenRids(old(calls.rows))
      invariant budget.Contents() == SettleAll(old(budget.Contents()), rids[..i])
    {
      var _ := budget.SettleUncertainUsage(rids[i], Missing, None);
      assert rids[..i + 1][..i] == rids[..i];
    }
    assert rids[..|rids|] == rids;
  }

  /** How one work unit's model call ended: without a reservation, without a record of the
      call, with an outcome, or by an error that was raised. */
  datatype CallEnd = NoReservation | NotRecorded | Settled(outcome: Gateway.Outcome) | Raised

  /** The reserve, guard, send, settle and finish sequence of one work unit. The events
      returned are the run it is; an error raised on the way is, to what is stored, a crash.
      `recorded` says that the guard records the call, `present`, `failing` and `answer` are
      what the gateway and its provider do. */
  method ExecuteModelCall(calls: PendingCalls, budget: BudgetService, gateway: Gateway.ModelGateway, request: Event,
                          prepared: Gateway.Request, provider: Id, recorded: bool,
                          present: Gateway.Present, failing: set<Id>, answer: Gateway.ProviderAnswer)
    returns (end: CallEnd, ghost events: seq<Event>)
    requires request.Reserve? && request.rid !in budget.reservations && prepared.id in gateway.prepared
    modifies calls, budget, gateway
    ensures var s := State(old(budget.Contents()), old(calls.rows), Idle, {}); var s' := Run(s, events);
      && s'.budget == budget.Contents() && s'.rows == calls.rows
      && s'.stage == if end == Raised then Down else Idle
    ensures var result := Reserved(old(budget.Contents()), request.rid, request.id, request.callId, request.inputBound,
                                   request.outputMax, request.digest, request.capability).1;
      var granted := result.Ok? && result.value.Granted?;
      var permit := old(gateway.prepared)[prepared.id];
      var givenUp := old(gateway.GivenUp(provider, prepared, failing));
      var sent := granted && recorded && answer != Gateway.ProviderCancelled
                  && Gateway.PermitHolds(permit, provider, prepared, present)
                  && Gateway.ReservationMatches(result.value.reservation, prepared);
      && (end == NoReservation <==> !granted)
      && (end == NotRecorded <==> granted && !recorded && givenUp)
      && (end.Settled? <==> sent)
      && events == match end {
           case NoReservation => [request]
           case NotRecorded => [request, BeginRefused]
           case Settled(_) => [request, BeginCall, Answer(answer, permit.trusted), FinishCall]
           case Raised => if recorded then [request, BeginCall, Crash] else [request, Crash]
         }
    ensures end == NoReservation ==> budget.Contents() == old(budget.Contents())
    ensures end.Settled? ==>
      Some(end.outcome) == Gateway.Received(answer, request.inputBound + request.outputMax, old(gateway.prepared)[prepared.id].trusted)
    ensures end.Settled? ==>
      && request.rid in budget.reservations
      && budget.reservations[request.rid].state == match end.outcome.action {
           case ReleaseReservation => Released
           case SettleAsKnown => SettledKnown
           case SettleAsUncertain => SettledUncertain
         }
    ensures end == NoReservation || end == NotRecorded || (end == Raised && !recorded) ==> calls.rows == old(calls.rows)
    ensures end == Raised && recorded ==> calls.rows == old(calls.rows) + [CallRow(request.callId, request.rid, Unfinished)]
    ensures end.Settled? ==>
      && |calls.rows| == |old(calls.rows)| + 1
      && calls.rows[|old(calls.rows)|] == CallRow(request.callId, request.rid, Finished(end.outcome.state))
      && forall i :: 0 <= i < |old(calls.rows)| && old(calls.rows)[i].callId != request.callId ==> calls.rows[i] == old(calls.rows)[i]
  {
    hide Run, Reserved, ReleasedUnsent, SettledWithKnown, SettledWithUncertain, Gateway.Received, Gateway.Settled, Gateway.Consistent,
      Gateway.PermitHolds, Gateway.ReservationMatches, Gateway.ReportedCounts, SummaryOf, BudgetService.Held, Step;
    ghost var s := State(budget.Contents(), calls.rows, Idle, {});
    ghost var trusted := gateway.prepared[prepared.id].trusted;
    ghost var answered := Answer(answer, trusted);
    ReservedEffect(s.budget, request.rid, request.id, request.callId, request.inputBound, request.outputMax,
                   request.digest, request.capability);
    CallSteps(s, request, answer, trusted);
    RunFew(s, request, BeginRefused, BeginCall, answered, FinishCall);
    RunFew(s, request, Crash, BeginCall, Crash, FinishCall);
    var result := budget.PrepareReservation(request.rid, request.id, request.callId, request.inputBound, request.outputMax,
                                            request.digest, request.capability);
    if result.Err? || result.value.Denied? { return NoReservation, [request]; }
    var r := result.value.reservation;
    if !recorded {
      var ok := gateway.DiscardPrepared(provider, prepared, failing);
      if !ok { return Raised, [request, Crash]; }
      var _ := budget.ReleaseUnsentReservation(request.rid);
      return NotRecorded, [request, BeginRefused];
    }
    calls.BeginModelCall(request.callId, request.rid);
    var reply, _ := gateway.Send(provider, prepared, r, present, failing, answer);
    if !reply.Answered? { return Raised, [request, BeginCall, Crash]; }
    AnsweredUsage(answer, r.amount, trusted);
    ClosedAs(budget.Contents(), request.rid, answer, r.amount, trusted);
    var _ := Gateway.Settle(budget, request.rid, reply.outcome);
    calls.FinishModelCall(request.callId, reply.outcome.state);
    return Settled(reply.outcome), [request, BeginCall, answered, FinishCall];
  }

  /** What the events of one call do, from an idle process on. */
  lemma CallSteps(s: State, request: Event, answer: Gateway.ProviderAnswer, trusted: bool)
    requires s.stage == Idle && request.Reserve? && request.rid !in s.budget.reservations
    ensures var (b, result) := Reserved(s.budget, request.rid, request.id, request.callId, request.inputBound,
                                        request.outputMax, request.digest, request.capability);
      var s1 := Step(s, request);
      if !(result.Ok? && result.value.Granted?) then s1 == s
      else
        var s2 := Step(s1, BeginCall);
        && s1 == s.(budget := b, stage := ReservedCall(request.callId, request.rid))
        && s2 == s1.(rows := s.rows + [CallRow(request.callId, request.rid, Unfinished)],
                     stage := StartedCall(request.callId, request.rid))
        && Step(s1, BeginRefused) == s1.(budget := ReleasedUnsent(b, request.rid).0, stage := Idle)
        && Step(s1, Crash).(stranded := {}) == s1.(stage := Down, stranded := {})
        && Step(s2, Crash).(stranded := {}) == s2.(stage := Down, stranded := {})
        && request.rid in b.reservations && b.reservations[request.rid] == result.value.reservation
        && var outcome := Gateway.Received(answer, result.value.reservation.amount, trusted);
        (outcome.Some? ==>
          var s3 := Step(s2, Answer(answer, trusted));
          && s3 == s2.(budget := Gateway.Settled(b, request.rid, outcome.value).0,
                       stage := SettledCall(request.callId, outcome.value.state))
          && Step(s3, FinishCall) == s3.(rows := MarkFinished(s3.rows, request.callId, outcome.value.state), stage := Idle))
  {
    hide Reserved, ReleasedUnsent, Gateway.Received, Gateway.Settled, MarkFinished;
    ReservedEffect(s.budget, request.rid, request.id, request.callId, request.inputBound, request.outputMax,
                   request.digest, request.capability);
  }

  lemma AnsweredUsage(answer: Gateway.ProviderAnswer, amount: nat, trusted: bool)
    requires Gateway.Received(answer, amount, trusted).Some?
    ensures Gateway.Received(answer, amount, trusted).value.usage.Valid() && answer != Gateway.ProviderCancelled
  {
    CancelledHasNone(answer, amount, trusted);
    Gateway.OutcomeUsage(answer, amount, trusted);
    Gateway.ConsistentUsage(Gateway.Received(answer, amount, trusted).value, amount);
  }

  lemma ClosedAs(b: BudgetState, rid: Id, answer: Gateway.ProviderAnswer, amount: nat, trusted: bool)
    requires Closable(b, rid) == None && Gateway.Received(answer, amount, trusted).Some?
    ensures var outcome := Gateway.Received(answer, amount, trusted).value;
      var b' := Gateway.Settled(b, rid, outcome).0;
      && rid in b'.reservations
      && b'.reservations[rid].state == match outcome.action {
           case ReleaseReservation => Released
           case SettleAsKnown => SettledKnown
           case SettleAsUncertain => SettledUncertain
         }
  {
    hide Gateway.Received;
    CancelledHasNone(answer, amount, trusted);
    Gateway.OutcomeUsage(answer, amount, trusted);
  }

  lemma RunFew(s: State, a: Event, b: Event, c: Event, d: Event, e: Event)
    ensures Run(s, [a]) == Step(s, a)
    ensures Run(s, [a, b]) == Step(Step(s, a), b)
    ensures Run(s, [a, c, d]) == Step(Step(Step(s, a), c), d)
    ensures Run(s, [a, c, d, e]) == Step(Step(Step(Step(s, a), c), d), e)
  {
    hide Step;
    assert Run(s, [a]) == Step(Run(s, [a][..0]), a);
    assert Run(s, [a, c]) == Step(Run(s, [a, c][..1]), c);
    assert Run(s, [a, c, d]) == Step(Run(s, [a, c, d][..2]), d);
    assert Run(s, [a, c, d, e]) == Step(Run(s, [a, c, d, e][..3]), e);
    assert [a][..0] == [] && [a, b][..1] == [a];
    assert [a, c][..1] == [a] && [a, c, d][..2] == [a, c] && [a, c, d, e][..3] == [a, c, d];
  }
}
