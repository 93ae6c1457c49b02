/** What holds of every account after any sequence of budget operations. */
module BudgetTheorems {
  import opened Wrappers
  import opened BudgetLedger
  import opened Budget
  import opened BudgetSafety

  /** An account that is open and not pending revalidation has committed no more than is
      authorized, never more than a million; and whatever its state, it is in deficit by no
      more than settlements went beyond their reservations. */
  lemma SpendingIsBounded(ops: seq<Op>, id: Id)
    requires id in Run(Empty, ops).accounts
    ensures id in Run(Empty, ops).entries
    ensures var s := Run(Empty, ops); var p := SummaryOf(s, id);
      && p.authorized <= MAX_AUTHORIZATION
      && (s.accounts[id].state == Open && !s.accounts[id].pendingRevalidation ==> p.Committed() <= p.authorized)
      && p.deficit <= TotalsOf(s.reservations, id).excess
  {
    RunInv(ops);
    InvAccount(Run(Empty, ops), id);
  }

  /** The summary projected from the ledger is what the reservations add up to: reserved
      amounts of active and of released ones, actual usage of those settled as known and as
      uncertain, and the overage of the known ones. */
  lemma LedgerAgreesWithReservations(ops: seq<Op>, id: Id)
    requires id in Run(Empty, ops).accounts
    ensures id in Run(Empty, ops).entries
    ensures var s := Run(Empty, ops); var p, t := SummaryOf(s, id), TotalsOf(s.reservations, id);
      && p.active == t.active && p.released == t.released && p.known == t.known
      && p.uncertain == t.uncertain && p.overage == t.overage
  {
    RunInv(ops);
    InvAccount(Run(Empty, ops), id);
  }

  // ----- what a reservation covers -----------------------------------------------------------

  ghost predicate Covering(s: BudgetState) {
    forall rid :: rid in s.reservations ==>
      s.reservations[rid].amount == s.reservations[rid].inputBound + s.reservations[rid].outputMax
  }

  /** Every reservation, open or closed, is for the whole of its call: input bound and output
      maximum together. */
  lemma {:induction false} ReservationsCoverTheirCalls(ops: seq<Op>)
    ensures forall rid :: rid in Run(Empty, ops).reservations ==>
      var r := Run(Empty, ops).reservations[rid];
      r.amount == r.inputBound + r.outputMax
  {
    assert Covering(Empty);
    if ops != [] {
      ReservationsCoverTheirCalls(ops[..|ops| - 1]);
      var s := Run(Empty, ops[..|ops| - 1]);
      assert Covering(s);
      StaysCovering(s, ops[|ops| - 1]);
      assert Covering(Run(Empty, ops));
    }
  }

  lemma StaysCovering(s: BudgetState, op: Op)
    requires Covering(s)
    ensures Covering(Apply(s, op))
  {
    hide Project;
  }

  /** A reservation is granted exactly if the account is open and not pending revalidation,
      the call is new, the capability is valid and the account's own, both its digests are
      the request's, the bounds are not negative and not both zero, and what is committed
      already leaves room for both of them. */
  lemma GrantedIffCovered(s: BudgetState, rid: Id, id: Id, callId: Id, inputBound: int, outputMax: int, digest: Id, capability: Capability)
    ensures var result := Reserved(s, rid, id, callId, inputBound, outputMax, digest, capability).1;
      result.Ok? && result.value.Granted? <==>
        && id in s.accounts && id in s.entries
        && s.accounts[id].state == Open && !s.accounts[id].pendingRevalidation && callId !in s.calls
        && capability.valid && capability.id == s.accounts[id].capabilityRef
        && capability.preparedDigest == digest == capability.countedDigest
        && 0 <= inputBound && 0 <= outputMax && 0 < inputBound + outputMax
        && var p := SummaryOf(s, id); p.known + p.uncertain + p.active + inputBound + outputMax <= p.authorized
  {
    hide Amount, ClosedAmount, LastVersion;
  }

  /** After any sequence of operations: a granted reservation raises the active amount by the
      two bounds together, and nothing else in any summary. */
  lemma GrantRaisesActive(ops: seq<Op>, rid: Id, id: Id, callId: Id, inputBound: int, outputMax: int, digest: Id, capability: Capability)
    requires var result := Reserved(Run(Empty, ops), rid, id, callId, inputBound, outputMax, digest, capability).1;
      result.Ok? && result.value.Granted?
    ensures var s := Run(Empty, ops);
      var s' := Reserved(s, rid, id, callId, inputBound, outputMax, digest, capability).0;
      && id in s.accounts && id in s.entries && s'.accounts.Keys == s.accounts.Keys && s'.entries.Keys == s.entries.Keys
      && var p, p' := SummaryOf(s, id), SummaryOf(s', id);
      && p'.active == p.active + inputBound + outputMax
      && p'.known == p.known && p'.uncertain == p.uncertain && p'.authorized == p.authorized
      && p'.released == p.released && p'.overage == p.overage
      && forall other :: other in s.accounts && other in s.entries && other != id ==> SummaryOf(s', other) == SummaryOf(s, other)
  {
    hide Inv, AccountOk, TotalsOf, Amount, ClosedAmount, LastVersion, Reserved, Run;
    var s := Run(Empty, ops);
    RunInv(ops);
    InvShape(s);
    ReserveEffect(s, rid, id, callId, inputBound, outputMax, digest, capability);
    ReservedAmount(s, rid, id, callId, inputBound, outputMax, digest, capability);
    NeverOverclosed(s, id);
    AppendAmounts(s.entries[id], Entry(ReservationCreated, inputBound + outputMax, s.accounts[id].lastSequence + 1, 0));
  }

  lemma ReservedAmount(s: BudgetState, rid: Id, id: Id, callId: Id, inputBound: int, outputMax: int, digest: Id, capability: Capability)
    requires var result := Reserved(s, rid, id, callId, inputBound, outputMax, digest, capability).1;
      result.Ok? && result.value.Granted?
    ensures Reserved(s, rid, id, callId, inputBound, outputMax, digest, capability).1.value.reservation.amount == inputBound + outputMax
  {
  }

  lemma NeverOverclosed(s: BudgetState, id: Id)
    requires Inv(s) && id in s.accounts && id in s.entries
    ensures ClosedAmount(s.entries[id]) <= Amount(s.entries[id], ReservationCreated)
  {
    InvAccount(s, id);
  }

  /** An account that is frozen or pending revalidation. */
  predicate Stopped(account: Account) {
    account.state != Open || account.pendingRevalidation
  }

  /** A stopped account goes on only by an explicit resume under its own, valid capability,
      with everything it has committed authorized. */
  lemma ReopenedOnlyOnResume(s: BudgetState, op: Op, id: Id)
    requires Shaped(s) && id in s.accounts && Stopped(s.accounts[id])
    ensures id in Apply(s, op).accounts
    ensures !Stopped(Apply(s, op).accounts[id]) ==>
      && id in s.entries && op.UnfreezeOp? && op.id == id
      && op.explicitResume && op.capability.valid && op.capability.id == s.accounts[id].capabilityRef
      && var p := SummaryOf(s, id); p.known + p.uncertain + p.active <= p.authorized
  {
    hide SummaryOf, Reserved, SettledWithKnown, SettledWithUncertain, Unfrozen;
    match op
    case ReserveOp(rid, a, callId, inputBound, outputMax, digest, capability) =>
      ReservedStays(s, rid, a, callId, inputBound, outputMax, digest, capability, id);
    case SettleKnownOp(rid, inputTokens, outputTokens) => KnownStays(s, rid, inputTokens, outputTokens, id);
    case SettleUncertainOp(rid, usage, reported) => UncertainStays(s, rid, usage, reported, id);
    case UnfreezeOp(a, capability, explicitResume) => ResumeOpens(s, a, capability, explicitResume, id);
    case _ =>
  }

  lemma ReservedStays(s: BudgetState, rid: Id, a: Id, callId: Id, inputBound: int, outputMax: int, digest: Id, capability: Capability, id: Id)
    requires id in s.accounts && Stopped(s.accounts[id])
    ensures var s' := Reserved(s, rid, a, callId, inputBound, outputMax, digest, capability).0;
      id in s'.accounts && Stopped(s'.accounts[id])
  {
    hide SummaryOf;
  }

  lemma KnownStays(s: BudgetState, rid: Id, inputTokens: nat, outputTokens: nat, id: Id)
    requires id in s.accounts && Stopped(s.accounts[id])
    ensures var s' := SettledWithKnown(s, rid, inputTokens, outputTokens).0; id in s'.accounts && Stopped(s'.accounts[id])
  {
  }

  lemma UncertainStays(s: BudgetState, rid: Id, usage: UsageState, reported: Option<int>, id: Id)
    requires id in s.accounts && Stopped(s.accounts[id])
    ensures var s' := SettledWithUncertain(s, rid, usage, reported).0; id in s'.accounts && Stopped(s'.accounts[id])
  {
  }

  lemma ResumeOpens(s: BudgetState, a: Id, capability: Capability, explicitResume: bool, id: Id)
    requires id in s.accounts && Stopped(s.accounts[id])
    ensures var s' := Unfrozen(s, a, capability, explicitResume).0;
      && id in s'.accounts
      && (!Stopped(s'.accounts[id]) ==>
            && a == id && id in s.entries && explicitResume && capability.valid && capability.id == s.accounts[id].capabilityRef
            && SummaryOf(s, id).known + SummaryOf(s, id).uncertain + SummaryOf(s, id).active <= SummaryOf(s, id).authorized)
  {
    hide Project;
  }

  /** What is left and what is owed follow from what is authorized and what is committed. */
  lemma SummaryBalances(s: BudgetState, id: Id)
    requires id in s.accounts && id in s.entries
    ensures var p := SummaryOf(s, id);
      && (p.known + p.uncertain + p.active <= p.authorized ==>
            p.remaining == p.authorized - (p.known + p.uncertain + p.active) && p.deficit == 0)
      && (p.known + p.uncertain + p.active > p.authorized ==>
            p.deficit == p.known + p.uncertain + p.active - p.authorized && p.remaining == 0)
      && p.spendable == (if s.accounts[id].state == Open && !s.accounts[id].pendingRevalidation then p.remaining else 0)
      && p.state == s.accounts[id].state && p.pendingRevalidation == s.accounts[id].pendingRevalidation
  {
    hide Amount, ClosedAmount, LastVersion;
  }

  /** What is authorized is the initial amount and what has been added since. */
  lemma AuthorizationsAddUp(s: BudgetState, op: Op, id: Id)
    requires Shaped(s) && id in Apply(s, op).accounts && id in Apply(s, op).entries
    requires id in s.accounts ==> op.AuthorizeOp?
    requires id !in s.accounts ==> op.CreateOp?
    ensures var p := SummaryOf(Apply(s, op), id);
      if id !in s.accounts then p.authorized == op.requested
      else if op.id == id && Authorize(s, id, op.amount).1 == None then p.authorized == SummaryOf(s, id).authorized + op.amount
      else p.authorized == SummaryOf(s, id).authorized
  {
    hide ClosedAmount, LastVersion;
    if id !in s.accounts {
      AppendAmounts([], Entry(AuthorizationInitial, op.requested, 1, 0));
      assert [] + [Entry(AuthorizationInitial, op.requested, 1, 0)] == [Entry(AuthorizationInitial, op.requested, 1, 0)];
    } else if op.amount > 0 {
      AppendAmounts(s.entries[id], Entry(AuthorizationAdded, op.amount, s.accounts[id].lastSequence + 1, 0));
    }
  }

  // ----- ledger versions -------------------------------------------------------------------

  ghost predicate NonDecreasing(entries: seq<Entry>) {
    forall i, j :: 0 <= i < j < |entries| ==> entries[i].sequence <= entries[j].sequence
  }

  ghost predicate StrictlyIncreasing(entries: seq<Entry>) {
    forall i, j :: 0 <= i < j < |entries| ==> entries[i].sequence < entries[j].sequence
  }

  lemma {:induction false} NumberedOrder(entries: seq<Entry>, i: nat, j: nat)
    requires forall k :: 0 <= k < |entries| - 1 ==>
      entries[k + 1].sequence == entries[k].sequence + (if entries[k].kind == AuthorizationAdded then 0 else 1)
    requires i <= j < |entries|
    ensures entries[i].sequence <= entries[j].sequence
    ensures i < j && entries[i].kind != AuthorizationAdded ==> entries[i].sequence < entries[j].sequence
    decreases j - i
  {
    if i < j { NumberedOrder(entries, i + 1, j); }
  }

  /** Sequence numbers never fall; they are strictly increasing exactly when no entry
      follows an added authorization. */
  lemma SequencesIncreaseUnlessAuthorized(ops: seq<Op>, id: Id)
    requires id in Run(Empty, ops).entries
    ensures var entries := Run(Empty, ops).entries[id];
      && NonDecreasing(entries)
      && (StrictlyIncreasing(entries) <==>
            forall i :: 0 <= i < |entries| - 1 ==> entries[i].kind != AuthorizationAdded)
  {
    RunInv(ops);
    InvAccount(Run(Empty, ops), id);
    var entries := Run(Empty, ops).entries[id];
    forall i, j | 0 <= i < j < |entries|
      ensures entries[i].sequence <= entries[j].sequence
      ensures entries[i].kind != AuthorizationAdded ==> entries[i].sequence < entries[j].sequence
    {
      NumberedOrder(entries, i, j);
    }
    forall i | 0 <= i < |entries| - 1 && entries[i].kind == AuthorizationAdded ensures !StrictlyIncreasing(entries) {
      assert entries[i].sequence == entries[i + 1].sequence;
    }
  }

  lemma {:induction false} UpToIsPrefix(entries: seq<Entry>, version: nat)
    requires NonDecreasing(entries)
    ensures UpTo(entries, version) <= entries
    decreases |entries|
  {
    hide UpTo;
    if entries == [] {
      UpToNone(version);
    } else {
      var init, last := entries[..|entries| - 1], entries[|entries| - 1];
      assert entries == init + [last];
      UpToLast(init, last, version);
      if last.sequence <= version {
        UpToAll(init, version);
      } else {
        UpToIsPrefix(init, version);
      }
    }
  }

  lemma UpToNone(version: nat)
    ensures UpTo([], version) == []
  {
  }

  lemma UpToLast(init: seq<Entry>, last: Entry, version: nat)
    ensures UpTo(init + [last], version) == UpTo(init, version) + (if last.sequence <= version then [last] else [])
  {
    assert (init + [last])[..|init|] == init;
  }

  lemma {:induction false} UpToAll(entries: seq<Entry>, version: nat)
    requires forall i :: 0 <= i < |entries| ==> entries[i].sequence <= version
    ensures UpTo(entries, version) == entries
  {
    hide UpTo;
    if entries == [] {
      UpToNone(version);
    } else {
      var init, last := entries[..|entries| - 1], entries[|entries| - 1];
      UpToAll(init, version);
      UpToLast(init, last, version);
      assert entries == init + [last];
    }
  }

  /** A historical version is a prefix of the ledger, and in every one of them as much has
      been reserved as closed: the clamp of the active amount to zero never takes effect. */
  lemma HistoricalActiveIsExact(ops: seq<Op>, id: Id, version: nat)
    requires id in Run(Empty, ops).entries
    ensures var entries := Run(Empty, ops).entries[id]; var past := UpTo(entries, version);
      && past <= entries
      && ClosedAmount(past) <= Amount(past, ReservationCreated)
      && forall state, pending :: Project(state, past, pending).active == Amount(past, ReservationCreated) - ClosedAmount(past)
  {
    SequencesIncreaseUnlessAuthorized(ops, id);
    RunInv(ops);
    var s := Run(Empty, ops);
    InvAccount(s, id);
    var past := UpTo(s.entries[id], version);
    UpToIsPrefix(s.entries[id], version);
    assert NeverNegative(s.entries[id]);
    assert past == s.entries[id][..|past|];
  }

  lemma {:induction false} LastVersionIsLast(entries: seq<Entry>)
    requires NonDecreasing(entries) && entries != []
    ensures LastVersion(entries) == entries[|entries| - 1].sequence
  {
    if |entries| > 1 {
      LastVersionIsLast(entries[..|entries| - 1]);
    }
  }

  /** The ledger version a summary reports can be asked for again exactly when the last
      entry is not an added authorization. */
  lemma ReportedVersionAvailable(ops: seq<Op>, id: Id)
    requires id in Run(Empty, ops).accounts
    ensures id in Run(Empty, ops).entries && Run(Empty, ops).entries[id] != []
    ensures var s := Run(Empty, ops); var entries := s.entries[id];
      GetSummary(s, id, Some(SummaryOf(s, id).ledgerVersion)).Ok? <==> entries[|entries| - 1].kind != AuthorizationAdded
  {
    RunInv(ops);
    InvAccount(Run(Empty, ops), id);
    SequencesIncreaseUnlessAuthorized(ops, id);
    LastVersionIsLast(Run(Empty, ops).entries[id]);
  }

  /** Right after an added authorization the version the summary reports is refused. */
  lemma ReportedVersionRefused()
    ensures var s := Run(Empty, [CreateOp(1, 1, 10, 7), AuthorizeOp(1, 5)]);
      && 1 in s.accounts && 1 in s.entries
      && GetSummary(s, 1, Some(SummaryOf(s, 1).ledgerVersion)) == Err(VersionNotAvailable)
  {
    hide Run, Authorize, Created, GetSummary, SummaryOf;
    var ops := [CreateOp(1, 1, 10, 7), AuthorizeOp(1, 5)];
    RunTwo(Empty, ops[0], ops[1]);
    var s1 := Created(Empty, 1, 1, 10, 7).0;
    OneAccount(s1);
    AddedFive(s1, Authorize(s1, 1, 5).0);
    ReportedVersionAvailable(ops, 1);
    OnlyVersionFails(Run(Empty, ops), 1, SummaryOf(Run(Empty, ops), 1).ledgerVersion);
  }

  lemma OnlyVersionFails(s: BudgetState, id: Id, version: int)
    requires id in s.accounts && id in s.entries
    ensures GetSummary(s, id, Some(version)).Ok? || GetSummary(s, id, Some(version)) == Err(VersionNotAvailable)
  {
    hide Project, UpTo;
  }

  lemma RunTwo(s: BudgetState, a: Op, b: Op)
    ensures Run(s, [a, b]) == Apply(Apply(s, a), b)
  {
    hide Apply;
    assert [a, b][..1] == [a] && [a][..0] == [];
    assert Run(s, [a]) == Apply(Run(s, []), a);
  }

  lemma OneAccount(s: BudgetState)
    requires s == Created(Empty, 1, 1, 10, 7).0
    ensures s.accounts.Keys == {1} && s.entries == map[1 := [Entry(AuthorizationInitial, 10, 1, 0)]]
    ensures SummaryOf(s, 1).authorized == 10
  {
    var first := Entry(AuthorizationInitial, 10, 1, 0);
    AppendAmounts([], first);
    assert [] + [first] == [first];
  }

  lemma AddedFive(s: BudgetState, s': BudgetState)
    requires s.accounts.Keys == {1} && s.entries.Keys == {1} && SummaryOf(s, 1).authorized == 10
    requires s' == Authorize(s, 1, 5).0
    ensures s'.accounts.Keys == {1} && s'.entries.Keys == {1}
    ensures s'.entries[1] == s.entries[1] + [Entry(AuthorizationAdded, 5, s.accounts[1].lastSequence + 1, 0)]
  {
    hide SummaryOf;
  }
}
