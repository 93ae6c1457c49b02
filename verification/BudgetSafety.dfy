/** What every sequence of budget operations keeps: the ledger agrees with the
    reservations, nothing is spent beyond the authorization while an account is open, and
    how far ledger sequence numbers can be relied on. */
module BudgetSafety {
  import opened Wrappers
  import opened BudgetLedger
  import opened Budget

  // ----- runs ------------------------------------------------------------------------

  datatype Op =
    | CreateOp(id: Id, taskId: Id, requested: int, capabilityRef: Id)
    | ReserveOp(rid: Id, id: Id, callId: Id, inputBound: int, outputMax: int, requestDigest: Id, capability: Capability)
    | ReleaseOp(rid: Id)
    | SettleKnownOp(rid: Id, inputTokens: nat, outputTokens: nat)
    | SettleUncertainOp(rid: Id, usage: UsageState, reported: Option<int>)
    | AuthorizeOp(id: Id, amount: int)
    | UnfreezeOp(id: Id, capability: Capability, explicitResume: bool)

  /** One operation. Account and reservation ids are drawn fresh. */
  function Apply(s: BudgetState, op: Op): BudgetState {
    match op
    case CreateOp(id, taskId, requested, ref) =>
      if id in s.accounts then s else Created(s, id, taskId, requested, ref).0
    case ReserveOp(rid, id, callId, inputBound, outputMax, digest, capability) =>
      if rid in s.reservations then s
      else Reserved(s, rid, id, callId, inputBound, outputMax, digest, capability).0
    case ReleaseOp(rid) => ReleasedUnsent(s, rid).0
    case SettleKnownOp(rid, inputTokens, outputTokens) => SettledWithKnown(s, rid, inputTokens, outputTokens).0
    case SettleUncertainOp(rid, usage, reported) => SettledWithUncertain(s, rid, usage, reported).0
    case AuthorizeOp(id, amount) => Authorize(s, id, amount).0
    case UnfreezeOp(id, capability, explicitResume) => Unfrozen(s, id, capability, explicitResume).0
  }

  function Run(s: BudgetState, ops: seq<Op>): BudgetState {
    if ops == [] then s else Apply(Run(s, ops[..|ops| - 1]), ops[|ops| - 1])
  }

  // ----- sums over the reservations ----------------------------------------------------

  ghost function Sum(m: map<Id, Reservation>, weight: Reservation -> nat): nat {
    if m == map[] then 0
    else
      var k :| k in m;
      weight(m[k]) + Sum(m - {k}, weight)
  }

  lemma {:induction false} SumTakeOut(m: map<Id, Reservation>, weight: Reservation -> nat, k: Id)
    requires k in m
    ensures Sum(m, weight) == weight(m[k]) + Sum(m - {k}, weight)
    decreases |m|
  {
    var j :| j in m && Sum(m, weight) == weight(m[j]) + Sum(m - {j}, weight);
    if j != k {
      SumTakeOut(m - {j}, weight, k);
      SumTakeOut(m - {k}, weight, j);
      assert m - {j} - {k} == m - {k} - {j};
    }
  }

  lemma SumPut(m: map<Id, Reservation>, weight: Reservation -> nat, k: Id, r: Reservation)
    ensures Sum(m[k := r], weight) == Sum(m, weight) + weight(r) - (if k in m then weight(m[k]) else 0)
  {
    SumTakeOut(m[k := r], weight, k);
    assert m[k := r] - {k} == m - {k};
    if k in m { SumTakeOut(m, weight, k); } else { assert m - {k} == m; }
  }

  lemma {:induction false} SumOfNone(m: map<Id, Reservation>, weight: Reservation -> nat)
    requires forall k :: k in m ==> weight(m[k]) == 0
    ensures Sum(m, weight) == 0
    decreases |m|
  {
    if m != map[] {
      var k :| k in m && Sum(m, weight) == weight(m[k]) + Sum(m - {k}, weight);
      SumOfNone(m - {k}, weight);
    }
  }

  function Actual(r: Reservation): nat {
    if r.actual.Some? then r.actual.value else 0
  }

  /** What reservations add up to, by state: reserved amounts while active or released,
      actual usage once settled, the recorded overage, and how far settlements of either
      kind went beyond their reservations. */
  datatype Totals = Totals(active: int, released: int, known: int, uncertain: int, overage: int, excess: int)
  {
    predicate Natural() {
      active >= 0 && released >= 0 && known >= 0 && uncertain >= 0 && overage >= 0 && excess >= 0
    }

    function Plus(t: Totals): Totals {
      Totals(active + t.active, released + t.released, known + t.known, uncertain + t.uncertain,
             overage + t.overage, excess + t.excess)
    }

    function Minus(t: Totals): Totals {
      Totals(active - t.active, released - t.released, known - t.known, uncertain - t.uncertain,
             overage - t.overage, excess - t.excess)
    }
  }

  const Zero := Totals(0, 0, 0, 0, 0, 0)

  /** What one reservation contributes to the totals of account `id`. */
  function Share(r: Reservation, id: Id): (t: Totals)
    ensures t.Natural()
  {
    if r.accountId != id then Zero
    else match r.state
      case Active => Zero.(active := r.amount)
      case Released => Zero.(released := r.amount)
      case SettledKnown =>
        var over := Max(0, Actual(r) - r.amount);
        Zero.(known := Actual(r), overage := over, excess := over)
      case SettledUncertain => Zero.(uncertain := Actual(r), excess := Max(0, Actual(r) - r.amount))
  }

  ghost function TotalsOf(rs: map<Id, Reservation>, id: Id): Totals {
    Totals(Sum(rs, (r: Reservation) => Share(r, id).active),
           Sum(rs, (r: Reservation) => Share(r, id).released),
           Sum(rs, (r: Reservation) => Share(r, id).known),
           Sum(rs, (r: Reservation) => Share(r, id).uncertain),
           Sum(rs, (r: Reservation) => Share(r, id).overage),
           Sum(rs, (r: Reservation) => Share(r, id).excess))
  }

  lemma TotalsPut(rs: map<Id, Reservation>, rid: Id, r: Reservation, id: Id)
    ensures TotalsOf(rs[rid := r], id) ==
            TotalsOf(rs, id).Minus(if rid in rs then Share(rs[rid], id) else Zero).Plus(Share(r, id))
  {
    hide Share;
    SumPut(rs, (r: Reservation) => Share(r, id).active, rid, r);
    SumPut(rs, (r: Reservation) => Share(r, id).released, rid, r);
    SumPut(rs, (r: Reservation) => Share(r, id).known, rid, r);
    SumPut(rs, (r: Reservation) => Share(r, id).uncertain, rid, r);
    SumPut(rs, (r: Reservation) => Share(r, id).overage, rid, r);
    SumPut(rs, (r: Reservation) => Share(r, id).excess, rid, r);
  }

  lemma TotalsOfNone(rs: map<Id, Reservation>, id: Id)
    requires forall k :: k in rs ==> rs[k].accountId != id
    ensures TotalsOf(rs, id) == Zero
  {
    SumOfNone(rs, (r: Reservation) => Share(r, id).active);
    SumOfNone(rs, (r: Reservation) => Share(r, id).released);
    SumOfNone(rs, (r: Reservation) => Share(r, id).known);
    SumOfNone(rs, (r: Reservation) => Share(r, id).uncertain);
    SumOfNone(rs, (r: Reservation) => Share(r, id).overage);
    SumOfNone(rs, (r: Reservation) => Share(r, id).excess);
  }

  // ----- the invariant -----------------------------------------------------------------

  /** The ledger of an account says what its reservations say. */
  ghost predicate Agrees(entries: seq<Entry>, t: Totals) {
    && Amount(entries, ReservationCreated) - ClosedAmount(entries) == t.active
    && Amount(entries, ReservationReleased) == t.released
    && Amount(entries, UsageSettled) == t.known
    && Amount(entries, UnknownCommitted) == t.uncertain
    && Amount(entries, UsageOverageRecorded) == t.overage
  }

  /** At no point of the ledger has more been closed than created. */
  ghost predicate NeverNegative(entries: seq<Entry>) {
    forall i :: 0 <= i <= |entries| ==> ClosedAmount(entries[..i]) <= Amount(entries[..i], ReservationCreated)
  }

  ghost predicate WithinAuthorization(account: Account, authorized: nat, t: Totals) {
    && 1 <= authorized <= MAX_AUTHORIZATION
    && (account.state == Open && !account.pendingRevalidation ==> t.known + t.uncertain + t.active <= authorized)
    && t.known + t.uncertain + t.active <= authorized + t.excess
  }

  /** Each entry is numbered one past the one before, except that the entry after an
      authorization repeats its number. */
  ghost predicate Numbered(lastSequence: nat, entries: seq<Entry>) {
    && entries != []
    && (forall i :: 0 <= i < |entries| - 1 ==>
          entries[i + 1].sequence == entries[i].sequence + (if entries[i].kind == AuthorizationAdded then 0 else 1))
    && entries[|entries| - 1].sequence == lastSequence + (if entries[|entries| - 1].kind == AuthorizationAdded then 1 else 0)
  }

  ghost predicate AccountOk(account: Account, entries: seq<Entry>, t: Totals) {
    && Agrees(entries, t)
    && NeverNegative(entries)
    && WithinAuthorization(account, Authorized(entries), t)
    && Numbered(account.lastSequence, entries)
  }

  ghost predicate Inv(s: BudgetState) {
    && Shaped(s)
    && (forall rid :: rid in s.reservations ==> s.reservations[rid].accountId in s.accounts && s.reservations[rid].amount > 0)
    && (forall id :: id in s.accounts ==> AccountOk(s.accounts[id], s.entries[id], TotalsOf(s.reservations, id)))
  }

  // ----- one more entry --------------------------------------------------------------------

  lemma AppendAmounts(entries: seq<Entry>, e: Entry)
    ensures forall kind :: Amount(entries + [e], kind) == Amount(entries, kind) + (if e.kind == kind then e.amount else 0)
    ensures ClosedAmount(entries + [e]) == ClosedAmount(entries) + (if Closes(e.kind) then e.reservationAmount else 0)
  {
    assert (entries + [e])[..|entries + [e]| - 1] == entries;
  }

  lemma AppendNeverNegative(entries: seq<Entry>, e: Entry)
    requires NeverNegative(entries)
    requires ClosedAmount(entries + [e]) <= Amount(entries + [e], ReservationCreated)
    ensures NeverNegative(entries + [e])
  {
    var after := entries + [e];
    forall i | 0 <= i <= |after| ensures ClosedAmount(after[..i]) <= Amount(after[..i], ReservationCreated) {
      if i == |after| { assert after[..i] == after; } else { assert after[..i] == entries[..i]; }
    }
  }

  /** What an entry does to the totals of its account. */
  function EntryShare(e: Entry): Totals {
    Totals((if e.kind == ReservationCreated then e.amount else 0) - (if Closes(e.kind) then e.reservationAmount else 0),
           if e.kind == ReservationReleased then e.amount else 0,
           if e.kind == UsageSettled then e.amount else 0,
           if e.kind == UnknownCommitted then e.amount else 0,
           if e.kind == UsageOverageRecorded then e.amount else 0,
           0)
  }

  function Added(e: Entry): nat {
    if e.kind == AuthorizationInitial || e.kind == AuthorizationAdded then e.amount else 0
  }

  lemma AppendOk(account: Account, account': Account, entries: seq<Entry>, t: Totals, e: Entry, excess: nat)
    requires AccountOk(account, entries, t) && e.sequence == account.lastSequence + 1
    requires account'.lastSequence == account.lastSequence + (if e.kind == AuthorizationAdded then 0 else 1)
    requires t.active + EntryShare(e).active >= 0
    requires WithinAuthorization(account', Authorized(entries) + Added(e), t.Plus(EntryShare(e)).(excess := excess))
    ensures AccountOk(account', entries + [e], t.Plus(EntryShare(e)).(excess := excess))
  {
    AppendAmounts(entries, e);
    AppendNeverNegative(entries, e);
    hide NeverNegative, Amount, ClosedAmount;
  }

  // ----- the operations ------------------------------------------------------------------

  /** The reservations changed in at most one place, about account `id`. */
  ghost predicate OnlyAbout(rs: map<Id, Reservation>, rs': map<Id, Reservation>, id: Id) {
    rs' == rs || exists rid :: PutAbout(rs, rs', id, rid)
  }

  ghost predicate PutAbout(rs: map<Id, Reservation>, rs': map<Id, Reservation>, id: Id, rid: Id) {
    && rid in rs' && rs'[rid].accountId == id && rs'[rid].amount > 0 && rs' == rs[rid := rs'[rid]]
    && (rid in rs ==> rs[rid].accountId == id)
  }

  /** What an operation does to one account suffices, when it leaves the others alone. */
  lemma StepKeeps(s: BudgetState, s': BudgetState, id: Id)
    requires Inv(s) && Shaped(s') && s'.accounts.Keys == s.accounts.Keys + {id}
    requires OnlyAbout(s.reservations, s'.reservations, id)
    requires forall other :: other in s.accounts && other != id ==>
      s'.accounts[other] == s.accounts[other] && s'.entries[other] == s.entries[other]
    requires AccountOk(s'.accounts[id], s'.entries[id], TotalsOf(s'.reservations, id))
    ensures Inv(s')
  {
    hide AccountOk, TotalsOf, Share;
    forall other | other in s'.accounts
      ensures AccountOk(s'.accounts[other], s'.entries[other], TotalsOf(s'.reservations, other))
    {
      if other != id { OtherTotals(s.reservations, s'.reservations, id, other); }
    }
  }

  lemma OtherTotals(rs: map<Id, Reservation>, rs': map<Id, Reservation>, id: Id, other: Id)
    requires OnlyAbout(rs, rs', id) && id != other
    ensures TotalsOf(rs', other) == TotalsOf(rs, other)
  {
    hide TotalsOf;
    if rs' != rs {
      var rid :| PutAbout(rs, rs', id, rid);
      TotalsPut(rs, rid, rs'[rid], other);
    }
  }

  lemma InvAccount(s: BudgetState, id: Id)
    requires Inv(s) && id in s.accounts
    ensures id in s.entries && AccountOk(s.accounts[id], s.entries[id], TotalsOf(s.reservations, id))
    ensures WithinAuthorization(s.accounts[id], Authorized(s.entries[id]), TotalsOf(s.reservations, id))
    ensures var t, p := TotalsOf(s.reservations, id), SummaryOf(s, id);
      && p.authorized == Authorized(s.entries[id]) && p.known == t.known && p.uncertain == t.uncertain
      && p.active == t.active && p.released == t.released && p.overage == t.overage
      && t.excess >= 0
  {
    var entries := s.entries[id];
    assert entries[..|entries|] == entries;
  }

  lemma CreateKeeps(s: BudgetState, id: Id, taskId: Id, requested: int, ref: Id)
    requires Inv(s) && id !in s.accounts
    ensures Inv(Created(s, id, taskId, requested, ref).0)
  {
    hide Inv, AccountOk, TotalsOf;
    var s' := Created(s, id, taskId, requested, ref).0;
    if s' != s {
      InvShape(s);
      TotalsOfNone(s.reservations, id);
      FirstEntryOk(s'.accounts[id], requested);
      StepKeeps(s, s', id);
    }
  }

  lemma FirstEntryOk(account: Account, requested: nat)
    requires account.lastSequence == 1 && 1 <= requested <= MAX_AUTHORIZATION
    ensures AccountOk(account, [Entry(AuthorizationInitial, requested, 1, 0)], Zero)
  {
    var e := Entry(AuthorizationInitial, requested, 1, 0);
    AppendAmounts([], e);
    AppendNeverNegative([], e);
    assert [] + [e] == [e];
  }

  /** A change of one reservation of account `id`, with the ledger to match. */
  lemma ReservationStepKeeps(s: BudgetState, s': BudgetState, id: Id, rid: Id)
    requires Inv(s) && id in s.accounts && Shaped(s') && s'.accounts.Keys == s.accounts.Keys
    requires PutAbout(s.reservations, s'.reservations, id, rid)
    requires forall other :: other in s.accounts && other != id ==>
      s'.accounts[other] == s.accounts[other] && s'.entries[other] == s.entries[other]
    requires AccountOk(s'.accounts[id], s'.entries[id],
               TotalsOf(s.reservations, id)
                 .Minus(if rid in s.reservations then Share(s.reservations[rid], id) else Zero)
                 .Plus(Share(s'.reservations[rid], id)))
    ensures Inv(s')
  {
    hide AccountOk, TotalsOf, Share, Inv;
    TotalsPut(s.reservations, rid, s'.reservations[rid], id);
    StepKeeps(s, s', id);
  }

  /** What a granted reservation writes. */
  lemma ReserveEffect(s: BudgetState, rid: Id, id: Id, callId: Id, inputBound: int, outputMax: int, digest: Id, capability: Capability)
    requires var result := Reserved(s, rid, id, callId, inputBound, outputMax, digest, capability).1; result.Ok? && result.value.Granted?
    ensures var (s', result) := Reserved(s, rid, id, callId, inputBound, outputMax, digest, capability);
      && id in s.accounts && id in s.entries && s.accounts[id].state == Open && !s.accounts[id].pendingRevalidation
      && var (account, r) := (s.accounts[id], result.value.reservation);
      && r.accountId == id && r.state == Active && 0 < r.amount <= SummaryOf(s, id).spendable
      && s'.reservations == s.reservations[rid := r]
      && s'.entries == s.entries[id := s.entries[id] + [Entry(ReservationCreated, r.amount, account.lastSequence + 1, 0)]]
      && s'.accounts == s.accounts[id := account.(lastSequence := account.lastSequence + 1, revision := account.revision + 1)]
  {
  }

  lemma ReserveRefused(s: BudgetState, rid: Id, id: Id, callId: Id, inputBound: int, outputMax: int, digest: Id, capability: Capability)
    ensures var (s', result) := Reserved(s, rid, id, callId, inputBound, outputMax, digest, capability);
      !(result.Ok? && result.value.Granted?) ==> s' == s
  {
  }

  lemma ReserveKeeps(s: BudgetState, rid: Id, id: Id, callId: Id, inputBound: int, outputMax: int, digest: Id, capability: Capability)
    requires Inv(s) && rid !in s.reservations
    ensures Inv(Reserved(s, rid, id, callId, inputBound, outputMax, digest, capability).0)
  {
    hide Inv, AccountOk, TotalsOf, Authorized, SummaryOf, Reserved;
    var (s', result) := Reserved(s, rid, id, callId, inputBound, outputMax, digest, capability);
    ReserveRefused(s, rid, id, callId, inputBound, outputMax, digest, capability);
    if result.Ok? && result.value.Granted? {
      ReserveEffect(s, rid, id, callId, inputBound, outputMax, digest, capability);
      InvAccount(s, id);
      var account, r := s.accounts[id], s'.reservations[rid];
      var t := TotalsOf(s.reservations, id);
      var e := Entry(ReservationCreated, r.amount, account.lastSequence + 1, 0);
      assert r.amount <= SummaryOf(s, id).authorized - (t.known + t.uncertain + t.active) by { Spendable(s, id); }
      AppendOk(account, s'.accounts[id], s.entries[id], t, e, t.excess);
      assert t.Plus(EntryShare(e)).(excess := t.excess) == t.Minus(Zero).Plus(Share(r, id));
      InvShape(s);
      ReservationStepKeeps(s, s', id, rid);
    }
  }

  lemma InvShape(s: BudgetState)
    requires Inv(s)
    ensures Shaped(s)
    ensures forall rid :: rid in s.reservations ==> s.reservations[rid].accountId in s.accounts && s.reservations[rid].amount > 0
  {
  }

  lemma Spendable(s: BudgetState, id: Id)
    requires id in s.accounts && id in s.entries
    ensures var p := SummaryOf(s, id); p.spendable > 0 ==> p.spendable == p.authorized - p.Committed()
  {
  }

  /** An entry that closes a reservation moves its amount out of the active total and puts
      what it settles at in its place. */
  lemma CloseLedger(account: Account, account': Account, entries: seq<Entry>, t: Totals, r: Reservation, r': Reservation,
                    id: Id, e: Entry)
    requires AccountOk(account, entries, t) && t.Natural() && r.accountId == id && r'.accountId == id
    requires r.state == Active && r.amount <= t.active && r'.amount == r.amount
    requires e.sequence == account.lastSequence + 1 == account'.lastSequence && e.reservationAmount == r.amount
    requires
      || (r'.state == Released && e.kind == ReservationReleased && e.amount == r.amount)
      || (r'.state == SettledKnown && e.kind == UsageSettled && e.amount == Actual(r'))
      || (r'.state == SettledUncertain && e.kind == UnknownCommitted && e.amount == Actual(r'))
    requires account'.state == Open && !account'.pendingRevalidation ==>
      account.state == Open && !account.pendingRevalidation && Share(r', id).excess == 0
    ensures AccountOk(account', entries + [e], t.Minus(Share(r, id)).Plus(Share(r', id)).(overage := t.overage))
  {
    assert WithinAuthorization(account, Authorized(entries), t);
    hide AccountOk, Authorized;
    var t' := t.Minus(Share(r, id)).Plus(Share(r', id)).(overage := t.overage);
    assert t' == t.Plus(EntryShare(e)).(excess := t'.excess);
    AppendOk(account, account', entries, t, e, t'.excess);
  }

  lemma ActiveAtLeast(rs: map<Id, Reservation>, rid: Id, id: Id)
    requires rid in rs && rs[rid].accountId == id && rs[rid].state == Active
    ensures TotalsOf(rs, id).Natural() && rs[rid].amount <= TotalsOf(rs, id).active
  {
    SumTakeOut(rs, (r: Reservation) => Share(r, id).active, rid);
  }

  lemma ReleaseKeeps(s: BudgetState, rid: Id)
    requires Inv(s)
    ensures Inv(ReleasedUnsent(s, rid).0)
  {
    hide Inv, AccountOk, TotalsOf, Authorized, SummaryOf, WithinAuthorization;
    var s' := ReleasedUnsent(s, rid).0;
    if s' != s {
      var r, id := s.reservations[rid], s.reservations[rid].accountId;
      var account, t := s.accounts[id], TotalsOf(s.reservations, id);
      InvShape(s);
      InvAccount(s, id);
      ActiveAtLeast(s.reservations, rid, id);
      var e := Entry(ReservationReleased, r.amount, account.lastSequence + 1, r.amount);
      CloseLedger(account, s'.accounts[id], s.entries[id], t, r, s'.reservations[rid], id, e);
      ReservationStepKeeps(s, s', id, rid);
    }
  }

  lemma SettleUncertainKeeps(s: BudgetState, rid: Id, usage: UsageState, reported: Option<int>)
    requires Inv(s)
    ensures Inv(SettledWithUncertain(s, rid, usage, reported).0)
  {
    hide Inv, AccountOk, TotalsOf, Authorized, SummaryOf, WithinAuthorization;
    var s' := SettledWithUncertain(s, rid, usage, reported).0;
    if s' != s {
      var r, id := s.reservations[rid], s.reservations[rid].accountId;
      var account, t := s.accounts[id], TotalsOf(s.reservations, id);
      InvShape(s);
      InvAccount(s, id);
      ActiveAtLeast(s.reservations, rid, id);
      var amount := Max(r.amount, if reported.Some? then reported.value else 0);
      var e := Entry(UnknownCommitted, amount, account.lastSequence + 1, r.amount);
      CloseLedger(account, s'.accounts[id], s.entries[id], t, r, s'.reservations[rid], id, e);
      ReservationStepKeeps(s, s', id, rid);
    }
  }

  /** The two entries an overage adds to a ledger that has the settlement already. */
  lemma OverageLedger(account: Account, account': Account, entries: seq<Entry>, t: Totals, overage: nat)
    requires AccountOk(account, entries, t) && t.Natural() && account'.state == FrozenOverage
    requires account'.lastSequence == account.lastSequence + 2
    ensures var n := account.lastSequence;
      AccountOk(account', entries + [Entry(UsageOverageRecorded, overage, n + 1, 0)] + [Entry(FreezeApplied, 0, n + 2, 0)],
                t.(overage := t.overage + overage))
  {
    assert WithinAuthorization(account, Authorized(entries), t);
    var n := account.lastSequence;
    var e1, e2 := Entry(UsageOverageRecorded, overage, n + 1, 0), Entry(FreezeApplied, 0, n + 2, 0);
    var middle := account'.(lastSequence := n + 1);
    AppendOk(account, middle, entries, t, e1, t.excess);
    var t1 := t.(overage := t.overage + overage);
    assert t.Plus(EntryShare(e1)).(excess := t.excess) == t1;
    AppendAmounts(entries, e1);
    assert Authorized(entries + [e1]) == Authorized(entries);
    hide AccountOk;
    AppendOk(middle, account', entries + [e1], t1, e2, t1.excess);
    assert t1.Plus(EntryShare(e2)).(excess := t1.excess) == t1;
  }

  lemma KnownRefused(s: BudgetState, rid: Id, inputTokens: nat, outputTokens: nat)
    requires Closable(s, rid) != None
    ensures SettledWithKnown(s, rid, inputTokens, outputTokens).0 == s
  {
  }

  /** What a known settlement writes: the reservation, its ledger and its account. */
  lemma KnownEffect(s: BudgetState, rid: Id, inputTokens: nat, outputTokens: nat)
    requires Closable(s, rid) == None
    ensures var r, s' := s.reservations[rid], SettledWithKnown(s, rid, inputTokens, outputTokens).0;
      var id, actual, n := r.accountId, inputTokens + outputTokens, s.accounts[r.accountId].lastSequence;
      var closed := s.entries[id] + [Entry(UsageSettled, actual, n + 1, r.amount)];
      && s'.reservations == s.reservations[rid := r.(state := SettledKnown, usageState := KnownUsage, actual := Some(actual))]
      && s'.entries == s.entries[id := if actual <= r.amount then closed
           else closed + [Entry(UsageOverageRecorded, actual - r.amount, n + 2, 0)] + [Entry(FreezeApplied, 0, n + 3, 0)]]
      && s'.accounts.Keys == s.accounts.Keys
      && (forall x :: x in s.accounts && x != id ==> s'.accounts[x] == s.accounts[x])
      && var account := s.accounts[id];
        s'.accounts[id] == if actual <= r.amount then account.(lastSequence := n + 1, revision := account.revision + 1)
          else account.(lastSequence := n + 3, revision := account.revision + 4, state := FrozenOverage, activeFreeze := true)
  {
  }

  lemma SettleKnownKeeps(s: BudgetState, rid: Id, inputTokens: nat, outputTokens: nat)
    requires Inv(s)
    ensures Inv(SettledWithKnown(s, rid, inputTokens, outputTokens).0)
  {
    hide Inv, AccountOk, TotalsOf, Authorized, SummaryOf, WithinAuthorization, SettledWithKnown;
    var s' := SettledWithKnown(s, rid, inputTokens, outputTokens).0;
    if Closable(s, rid) != None {
      KnownRefused(s, rid, inputTokens, outputTokens);
    } else {
      KnownEffect(s, rid, inputTokens, outputTokens);
      var r, id := s.reservations[rid], s.reservations[rid].accountId;
      var account, t := s.accounts[id], TotalsOf(s.reservations, id);
      InvShape(s);
      InvAccount(s, id);
      ActiveAtLeast(s.reservations, rid, id);
      var actual, settled, n := inputTokens + outputTokens, s'.reservations[rid], account.lastSequence;
      var e := Entry(UsageSettled, actual, n + 1, r.amount);
      var t' := t.Minus(Share(r, id)).Plus(Share(settled, id));
      var account1 := account.(lastSequence := n + 1, revision := account.revision + 1,
                               state := if actual > r.amount then FrozenOverage else account.state);
      CloseLedger(account, account1, s.entries[id], t, r, settled, id, e);
      if actual > r.amount {
        OverageLedger(account1, s'.accounts[id], s.entries[id] + [e], t'.(overage := t.overage), actual - r.amount);
        assert t' == t'.(overage := t.overage + (actual - r.amount));
      }
      ReservationStepKeeps(s, s', id, rid);
    }
  }

  /** An operation that adds one entry about no reservation. */
  lemma PlainEntryKeeps(s: BudgetState, s': BudgetState, id: Id, e: Entry)
    requires Inv(s) && id in s.accounts && Shaped(s') && s'.accounts.Keys == s.accounts.Keys && s'.reservations == s.reservations
    requires id in s.entries && s'.entries == s.entries[id := s.entries[id] + [e]]
    requires forall other :: other in s.accounts && other != id ==> s'.accounts[other] == s.accounts[other]
    requires e.kind == AuthorizationAdded || e.kind == FreezeCleared
    requires e.sequence == s.accounts[id].lastSequence + 1
    requires s'.accounts[id].lastSequence == s.accounts[id].lastSequence + (if e.kind == AuthorizationAdded then 0 else 1)
    requires WithinAuthorization(s'.accounts[id], Authorized(s.entries[id]) + Added(e), TotalsOf(s.reservations, id))
    ensures Inv(s')
  {
    hide Inv, AccountOk, TotalsOf, Authorized, WithinAuthorization;
    var t := TotalsOf(s.reservations, id);
    InvAccount(s, id);
    InvShape(s);
    assert t.Plus(EntryShare(e)).(excess := t.excess) == t;
    AppendOk(s.accounts[id], s'.accounts[id], s.entries[id], t, e, t.excess);
    StepKeeps(s, s', id);
  }

  lemma AuthorizeKeeps(s: BudgetState, id: Id, amount: int)
    requires Inv(s)
    ensures Inv(Authorize(s, id, amount).0)
  {
    hide Inv, AccountOk, TotalsOf, Authorized, SummaryOf;
    var s' := Authorize(s, id, amount).0;
    if s' != s {
      InvAccount(s, id);
      InvShape(s);
      PlainEntryKeeps(s, s', id, Entry(AuthorizationAdded, amount, s.accounts[id].lastSequence + 1, 0));
    }
  }

  lemma UnfreezeKeeps(s: BudgetState, id: Id, capability: Capability, explicitResume: bool)
    requires Inv(s)
    ensures Inv(Unfrozen(s, id, capability, explicitResume).0)
  {
    hide Inv, AccountOk, TotalsOf, Authorized, SummaryOf;
    var s' := Unfrozen(s, id, capability, explicitResume).0;
    if s' != s {
      InvAccount(s, id);
      InvShape(s);
      PlainEntryKeeps(s, s', id, Entry(FreezeCleared, 0, s.accounts[id].lastSequence + 1, 0));
    }
  }

  lemma ApplyKeeps(s: BudgetState, op: Op)
    requires Inv(s)
    ensures Inv(Apply(s, op))
  {
    hide Inv, Created, Reserved, ReleasedUnsent, SettledWithKnown, SettledWithUncertain, Authorize, Unfrozen;
    match op
    case CreateOp(id, taskId, requested, ref) => if id !in s.accounts { CreateKeeps(s, id, taskId, requested, ref); }
    case ReserveOp(rid, id, callId, inputBound, outputMax, digest, capability) =>
      if rid !in s.reservations { ReserveKeeps(s, rid, id, callId, inputBound, outputMax, digest, capability); }
    case ReleaseOp(rid) => ReleaseKeeps(s, rid);
    case SettleKnownOp(rid, inputTokens, outputTokens) => SettleKnownKeeps(s, rid, inputTokens, outputTokens);
    case SettleUncertainOp(rid, usage, reported) => SettleUncertainKeeps(s, rid, usage, reported);
    case AuthorizeOp(id, amount) => AuthorizeKeeps(s, id, amount);
    case UnfreezeOp(id, capability, explicitResume) => UnfreezeKeeps(s, id, capability, explicitResume);
  }

  lemma {:induction false} RunInv(ops: seq<Op>)
    ensures Inv(Run(Empty, ops))
  {
    if ops != [] {
      RunInv(ops[..|ops| - 1]);
      ApplyKeeps(Run(Empty, ops[..|ops| - 1]), ops[|ops| - 1]);
    }
  }
}
