/** The model gateway: one-shot permits, the mapping of whatever a provider does to an
    accounted outcome, and the settlement of the reservation that outcome leads to. */
module ModelGateway {
  import opened Wrappers
  import opened BudgetLedger
  import opened Budget
  import opened BudgetSafety

  // ----- provider results ------------------------------------------------------------

  datatype ProviderState = ProviderPending | ProviderSucceeded | ProviderFailedKnown | ProviderUnknown

  datatype ReservationAction = ReleaseReservation | SettleAsKnown | SettleAsUncertain

  datatype ModelUsage = ModelUsage(state: UsageState, inputTokens: Option<int>, outputTokens: Option<int>)
  {
    function ReportedTotal(): Option<int> {
      if inputTokens.Some? && outputTokens.Some? then Some(inputTokens.value + outputTokens.value) else None
    }

    predicate Valid() {
      && (inputTokens.Some? ==> inputTokens.value >= 0)
      && (outputTokens.Some? ==> outputTokens.value >= 0)
      && match state
         case KnownUsage => inputTokens.Some? && outputTokens.Some?
         case Missing => inputTokens.None? && outputTokens.None?
         case Untrusted => inputTokens.Some? == outputTokens.Some?
    }
  }

  const NoUsage := ModelUsage(Missing, None, None)

  datatype SendResult = SendResult(state: ProviderState, requestSent: Option<bool>, hasPayload: bool, usage: ModelUsage)
  {
    predicate Valid() {
      && usage.Valid()
      && !state.ProviderPending?
      && (state == ProviderSucceeded ==> requestSent == Some(true) && hasPayload)
      && (state != ProviderSucceeded ==> !hasPayload)
      && (state == ProviderUnknown ==> requestSent != Some(false))
      && (state == ProviderFailedKnown && requestSent == Some(false) ==> usage.state != KnownUsage)
    }
  }

  /** What awaiting the provider comes to: an exception, a cancellation, an object that is
      not a send result (perhaps with a usage on it), or a send result, valid or not. */
  datatype ProviderAnswer =
    | ProviderRaised
    | ProviderCancelled
    | Foreign(usage: Option<ModelUsage>)
    | Sent(result: SendResult)

  datatype Outcome = Outcome(
    state: ProviderState,
    action: ReservationAction,
    usage: ModelUsage,
    accountedTokens: int,
    overageTokens: int)

  // ----- outcomes ----------------------------------------------------------------------

  function OrZero(n: Option<int>): int {
    if n.Some? then n.value else 0
  }

  function UnknownOutcome(reservationTokens: nat, reported: Option<ModelUsage>): Outcome {
    var usage := if reported.Some? then reported.value else NoUsage;
    Outcome(ProviderUnknown, SettleAsUncertain, usage,
            Max(reservationTokens, OrZero(usage.ReportedTotal())), 0)
  }

  function ReportedAsUntrusted(usage: Option<ModelUsage>): Option<ModelUsage> {
    if usage.Some? && usage.value.inputTokens.Some? && usage.value.outputTokens.Some?
       && usage.value.inputTokens.value >= 0 && usage.value.outputTokens.value >= 0
    then Some(ModelUsage(Untrusted, usage.value.inputTokens, usage.value.outputTokens))
    else None
  }

  /** `None` is a raised error. */
  function OutcomeOf(result: SendResult, reservationTokens: nat, trusted: bool): Option<Outcome> {
    if !result.Valid() then None
    else if result.state == ProviderFailedKnown && result.requestSent == Some(false) then
      if result.usage.state != Missing then None
      else Some(Outcome(ProviderFailedKnown, ReleaseReservation, NoUsage, 0, 0))
    else
      var usage := if (result.state == ProviderUnknown || !trusted) && result.usage.state == KnownUsage
                   then result.usage.(state := Untrusted) else result.usage;
      var total := usage.ReportedTotal();
      Some(if usage.state == KnownUsage then
             Outcome(result.state, SettleAsKnown, usage, OrZero(total), Max(0, OrZero(total) - reservationTokens))
           else
             Outcome(result.state, SettleAsUncertain, usage, Max(reservationTokens, OrZero(total)), 0))
  }

  /** `None` is a cancellation, which is passed on without an outcome. */
  function Received(answer: ProviderAnswer, reservationTokens: nat, trusted: bool): Option<Outcome> {
    match answer
    case ProviderCancelled => None
    case ProviderRaised => Some(UnknownOutcome(reservationTokens, None))
    case Foreign(usage) => Some(UnknownOutcome(reservationTokens, ReportedAsUntrusted(usage)))
    case Sent(result) =>
      var outcome := OutcomeOf(result, reservationTokens, trusted);
      if outcome.Some? then outcome
      else Some(UnknownOutcome(reservationTokens, ReportedAsUntrusted(Some(result.usage))))
  }

  function Settled(s: BudgetState, rid: Id, outcome: Outcome): (BudgetState, Option<Error>) {
    match outcome.action
    case ReleaseReservation => ReleasedUnsent(s, rid)
    case SettleAsKnown =>
      SettledWithKnown(s, rid, Max(0, OrZero(outcome.usage.inputTokens)), Max(0, OrZero(outcome.usage.outputTokens)))
    case SettleAsUncertain =>
      SettledWithUncertain(s, rid, if outcome.usage.state == Missing then Missing else Untrusted, outcome.usage.ReportedTotal())
  }

  // ----- accounting ----------------------------------------------------------------------

  /** Only a valid result that says a known failure happened before the request was sent,
      with no usage on it, releases the reservation. */
  lemma ReleasedOnlyWhenUnsent(answer: ProviderAnswer, tokens: nat, trusted: bool)
    ensures var o := Received(answer, tokens, trusted);
      (o.Some? && o.value.action == ReleaseReservation) <==>
      (answer.Sent? && answer.result.Valid() && answer.result.state == ProviderFailedKnown
       && answer.result.requestSent == Some(false) && answer.result.usage == NoUsage)
  {
  }

  /** The counts that come with an answer, if both are there and neither is negative. */
  function ReportedCounts(answer: ProviderAnswer): Option<(nat, nat)> {
    match answer
    case Foreign(Some(u)) =>
      if u.inputTokens.Some? && u.outputTokens.Some? && u.inputTokens.value >= 0 && u.outputTokens.value >= 0
      then Some((u.inputTokens.value, u.outputTokens.value)) else None
    case Sent(r) =>
      if r.usage.inputTokens.Some? && r.usage.outputTokens.Some? && r.usage.inputTokens.value >= 0 && r.usage.outputTokens.value >= 0
      then Some((r.usage.inputTokens.value, r.usage.outputTokens.value)) else None
    case _ => None
  }

  /** What an answer is settled as, by the answer alone. Usage is known only if the mapping
      is trusted and a sent request came to a success with a response or a failure without
      one; a release needs a failure that was not sent; anything else but a cancellation is
      uncertain. Known usage accounts what was reported, and as overage what goes beyond the
      reservation; uncertain usage accounts the reservation, or what was reported if more. */
  lemma AnswerIsSettledAs(answer: ProviderAnswer, tokens: nat, trusted: bool)
    ensures Received(answer, tokens, trusted) == None <==> answer == ProviderCancelled
    ensures var o := Received(answer, tokens, trusted);
      (o.Some? && o.value.action == SettleAsKnown) <==>
      (answer.Sent? && trusted && answer.result.usage.state == KnownUsage && ReportedCounts(answer).Some?
       && ((answer.result.state == ProviderSucceeded && answer.result.requestSent == Some(true) && answer.result.hasPayload)
           || (answer.result.state == ProviderFailedKnown && answer.result.requestSent != Some(false) && !answer.result.hasPayload)))
    ensures var o := Received(answer, tokens, trusted);
      (o.Some? && o.value.action == ReleaseReservation) <==>
      (answer.Sent? && answer.result.state == ProviderFailedKnown && answer.result.requestSent == Some(false)
       && !answer.result.hasPayload && answer.result.usage == ModelUsage(Missing, None, None))
    ensures var o := Received(answer, tokens, trusted);
      o.Some? && o.value.action == ReleaseReservation ==>
        o.value == Outcome(ProviderFailedKnown, ReleaseReservation, ModelUsage(Missing, None, None), 0, 0)
    ensures var o, counts := Received(answer, tokens, trusted), ReportedCounts(answer);
      o.Some? && o.value.action == SettleAsKnown ==>
        && o.value.state == answer.result.state
        && o.value.usage == answer.result.usage
        && o.value.accountedTokens == counts.value.0 + counts.value.1
        && o.value.overageTokens == Max(0, counts.value.0 + counts.value.1 - tokens)
    ensures var o, counts := Received(answer, tokens, trusted), ReportedCounts(answer);
      o.Some? && o.value.action == SettleAsUncertain ==>
        && o.value.accountedTokens == (if counts.Some? then Max(tokens, counts.value.0 + counts.value.1) else tokens)
        && o.value.accountedTokens >= tokens
        && o.value.overageTokens == 0
        && o.value.usage.state != KnownUsage
        && o.value.usage.inputTokens == (if counts.Some? then Some(counts.value.0) else None)
        && o.value.usage.outputTokens == (if counts.Some? then Some(counts.value.1) else None)
        && (o.value.usage.state == Untrusted <== counts.Some?)
  {
  }

  /** The state an outcome carries is the provider's for a result that holds together, and
      unknown for everything else. */
  lemma StateIsCarried(answer: ProviderAnswer, tokens: nat, trusted: bool)
    requires answer != ProviderCancelled
    ensures var o := Received(answer, tokens, trusted).value;
      && (o.state == ProviderSucceeded || o.state == ProviderFailedKnown || o.state == ProviderUnknown)
      && (o.state != ProviderUnknown <==>
            && answer.Sent? && answer.result.Valid() && answer.result.state != ProviderUnknown
            && (answer.result.state == ProviderFailedKnown && answer.result.requestSent == Some(false)
                ==> answer.result.usage.state == Missing))
      && (o.state != ProviderUnknown ==> o.state == answer.result.state)
  {
  }

  ghost predicate MovesBy(p: Summary, p': Summary, spent: int, overage: int, active: int, released: int) {
    && p'.known + p'.uncertain == p.known + p.uncertain + spent
    && p'.overage == p.overage + overage
    && p'.active == p.active - active
    && p'.released == p.released + released
    && p'.authorized == p.authorized
  }

  /** The ledger after a settlement: one closing entry, and the two overage entries if
      known usage went beyond the reservation. */
  function SettledLedger(entries: seq<Entry>, n: nat, amount: nat, outcome: Outcome): seq<Entry>
    requires outcome.usage.Valid()
  {
    var total: nat := OrZero(outcome.usage.ReportedTotal());
    match outcome.action
    case ReleaseReservation => entries + [Entry(ReservationReleased, amount, n + 1, amount)]
    case SettleAsUncertain => entries + [Entry(UnknownCommitted, Max(amount, total), n + 1, amount)]
    case SettleAsKnown =>
      var closed := entries + [Entry(UsageSettled, total, n + 1, amount)];
      if total <= amount then closed
      else closed + [Entry(UsageOverageRecorded, total - amount, n + 2, 0)] + [Entry(FreezeApplied, 0, n + 3, 0)]
  }

  lemma SettlementEntries(s: BudgetState, rid: Id, outcome: Outcome)
    requires Closable(s, rid) == None && outcome.usage.Valid()
    requires outcome.action == SettleAsKnown ==> outcome.usage.state == KnownUsage
    ensures Settled(s, rid, outcome).1 == None
    ensures var r, s' := s.reservations[rid], Settled(s, rid, outcome).0;
      && s'.entries.Keys == s.entries.Keys && s'.accounts.Keys == s.accounts.Keys
      && s'.entries[r.accountId] ==
           SettledLedger(s.entries[r.accountId], s.accounts[r.accountId].lastSequence, r.amount, outcome)
  {
  }

  /** Settling this outcome succeeds and moves the projection by what the outcome accounts. */
  ghost predicate Accounted(s: BudgetState, rid: Id, outcome: Outcome)
    requires rid in s.reservations
  {
    var r := s.reservations[rid];
    var (s', error) := Settled(s, rid, outcome);
    && error == None
    && r.accountId in s.accounts && r.accountId in s.entries && r.accountId in s'.accounts && r.accountId in s'.entries
    && MovesBy(SummaryOf(s, r.accountId), SummaryOf(s', r.accountId), outcome.accountedTokens, outcome.overageTokens,
               r.amount, if outcome.action == ReleaseReservation then r.amount else 0)
  }

  /** For every way a provider can answer, sending through the gateway and settling moves
      known plus uncertain usage by the accounted tokens, overage by the overage tokens,
      and the reservation out of the active amount; if released, into the released one. */
  lemma OutcomeIsAccounted(s: BudgetState, rid: Id, answer: ProviderAnswer, trusted: bool)
    requires Inv(s) && rid in s.reservations && s.reservations[rid].state == Active && answer != ProviderCancelled
    ensures Received(answer, s.reservations[rid].amount, trusted).Some?
    ensures Accounted(s, rid, Received(answer, s.reservations[rid].amount, trusted).value)
  {
    hide Inv, Received, Settled, Project, SettledLedger, Consistent, MovesBy;
    var r := s.reservations[rid];
    OutcomeUsage(answer, r.amount, trusted);
    var outcome := Received(answer, r.amount, trusted).value;
    ConsistentUsage(outcome, r.amount);
    ActiveCovers(s, rid);
    SettlementEntries(s, rid, outcome);
    var s', id := Settled(s, rid, outcome).0, r.accountId;
    LedgerMoves(s.entries[id], s.accounts[id].lastSequence, r.amount, outcome,
                s.accounts[id].state, s'.accounts[id].state, s.accounts[id].pendingRevalidation, s'.accounts[id].pendingRevalidation);
  }

  lemma ConsistentUsage(outcome: Outcome, amount: nat)
    requires Consistent(outcome, amount)
    ensures outcome.usage.Valid() && (outcome.action == SettleAsKnown ==> outcome.usage.state == KnownUsage)
  {
  }

  /** An outcome carries a valid usage, and the tokens it accounts are those that settling
      it will charge. */
  ghost predicate Consistent(outcome: Outcome, amount: nat) {
    var total := OrZero(outcome.usage.ReportedTotal());
    && outcome.usage.Valid()
    && match outcome.action
       case ReleaseReservation => outcome.accountedTokens == 0 && outcome.overageTokens == 0
       case SettleAsKnown =>
         outcome.usage.state == KnownUsage && outcome.accountedTokens == total && outcome.overageTokens == Max(0, total - amount)
       case SettleAsUncertain =>
         outcome.usage.state != KnownUsage && outcome.accountedTokens == Max(amount, total) && outcome.overageTokens == 0
  }

  lemma OutcomeUsage(answer: ProviderAnswer, amount: nat, trusted: bool)
    requires answer != ProviderCancelled
    ensures Received(answer, amount, trusted).Some?
    ensures Consistent(Received(answer, amount, trusted).value, amount)
  {
    hide UnknownOutcome, OutcomeOf, ReportedAsUntrusted, Consistent;
    match answer
    case ProviderRaised => UnknownConsistent(amount, None);
    case Foreign(usage) =>
      UntrustedValid(usage);
      UnknownConsistent(amount, ReportedAsUntrusted(usage));
    case Sent(result) =>
      UntrustedValid(Some(result.usage));
      UnknownConsistent(amount, ReportedAsUntrusted(Some(result.usage)));
      OutcomeConsistent(result, amount, trusted);
  }

  lemma UntrustedValid(usage: Option<ModelUsage>)
    ensures var u := ReportedAsUntrusted(usage); u.Some? ==> u.value.Valid() && u.value.state == Untrusted
  {
  }

  lemma UnknownConsistent(amount: nat, reported: Option<ModelUsage>)
    requires reported.Some? ==> reported.value.Valid() && reported.value.state == Untrusted
    ensures Consistent(UnknownOutcome(amount, reported), amount)
  {
  }

  lemma OutcomeConsistent(result: SendResult, amount: nat, trusted: bool)
    ensures var o := OutcomeOf(result, amount, trusted); o.Some? ==> Consistent(o.value, amount)
  {
  }

  lemma ActiveCovers(s: BudgetState, rid: Id)
    requires Inv(s) && rid in s.reservations && s.reservations[rid].state == Active
    ensures Closable(s, rid) == None
    ensures var r := s.reservations[rid];
      r.amount <= Amount(s.entries[r.accountId], ReservationCreated) - ClosedAmount(s.entries[r.accountId])
  {
    hide AccountOk, TotalsOf;
    InvShape(s);
    var id := s.reservations[rid].accountId;
    InvAccount(s, id);
    ActiveAtLeast(s.reservations, rid, id);
    AgreesOf(s.accounts[id], s.entries[id], TotalsOf(s.reservations, id));
  }

  lemma AgreesOf(account: Account, entries: seq<Entry>, t: Totals)
    requires AccountOk(account, entries, t)
    ensures Amount(entries, ReservationCreated) - ClosedAmount(entries) == t.active
  {
  }

  lemma LedgerMoves(entries: seq<Entry>, n: nat, amount: nat, outcome: Outcome,
                    st: AccountState, st': AccountState, pending: bool, pending': bool)
    requires amount <= Amount(entries, ReservationCreated) - ClosedAmount(entries)
    requires Consistent(outcome, amount)
    ensures MovesBy(Project(st, entries, pending), Project(st', SettledLedger(entries, n, amount, outcome), pending'),
                    outcome.accountedTokens, outcome.overageTokens,
                    amount, if outcome.action == ReleaseReservation then amount else 0)
  {
    hide Amount, ClosedAmount, LastVersion;
    var total: nat := OrZero(outcome.usage.ReportedTotal());
    match outcome.action
    case ReleaseReservation => AppendAmounts(entries, Entry(ReservationReleased, amount, n + 1, amount));
    case SettleAsUncertain => AppendAmounts(entries, Entry(UnknownCommitted, Max(amount, total), n + 1, amount));
    case SettleAsKnown => KnownMoves(entries, n, amount, total, outcome, st, st', pending, pending');
  }

  lemma KnownMoves(entries: seq<Entry>, n: nat, amount: nat, total: nat, outcome: Outcome,
                   st: AccountState, st': AccountState, pending: bool, pending': bool)
    requires amount <= Amount(entries, ReservationCreated) - ClosedAmount(entries)
    requires Consistent(outcome, amount) && outcome.action == SettleAsKnown && total == OrZero(outcome.usage.ReportedTotal())
    ensures MovesBy(Project(st, entries, pending), Project(st', SettledLedger(entries, n, amount, outcome), pending'),
                    total, Max(0, total - amount), amount, 0)
  {
    hide Amount, ClosedAmount, LastVersion, Consistent;
    ConsistentUsage(outcome, amount);
    var closed := entries + [Entry(UsageSettled, total, n + 1, amount)];
    AppendAmounts(entries, Entry(UsageSettled, total, n + 1, amount));
    if total > amount { OverageMoves(closed, n, total - amount); }
  }

  lemma OverageMoves(entries: seq<Entry>, n: nat, overage: nat)
    ensures var after := entries + [Entry(UsageOverageRecorded, overage, n + 2, 0)] + [Entry(FreezeApplied, 0, n + 3, 0)];
      && ClosedAmount(after) == ClosedAmount(entries)
      && forall kind :: Amount(after, kind) == Amount(entries, kind) + (if kind == UsageOverageRecorded then overage else 0)
  {
    hide Amount, ClosedAmount;
    var e2 := Entry(UsageOverageRecorded, overage, n + 2, 0);
    AppendAmounts(entries, e2);
    AppendAmounts(entries + [e2], Entry(FreezeApplied, 0, n + 3, 0));
  }

  // ----- permits ---------------------------------------------------------------------------

  datatype Request = Request(id: Id, fingerprint: Id, bodyDigest: Id, inputBound: nat, outputMax: nat)

  datatype Permit = Permit(provider: Id, fingerprint: Id, capabilities: Id, trusted: bool)

  /** What the checks before sending see of the provider now: whether it owns the request
      and which capabilities it shows (`None`: asking raised), and whether body digest and
      request still match. */
  datatype Present = Present(owns: Option<bool>, capabilities: Option<Id>, intact: bool)

  /** `DiscardError` is the provider error that giving up a prepared request raises. */
  datatype SendError = ProviderError | CapabilityError | ReservationError | DiscardError

  datatype Reply = Refused(error: SendError) | CallCancelled | Answered(outcome: Outcome)

  predicate ReservationMatches(r: Reservation, request: Request) {
    && r.state == Active
    && r.requestDigest == request.bodyDigest
    && r.inputBound == request.inputBound
    && r.outputMax == request.outputMax
    && r.amount == request.inputBound + request.outputMax
  }

  predicate PermitHolds(permit: Permit, provider: Id, request: Request, present: Present) {
    && permit.provider == provider
    && permit.fingerprint == request.fingerprint
    && present.owns == Some(true)
    && present.capabilities == Some(permit.capabilities)
    && present.intact
  }

  class ModelGateway {
    var prepared: map<Id, Permit>

    constructor ()
      ensures prepared == map[]
    {
      prepared := map[];
    }

    method Prepare(request: Request, permit: Permit)
      modifies this
      ensures prepared == old(prepared)[request.id := permit]
    {
      prepared := prepared[request.id := permit];
    }

    /** Whether the providers concerned give the request up: the one at hand and, if it is
        another, the one the permit was for. */
    predicate GivenUp(provider: Id, request: Request, failing: set<Id>)
      reads this
    {
      provider !in failing && (request.id in prepared ==> prepared[request.id].provider !in failing)
    }

    /** The permit goes in any case; `failing` are the providers whose discard raises. */
    method DiscardPrepared(provider: Id, request: Request, failing: set<Id>) returns (ok: bool)
      modifies this
      ensures prepared == old(prepared) - {request.id}
      ensures ok == old(GivenUp(provider, request, failing))
      ensures ok <==> provider !in failing && (request.id in old(prepared) ==> old(prepared)[request.id].provider !in failing)
    {
      ok := provider !in failing;
      if request.id in prepared && prepared[request.id].provider != provider {
        ok := ok && prepared[request.id].provider !in failing;
      }
      prepared := prepared - {request.id};
    }

    /** A permit is used up by the first `send` of its request, whatever comes of it; the
        provider is reached only under a permit that still holds and a reservation that
        matches the request, and its answer is then accounted against that reservation. */
    method Send(provider: Id, request: Request, reservation: Reservation, present: Present, failing: set<Id>,
                answer: ProviderAnswer)
      returns (reply: Reply, reached: bool)
      modifies this
      ensures prepared == old(prepared) - {request.id}
      ensures reached <==>
        request.id in old(prepared) && PermitHolds(old(prepared)[request.id], provider, request, present)
        && ReservationMatches(reservation, request)
      ensures reached ==>
        var permit := old(prepared)[request.id];
        && permit.provider == provider && permit.fingerprint == request.fingerprint
        && present.owns == Some(true) && present.capabilities == Some(permit.capabilities) && present.intact
      ensures reached ==>
        && reservation.state == Active && reservation.requestDigest == request.bodyDigest
        && reservation.inputBound == request.inputBound && reservation.outputMax == request.outputMax
        && reservation.amount == request.inputBound + request.outputMax
      ensures !reached <==> reply.Refused?
      ensures reply.Answered? ==>
        Some(reply.outcome) == Received(answer, reservation.amount, old(prepared)[request.id].trusted)
      ensures reply.Answered? && reply.outcome.action == SettleAsKnown <==>
        reached && old(prepared)[request.id].trusted && answer.Sent? && answer.result.usage.state == KnownUsage
        && ReportedCounts(answer).Some?
        && ((answer.result.state == ProviderSucceeded && answer.result.requestSent == Some(true) && answer.result.hasPayload)
            || (answer.result.state == ProviderFailedKnown && answer.result.requestSent != Some(false) && !answer.result.hasPayload))
      ensures reply.Answered? && reply.outcome.action == ReleaseReservation <==>
        reached && answer.Sent? && answer.result.state == ProviderFailedKnown && answer.result.requestSent == Some(false)
        && !answer.result.hasPayload && answer.result.usage == ModelUsage(Missing, None, None)
      ensures reply.Answered? && reply.outcome.action == SettleAsUncertain ==>
        && reply.outcome.accountedTokens >= request.inputBound + request.outputMax
        && reply.outcome.overageTokens == 0
      ensures reply.CallCancelled? <==> reached && answer == ProviderCancelled
      ensures reply == Refused(DiscardError) <==> !reached && !old(GivenUp(provider, request, failing))
      ensures reply == Refused(ProviderError) <==>
        old(GivenUp(provider, request, failing)) && (present.owns == None || present.capabilities == None)
      ensures reply == Refused(ReservationError) <==>
        old(GivenUp(provider, request, failing)) && !ReservationMatches(reservation, request)
        && request.id in old(prepared) && PermitHolds(old(prepared)[request.id], provider, request, present)
    {
      reached := false;
      if present.owns == None || present.capabilities == None {
        var ok := DiscardPrepared(provider, request, failing);
        return Refused(if ok then ProviderError else DiscardError), false;
      }
      if request.id !in prepared || !PermitHolds(prepared[request.id], provider, request, present) {
        var ok := DiscardPrepared(provider, request, failing);
        return Refused(if ok then CapabilityError else DiscardError), false;
      }
      if !ReservationMatches(reservation, request) {
        var ok := DiscardPrepared(provider, request, failing);
        return Refused(if ok then ReservationError else DiscardError), false;
      }
      var trusted := prepared[request.id].trusted;
      prepared := prepared - {request.id};
      var outcome := Received(answer, reservation.amount, trusted);
      AnswerIsSettledAs(answer, reservation.amount, trusted);
      if outcome == None { return CallCancelled, true; }
      return Answered(outcome.value), true;
    }
  }

  /** Settles a reservation on the budget service by the action of the outcome. */
  method Settle(budget: BudgetService, rid: Id, outcome: Outcome) returns (error: Option<Error>)
    requires outcome.usage.Valid()
    modifies budget
    ensures (budget.Contents(), error) == Settled(old(budget.Contents()), rid, outcome)
  {
    match outcome.action
    case ReleaseReservation => error := budget.ReleaseUnsentReservation(rid);
    case SettleAsKnown =>
      error := budget.SettleKnownUsage(rid, OrZero(outcome.usage.inputTokens), OrZero(outcome.usage.outputTokens));
    case SettleAsUncertain =>
      error := budget.SettleUncertainUsage(rid, if outcome.usage.state == Missing then Missing else Untrusted,
                                           outcome.usage.ReportedTotal());
  }
}
