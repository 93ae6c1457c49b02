/** The token budget service: accounts, their ledgers and reservations. The operations are
    functions on the whole state; the class `BudgetService` performs them in place. */
module Budget {
  import opened Wrappers
  import opened BudgetLedger

  /** Account, reservation and call ids are fresh UUIDs, digests and capability references
      are opaque: only equality matters. */
  type Id = nat

  datatype ReservationState = Active | Released | SettledKnown | SettledUncertain

  datatype UsageState = KnownUsage | Missing | Untrusted

  datatype Account = Account(
    taskId: Id,
    state: AccountState,
    revision: nat,
    lastSequence: nat,
    capabilityRef: Id,
    activeFreeze: bool,
    pendingRevalidation: bool)

  datatype Reservation = Reservation(
    accountId: Id,
    callId: Id,
    inputBound: nat,
    outputMax: nat,
    amount: nat,
    requestDigest: Id,
    state: ReservationState,
    usageState: UsageState,
    actual: Option<nat>)

  datatype Capability = Capability(id: Id, preparedDigest: Id, countedDigest: Id, valid: bool)

  datatype BudgetState = BudgetState(
    accounts: map<Id, Account>,
    entries: map<Id, seq<Entry>>,
    reservations: map<Id, Reservation>,
    calls: map<Id, Id>)

  datatype Error =
    | InvalidBudget
    | AccountNotFound
    | ReservationNotFound
    | ReservationExists
    | CapabilityIncompatible
    | RequestMismatch
    | AlreadySettled
    | UsageInvalid
    | AuthorizationLimitExceeded
    | VersionNotAvailable

  datatype Prepared = Granted(reservation: Reservation) | Denied(frozen: bool, requested: int, available: nat)

  const Empty := BudgetState(map[], map[], map[], map[])

  /** Every account has a ledger. */
  predicate Shaped(s: BudgetState) {
    s.accounts.Keys == s.entries.Keys
  }

  // ----- operations on values ------------------------------------------------------

  /** What an open account can spend is what it has not committed. */
  lemma SpendableCovers(s: BudgetState, id: Id, amount: nat)
    requires id in s.accounts && id in s.entries && amount > 0
    requires s.accounts[id].state == Open && !s.accounts[id].pendingRevalidation
    ensures var p := SummaryOf(s, id);
      p.spendable == p.remaining && (amount <= p.spendable <==> p.known + p.uncertain + p.active + amount <= p.authorized)
  {
  }

  function SummaryOf(s: BudgetState, id: Id): Summary
    requires id in s.accounts && id in s.entries
  {
    Project(s.accounts[id].state, s.entries[id], s.accounts[id].pendingRevalidation)
  }

  function GetSummary(s: BudgetState, id: Id, version: Option<int>): Result<Summary, Error> {
    if id !in s.accounts || id !in s.entries then Err(AccountNotFound)
    else if version == None then Ok(SummaryOf(s, id))
    else if version.value < 0 || version.value > s.accounts[id].lastSequence then Err(VersionNotAvailable)
    else Ok(Project(s.accounts[id].state, UpTo(s.entries[id], version.value), s.accounts[id].pendingRevalidation))
  }

  function Append(s: BudgetState, id: Id, kind: EntryType, amount: nat, reservationAmount: nat): BudgetState
    requires id in s.accounts && id in s.entries
  {
    var account := s.accounts[id];
    var sequence := account.lastSequence + 1;
    s.(entries := s.entries[id := s.entries[id] + [Entry(kind, amount, sequence, reservationAmount)]],
       accounts := s.accounts[id := account.(lastSequence := sequence, revision := account.revision + 1)])
  }

  function Created(s: BudgetState, id: Id, taskId: Id, requested: int, capabilityRef: Id)
    : (BudgetState, Option<Error>)
  {
    if !(1 <= requested <= MAX_AUTHORIZATION) then (s, Some(InvalidBudget))
    else
      (s.(accounts := s.accounts[id := Account(taskId, Open, 1, 1, capabilityRef, false, false)],
          entries := s.entries[id := [Entry(AuthorizationInitial, requested, 1, 0)]]), None)
  }

  function Reserved(s: BudgetState, rid: Id, id: Id, callId: Id, inputBound: int, outputMax: int,
                    requestDigest: Id, capability: Capability)
    : (BudgetState, Result<Prepared, Error>)
  {
    if id !in s.accounts || id !in s.entries then (s, Err(AccountNotFound))
    else
      var account := s.accounts[id];
      if account.state != Open || account.pendingRevalidation then
        (s, Ok(Denied(true, inputBound + outputMax, 0)))
      else if callId in s.calls then (s, Err(ReservationExists))
      else if !capability.valid || capability.id != account.capabilityRef then (s, Err(CapabilityIncompatible))
      else if capability.preparedDigest != requestDigest || capability.countedDigest != requestDigest then
        (s, Err(RequestMismatch))
      else if inputBound < 0 || outputMax < 0 || inputBound + outputMax <= 0 then (s, Err(InvalidBudget))
      else
        var amount := inputBound + outputMax;
        var available := SummaryOf(s, id).spendable;
        if amount > available then (s, Ok(Denied(false, amount, available)))
        else
          var r := Reservation(id, callId, inputBound, outputMax, amount, requestDigest, Active, KnownUsage, None);
          (Append(s.(reservations := s.reservations[rid := r], calls := s.calls[callId := rid]),
                  id, ReservationCreated, amount, 0),
           Ok(Granted(r)))
  }

  /** The checks all three ways to close a reservation start with. */
  function Closable(s: BudgetState, rid: Id): Option<Error> {
    if rid !in s.reservations then Some(ReservationNotFound)
    else if s.reservations[rid].state != Active then Some(AlreadySettled)
    else if s.reservations[rid].accountId !in s.accounts || s.reservations[rid].accountId !in s.entries then
      Some(AccountNotFound)
    else None
  }

  function ReleasedUnsent(s: BudgetState, rid: Id): (BudgetState, Option<Error>) {
    if Closable(s, rid) != None then (s, Closable(s, rid))
    else
      var r := s.reservations[rid];
      (Append(s.(reservations := s.reservations[rid := r.(state := Released)]),
              r.accountId, ReservationReleased, r.amount, r.amount), None)
  }

  function SettledWithKnown(s: BudgetState, rid: Id, inputTokens: nat, outputTokens: nat)
    : (BudgetState, Option<Error>)
  {
    if Closable(s, rid) != None then (s, Closable(s, rid))
    else
      var r := s.reservations[rid];
      var actual := inputTokens + outputTokens;
      var overage := Max(0, actual - r.amount);
      var settled := r.(state := SettledKnown, usageState := KnownUsage, actual := Some(actual));
      var s1 := Append(s.(reservations := s.reservations[rid := settled]), r.accountId, UsageSettled, actual, r.amount);
      if overage == 0 then (s1, None)
      else
        var s2 := Append(s1, r.accountId, UsageOverageRecorded, overage, 0);
        var account := s2.accounts[r.accountId];
        var frozen := account.(state := FrozenOverage, activeFreeze := true, revision := account.revision + 1);
        (Append(s2.(accounts := s2.accounts[r.accountId := frozen]), r.accountId, FreezeApplied, 0, 0), None)
  }

  function SettledWithUncertain(s: BudgetState, rid: Id, usage: UsageState, reported: Option<int>)
    : (BudgetState, Option<Error>)
  {
    if Closable(s, rid) != None then (s, Closable(s, rid))
    else if usage == KnownUsage || (reported.Some? && reported.value < 0) then (s, Some(UsageInvalid))
    else
      var r := s.reservations[rid];
      var amount := Max(r.amount, if reported.Some? then reported.value else 0);
      var settled := r.(state := SettledUncertain, usageState := usage, actual := Some(amount));
      var s1 := Append(s.(reservations := s.reservations[rid := settled]), r.accountId, UnknownCommitted, amount, r.amount);
      if amount <= r.amount then (s1, None)
      else
        var account := s1.accounts[r.accountId];
        (s1.(accounts := s1.accounts[r.accountId :=
           account.(pendingRevalidation := true, revision := account.revision + 1)]), None)
  }

  /** The account written back is the copy read before the entry was appended, so its last
      sequence falls back by one. */
  function Authorize(s: BudgetState, id: Id, amount: int): (BudgetState, Option<Error>) {
    if amount <= 0 then (s, Some(InvalidBudget))
    else if id !in s.accounts || id !in s.entries then (s, Some(AccountNotFound))
    else if SummaryOf(s, id).authorized + amount > MAX_AUTHORIZATION then (s, Some(AuthorizationLimitExceeded))
    else
      var account := s.accounts[id];
      var s1 := Append(s, id, AuthorizationAdded, amount, 0);
      (s1.(accounts := s1.accounts[id := account.(revision := account.revision + 1)]), None)
  }

  function Unfrozen(s: BudgetState, id: Id, capability: Capability, explicitResume: bool)
    : (BudgetState, Result<bool, Error>)
  {
    if id !in s.accounts || id !in s.entries then (s, Err(AccountNotFound))
    else
      var account := s.accounts[id];
      if !explicitResume || !capability.valid || capability.id != account.capabilityRef then (s, Ok(false))
      else
        var summary := SummaryOf(s, id);
        if summary.authorized < summary.Committed() then (s, Ok(false))
        else if account.state == FrozenOverage || account.pendingRevalidation then
          var open := account.(state := Open, activeFreeze := false, pendingRevalidation := false,
                               revision := account.revision + 1);
          (Append(s.(accounts := s.accounts[id := open]), id, FreezeCleared, 0, 0), Ok(true))
        else (s, Ok(true))
  }

  // ----- operations in place -------------------------------------------------------

  class BudgetService {
    var accounts: map<Id, Account>
    var entries: map<Id, seq<Entry>>
    var reservations: map<Id, Reservation>
    var calls: map<Id, Id>

    function Contents(): BudgetState
      reads this
    {
      BudgetState(accounts, entries, reservations, calls)
    }

    /** The reservation is active, and its account is there. */
    predicate Held(rid: Id)
      reads this
    {
      && rid in reservations && reservations[rid].state == Active
      && reservations[rid].accountId in accounts && reservations[rid].accountId in entries
    }

    constructor ()
      ensures Contents() == Empty
    {
      accounts, entries, reservations, calls := map[], map[], map[], map[];
    }

    method AppendEntry(id: Id, kind: EntryType, amount: nat, reservationAmount: nat)
      requires id in accounts && id in entries
      modifies this`accounts, this`entries
      ensures Contents() == Append(old(Contents()), id, kind, amount, reservationAmount)
    {
      var account := accounts[id];
      var entry := Entry(kind, amount, account.lastSequence + 1, reservationAmount);
      entries := entries[id := entries[id] + [entry]];
      accounts := accounts[id := account.(lastSequence := entry.sequence, revision := account.revision + 1)];
    }

    method CreateAccount(id: Id, taskId: Id, requested: int, capabilityRef: Id) returns (error: Option<Error>)
      requires id !in accounts
      modifies this
      ensures (Contents(), error) == Created(old(Contents()), id, taskId, requested, capabilityRef)
      ensures error == if 1 <= requested <= 1_000_000 then None else Some(InvalidBudget)
      ensures error != None ==> Contents() == old(Contents())
      ensures error == None ==>
        && accounts == old(accounts)[id := Account(taskId, Open, 1, 1, capabilityRef, false, false)]
        && entries == old(entries)[id := [Entry(AuthorizationInitial, requested, 1, 0)]]
        && reservations == old(reservations) && calls == old(calls)
    {
      if !(1 <= requested <= MAX_AUTHORIZATION) { return Some(InvalidBudget); }
      accounts := accounts[id := Account(taskId, Open, 1, 1, capabilityRef, false, false)];
      entries := entries[id := [Entry(AuthorizationInitial, requested, 1, 0)]];
      return None;
    }

    method PrepareReservation(rid: Id, id: Id, callId: Id, inputBound: int, outputMax: int,
                              requestDigest: Id, capability: Capability)
      returns (result: Result<Prepared, Error>)
      requires rid !in reservations
      modifies this
      ensures (Contents(), result) ==
              Reserved(old(Contents()), rid, id, callId, inputBound, outputMax, requestDigest, capability)
      ensures result.Ok? && result.value.Granted? <==>
        && id in old(accounts) && id in old(entries)
        && old(accounts)[id].state == Open && !old(accounts)[id].pendingRevalidation
        && callId !in old(calls)
        && capability.valid && capability.id == old(accounts)[id].capabilityRef
        && capability.preparedDigest == requestDigest == capability.countedDigest
        && 0 <= inputBound && 0 <= outputMax && 0 < inputBound + outputMax
        && old(SummaryOf(Contents(), id)).known + old(SummaryOf(Contents(), id)).uncertain
           + old(SummaryOf(Contents(), id)).active + inputBound + outputMax <= old(SummaryOf(Contents(), id)).authorized
      ensures result.Ok? && result.value.Granted? ==>
        var account := old(accounts)[id];
        && result.value.reservation ==
             Reservation(id, callId, inputBound, outputMax, inputBound + outputMax, requestDigest, Active, KnownUsage, None)
        && reservations == old(reservations)[rid := result.value.reservation]
        && calls == old(calls)[callId := rid]
        && entries == old(entries)[id :=
             old(entries)[id] + [Entry(ReservationCreated, inputBound + outputMax, account.lastSequence + 1, 0)]]
        && accounts == old(accounts)[id :=
             account.(lastSequence := account.lastSequence + 1, revision := account.revision + 1)]
      ensures !(result.Ok? && result.value.Granted?) ==> Contents() == old(Contents())
      ensures result.Ok? && result.value.Denied? && result.value.frozen <==>
        id in old(accounts) && id in old(entries)
        && (old(accounts)[id].state != Open || old(accounts)[id].pendingRevalidation)
      ensures result.Ok? && result.value.Denied? ==>
        result.value.requested == inputBound + outputMax
        && result.value.available == if result.value.frozen then 0 else old(SummaryOf(Contents(), id)).remaining
      ensures result.Ok? && result.value.Denied? && !result.value.frozen ==> result.value.available < inputBound + outputMax
      ensures result == Err(AccountNotFound) <==> id !in old(accounts) || id !in old(entries)
      ensures result == Err(ReservationExists) ==> callId in old(calls)
      ensures result == Err(CapabilityIncompatible) ==>
        callId !in old(calls) && (!capability.valid || capability.id != old(accounts)[id].capabilityRef)
      ensures result == Err(RequestMismatch) ==>
        callId !in old(calls) && capability.valid && capability.id == old(accounts)[id].capabilityRef
        && (capability.preparedDigest != requestDigest || capability.countedDigest != requestDigest)
      ensures result == Err(InvalidBudget) ==>
        callId !in old(calls) && capability.valid && capability.preparedDigest == requestDigest == capability.countedDigest
        && (inputBound < 0 || outputMax < 0 || inputBound + outputMax <= 0)
    {
      hide SummaryOf, Project;
      if id !in accounts || id !in entries { return Err(AccountNotFound); }
      var account := accounts[id];
      if account.state != Open || account.pendingRevalidation {
        return Ok(Denied(true, inputBound + outputMax, 0));
      }
      if callId in calls { return Err(ReservationExists); }
      if !capability.valid || capability.id != account.capabilityRef { return Err(CapabilityIncompatible); }
      if capability.preparedDigest != requestDigest || capability.countedDigest != requestDigest {
        return Err(RequestMismatch);
      }
      if inputBound < 0 || outputMax < 0 || inputBound + outputMax <= 0 { return Err(InvalidBudget); }
      var amount := inputBound + outputMax;
      SpendableCovers(Contents(), id, amount);
      var available := SummaryOf(Contents(), id).spendable;
      if amount > available { return Ok(Denied(false, amount, available)); }
      var r := Reservation(id, callId, inputBound, outputMax, amount, requestDigest, Active, KnownUsage, None);
      reservations := reservations[rid := r];
      calls := calls[callId := rid];
      AppendEntry(id, ReservationCreated, amount, 0);
      return Ok(Granted(r));
    }

    method ReleaseUnsentReservation(rid: Id) returns (error: Option<Error>)
      modifies this
      ensures (Contents(), error) == ReleasedUnsent(old(Contents()), rid)
      ensures error == Some(ReservationNotFound) <==> rid !in old(reservations)
      ensures error == Some(AlreadySettled) <==> rid in old(reservations) && old(reservations)[rid].state != Active
      ensures error == None <==> old(Held(rid))
      ensures error != None ==> Contents() == old(Contents())
      ensures error == None ==>
        var r := old(reservations)[rid];
        var account := old(accounts)[r.accountId];
        && reservations == old(reservations)[rid := r.(state := Released)] && calls == old(calls)
        && entries == old(entries)[r.accountId :=
             old(entries)[r.accountId] + [Entry(ReservationReleased, r.amount, account.lastSequence + 1, r.amount)]]
        && accounts == old(accounts)[r.accountId :=
             account.(lastSequence := account.lastSequence + 1, revision := account.revision + 1)]
    {
      error := Closable(Contents(), rid);
      if error != None { return; }
      var r := reservations[rid];
      reservations := reservations[rid := r.(state := Released)];
      AppendEntry(r.accountId, ReservationReleased, r.amount, r.amount);
    }

    method SettleKnownUsage(rid: Id, inputTokens: nat, outputTokens: nat) returns (error: Option<Error>)
      modifies this
      ensures (Contents(), error) == SettledWithKnown(old(Contents()), rid, inputTokens, outputTokens)
      ensures error == Some(ReservationNotFound) <==> rid !in old(reservations)
      ensures error == Some(AlreadySettled) <==> rid in old(reservations) && old(reservations)[rid].state != Active
      ensures error == None <==> old(Held(rid))
      ensures error != None ==> Contents() == old(Contents())
      ensures error == None ==>
        var r := old(reservations)[rid];
        && reservations == old(reservations)[rid :=
             r.(state := SettledKnown, usageState := KnownUsage, actual := Some(inputTokens + outputTokens))]
        && calls == old(calls)
      ensures error == None && inputTokens + outputTokens <= old(reservations)[rid].amount ==>
        var r := old(reservations)[rid];
        var account := old(accounts)[r.accountId];
        && entries == old(entries)[r.accountId := old(entries)[r.accountId] +
             [Entry(UsageSettled, inputTokens + outputTokens, account.lastSequence + 1, r.amount)]]
        && accounts == old(accounts)[r.accountId :=
             account.(lastSequence := account.lastSequence + 1, revision := account.revision + 1)]
      ensures error == None && inputTokens + outputTokens > old(reservations)[rid].amount ==>
        var r := old(reservations)[rid];
        var account, n := old(accounts)[r.accountId], old(accounts)[r.accountId].lastSequence;
        && entries == old(entries)[r.accountId := old(entries)[r.accountId] +
             [Entry(UsageSettled, inputTokens + outputTokens, n + 1, r.amount)] +
             [Entry(UsageOverageRecorded, inputTokens + outputTokens - r.amount, n + 2, 0)] + [Entry(FreezeApplied, 0, n + 3, 0)]]
        && accounts == old(accounts)[r.accountId :=
             account.(state := FrozenOverage, activeFreeze := true, lastSequence := n + 3, revision := account.revision + 4)]
    {
      error := Closable(Contents(), rid);
      if error != None { return; }
      var r := reservations[rid];
      var actual := inputTokens + outputTokens;
      var overage := Max(0, actual - r.amount);
      reservations := reservations[rid := r.(state := SettledKnown, usageState := KnownUsage, actual := Some(actual))];
      AppendEntry(r.accountId, UsageSettled, actual, r.amount);
      if overage != 0 {
        AppendEntry(r.accountId, UsageOverageRecorded, overage, 0);
        var account := accounts[r.accountId];
        accounts := accounts[r.accountId :=
          account.(state := FrozenOverage, activeFreeze := true, revision := account.revision + 1)];
        AppendEntry(r.accountId, FreezeApplied, 0, 0);
      }
    }

    method SettleUncertainUsage(rid: Id, usage: UsageState, reported: Option<int>) returns (error: Option<Error>)
      modifies this
      ensures (Contents(), error) == SettledWithUncertain(old(Contents()), rid, usage, reported)
      ensures error == Some(ReservationNotFound) <==> rid !in old(reservations)
      ensures error == Some(AlreadySettled) <==> rid in old(reservations) && old(reservations)[rid].state != Active
      ensures error == None <==>
        old(Held(rid)) && (usage == Missing || usage == Untrusted) && (reported.Some? ==> 0 <= reported.value)
      ensures error != None ==> Contents() == old(Contents())
      ensures error == None ==>
        var r := old(reservations)[rid];
        var account := old(accounts)[r.accountId];
        var more := reported.Some? && reported.value > r.amount;
        var charged := if more then reported.value else r.amount;
        && reservations == old(reservations)[rid :=
             r.(state := SettledUncertain, usageState := usage, actual := Some(charged))]
        && calls == old(calls)
        && entries == old(entries)[r.accountId :=
             old(entries)[r.accountId] + [Entry(UnknownCommitted, charged, account.lastSequence + 1, r.amount)]]
        && accounts == old(accounts)[r.accountId :=
             account.(lastSequence := account.lastSequence + 1,
                      pendingRevalidation := account.pendingRevalidation || more,
                      revision := account.revision + (if more then 2 else 1))]
    {
      error := Closable(Contents(), rid);
      if error != None { return; }
      if usage == KnownUsage || (reported.Some? && reported.value < 0) { return Some(UsageInvalid); }
      var r := reservations[rid];
      var amount := Max(r.amount, if reported.Some? then reported.value else 0);
      reservations := reservations[rid := r.(state := SettledUncertain, usageState := usage, actual := Some(amount))];
      AppendEntry(r.accountId, UnknownCommitted, amount, r.amount);
      if amount > r.amount {
        var account := accounts[r.accountId];
        accounts := accounts[r.accountId := account.(pendingRevalidation := true, revision := account.revision + 1)];
      }
    }

    method AddAuthorization(id: Id, amount: int) returns (error: Option<Error>)
      modifies this
      ensures (Contents(), error) == Authorize(old(Contents()), id, amount)
      ensures error == None <==>
        0 < amount && id in old(accounts) && id in old(entries)
        && old(SummaryOf(Contents(), id)).authorized + amount <= 1_000_000
      ensures error != None ==> Contents() == old(Contents())
      ensures error == None ==>
        var account := old(accounts)[id];
        && entries == old(entries)[id := old(entries)[id] + [Entry(AuthorizationAdded, amount, account.lastSequence + 1, 0)]]
        && accounts == old(accounts)[id := account.(revision := account.revision + 1)]
        && reservations == old(reservations) && calls == old(calls)
    {
      if amount <= 0 { return Some(InvalidBudget); }
      if id !in accounts || id !in entries { return Some(AccountNotFound); }
      var account := accounts[id];
      if SummaryOf(Contents(), id).authorized + amount > MAX_AUTHORIZATION {
        return Some(AuthorizationLimitExceeded);
      }
      AppendEntry(id, AuthorizationAdded, amount, 0);
      accounts := accounts[id := account.(revision := account.revision + 1)];
      return None;
    }

    method EvaluateUnfreeze(id: Id, capability: Capability, explicitResume: bool) returns (result: Result<bool, Error>)
      modifies this
      ensures (Contents(), result) == Unfrozen(old(Contents()), id, capability, explicitResume)
      ensures result == Err(AccountNotFound) <==> id !in old(accounts) || id !in old(entries)
      ensures result == Ok(true) <==>
        && id in old(accounts) && id in old(entries)
        && explicitResume && capability.valid && capability.id == old(accounts)[id].capabilityRef
        && old(SummaryOf(Contents(), id)).known + old(SummaryOf(Contents(), id)).uncertain
           + old(SummaryOf(Contents(), id)).active <= old(SummaryOf(Contents(), id)).authorized
      ensures Contents() != old(Contents()) ==> result == Ok(true)
      ensures result == Ok(true) ==>
        var account := old(accounts)[id];
        if account.state == FrozenOverage || account.pendingRevalidation then
          && accounts == old(accounts)[id :=
               account.(state := Open, activeFreeze := false, pendingRevalidation := false,
                        lastSequence := account.lastSequence + 1, revision := account.revision + 2)]
          && entries == old(entries)[id := old(entries)[id] + [Entry(FreezeCleared, 0, account.lastSequence + 1, 0)]]
          && reservations == old(reservations) && calls == old(calls)
        else Contents() == old(Contents())
    {
      hide Project;
      if id !in accounts || id !in entries { return Err(AccountNotFound); }
      var account := accounts[id];
      if !explicitResume || !capability.valid || capability.id != account.capabilityRef { return Ok(false); }
      var summary := SummaryOf(Contents(), id);
      if summary.authorized < summary.Committed() { return Ok(false); }
      if account.state == FrozenOverage || account.pendingRevalidation {
        accounts := accounts[id := account.(state := Open, activeFreeze := false, pendingRevalidation := false,
                                            revision := account.revision + 1)];
        AppendEntry(id, FreezeCleared, 0, 0);
      }
      return Ok(true);
    }
  }
}
