/** The append-only token ledger of an account and its projection to a summary. */
module BudgetLedger {

  const MAX_AUTHORIZATION: nat := 1_000_000

  datatype AccountState = Open | FrozenOverage | Closed

  datatype EntryType =
    | AuthorizationInitial
    | AuthorizationAdded
    | ReservationCreated
    | ReservationReleased
    | UsageSettled
    | UnknownCommitted
    | UsageOverageRecorded
    | FreezeApplied
    | FreezeCleared
    | AccountClosed

  datatype Entry = Entry(kind: EntryType, amount: nat, sequence: nat, reservationAmount: nat)

  datatype Summary = Summary(
    ledgerVersion: nat,
    authorized: nat,
    known: nat,
    uncertain: nat,
    active: nat,
    released: nat,
    overage: nat,
    remaining: nat,
    deficit: nat,
    spendable: nat,
    state: AccountState,
    pendingRevalidation: bool)
  {
    function Committed(): nat {
      known + uncertain + active
    }
  }

  function Max(x: int, y: int): (z: int)
    ensures x <= z && y <= z && (z == x || z == y)
  {
    if x < y then y else x
  }

  /** The sum of the amounts of one kind of entry. */
  function Amount(entries: seq<Entry>, kind: EntryType): nat {
    if entries == [] then 0
    else
      var last := entries[|entries| - 1];
      Amount(entries[..|entries| - 1], kind) + (if last.kind == kind then last.amount else 0)
  }

  predicate Closes(kind: EntryType) {
    kind == ReservationReleased || kind == UsageSettled || kind == UnknownCommitted
  }

  /** The sum of the reservations that releases and settlements have closed. */
  function ClosedAmount(entries: seq<Entry>): nat {
    if entries == [] then 0
    else
      var last := entries[|entries| - 1];
      ClosedAmount(entries[..|entries| - 1]) + (if Closes(last.kind) then last.reservationAmount else 0)
  }

  function LastVersion(entries: seq<Entry>): nat {
    if entries == [] then 0
    else Max(LastVersion(entries[..|entries| - 1]), entries[|entries| - 1].sequence)
  }

  function Authorized(entries: seq<Entry>): nat {
    Amount(entries, AuthorizationInitial) + Amount(entries, AuthorizationAdded)
  }

  function Project(state: AccountState, entries: seq<Entry>, pendingRevalidation: bool): Summary {
    var authorized := Authorized(entries);
    var known, uncertain := Amount(entries, UsageSettled), Amount(entries, UnknownCommitted);
    var active := Max(0, Amount(entries, ReservationCreated) - ClosedAmount(entries));
    var committed := known + uncertain + active;
    var remaining := Max(0, authorized - committed);
    Summary(LastVersion(entries), authorized, known, uncertain, active,
            Amount(entries, ReservationReleased), Amount(entries, UsageOverageRecorded),
            remaining, Max(0, committed - authorized),
            if state == Open && !pendingRevalidation then remaining else 0,
            state, pendingRevalidation)
  }

  /** The entries up to a ledger version. */
  function UpTo(entries: seq<Entry>, version: nat): seq<Entry> {
    if entries == [] then []
    else
      var last := entries[|entries| - 1];
      UpTo(entries[..|entries| - 1], version) + (if last.sequence <= version then [last] else [])
  }
}
