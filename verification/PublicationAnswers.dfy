/** What the answers of the remote and the scanner do to a call. Everything here is said
    about the moments of a run, each an event and the state it met, and not about the steps
    of the protocol: which moments lie behind every request, every written row and every
    outcome. */
module PublicationAnswers {
  import opened Wrappers
  import opened PublicationTables
  import opened PublicationProtocol
  import opened PublicationSafety
  import PublicationTheorems

  datatype Moment = Moment(state: State, event: Event)

  function Trace(s: State, events: seq<Event>, late: bool): (tr: seq<Moment>)
    ensures |tr| == |events|
  {
    if events == [] then []
    else
      var init := events[..|events| - 1];
      Trace(s, init, late) + [Moment(Run(s, init, late), events[|events| - 1])]
  }

  lemma {:induction false} TraceAt(s: State, events: seq<Event>, late: bool, n: nat)
    requires n < |events|
    ensures Trace(s, events, late)[n] == Moment(Run(s, events[..n], late), events[n])
  {
    var init := events[..|events| - 1];
    if n < |init| {
      TraceAt(s, init, late, n);
      assert init[..n] == events[..n];
    }
  }

  // ----- what moments say --------------------------------------------------------------

  /** The call of `w` takes a step from `pc`. */
  predicate Acts(m: Moment, w: OwnerId, pc: Pc) {
    m.event.Act? && m.event.w == w && w in m.state.workers && m.state.workers[w].pc == pc
  }

  /** The call of `w`, standing at `pc`, has been told `a`. */
  ghost predicate Hears(tr: seq<Moment>, w: OwnerId, pc: Pc, a: Answer) {
    exists m :: m in tr && Acts(m, w, pc) && m.event.answer == a
  }

  predicate Begins(m: Moment, w: OwnerId) {
    m.event == Begin(w) && w !in m.state.workers
  }

  /** A lease on the task is in force, no matter whose. */
  predicate Busy(s: State) {
    s.tables.lease.Some? && s.now < s.tables.lease.value.expires
  }

  /** The call of `w` has the lease it was given, and it is in force. */
  predicate Owns(s: State, w: OwnerId)
    requires w in s.workers
  {
    && s.tables.lease.Some? && s.tables.lease.value.owner == w
    && s.tables.lease.value.token == s.workers[w].token && s.now < s.tables.lease.value.expires
  }

  /** The last comment on the remote under this marker. */
  ghost predicate LastComment(remote: seq<Post>, key: Key, comment: RemoteComment) {
    exists j :: 0 <= j < |remote| && remote[j].key == key && remote[j].comment == comment
      && forall k :: j < k < |remote| ==> remote[k].key != key
  }

  /** The moment stops the call before its first item; every item it fails gets `write`. */
  predicate Refuses(m: Moment, w: OwnerId, write: ItemWrite) {
    || (&& ((Acts(m, w, VerifyTarget) && m.event.answer.TargetError?) || (Acts(m, w, Search) && m.event.answer.SearchError?))
        && write == ItemWrite(if m.event.answer.unknown then Unknown else Failed, None, Some(m.event.answer.code)))
    || (Acts(m, w, VerifyTarget) && m.event.answer.Target? && !m.event.answer.open
        && write == ItemWrite(Failed, None, Some("publication_target_closed")))
    || (Acts(m, w, VerifyTarget) && m.event.answer.Target? && m.event.answer.open && !m.event.answer.headMatches
        && write == ItemWrite(Failed, None, Some("publication_target_changed")))
  }

  /** The create request of item `i` was confirmed, and the comment is there. */
  predicate Confirms(m: Moment, w: OwnerId, i: nat) {
    && Acts(m, w, Await(i)) && m.event.answer.CreateOk?
    && i < |m.state.plan| && Post(w, m.state.plan[i], m.event.answer.comment) in m.state.remote
  }

  /** The moment settles what the call may write to item `i` of the plan, and to no other. */
  ghost predicate Settles(m: Moment, w: OwnerId, i: nat, write: ItemWrite) {
    || (&& Acts(m, w, Search) && m.event.answer == SearchComplete && i < |m.state.plan|
        && write.state == Succeeded && write.error == None && write.remote.Some?
        && LastComment(m.state.remote, m.state.plan[i], write.remote.value))
    || (&& Acts(m, w, Scan(i)) && m.event.answer == ScanRejected
        && write == ItemWrite(Failed, None, Some("publication_content_rejected")))
    || (Confirms(m, w, i) && write == ItemWrite(Succeeded, Some(m.event.answer.comment), None))
    || (&& Acts(m, w, Await(i)) && m.event.answer.CreateError?
        && write == ItemWrite(if m.event.answer.unknown then Unknown else Failed, None, Some(m.event.answer.code)))
  }

  ghost predicate Decides(m: Moment, w: OwnerId, i: nat, write: ItemWrite) {
    Refuses(m, w, write) || Settles(m, w, i, write)
  }

  /** How many create requests of the call were confirmed. */
  function Confirmed(tr: seq<Moment>, w: OwnerId): nat {
    if tr == [] then 0
    else
      var m := tr[|tr| - 1];
      Confirmed(tr[..|tr| - 1], w) +
      (if w in m.state.workers && m.state.workers[w].pc.Await? && Confirms(m, w, m.state.workers[w].pc.i) then 1 else 0)
  }

  /** How many items of the plan had succeeded already, or are on the remote. */
  function Skippable(plan: seq<Key>, rows: map<Key, Row>, remote: seq<Post>): nat {
    if plan == [] then 0
    else
      var key := plan[|plan| - 1];
      Skippable(plan[..|plan| - 1], rows, remote) +
      (if (key in rows && rows[key].state == Succeeded) || OnRemote(remote, key) then 1 else 0)
  }

  // ----- what lies behind requests, rows and outcomes ----------------------------------

  /** Behind a request of `w` for `key`: the target was open and unchanged, the search did
      not find the marker, the item had not succeeded when the call read it, its content
      passed the scanner, and the lease was renewed for it. */
  ghost predicate Cleared(tr: seq<Moment>, plan: seq<Key>, w: OwnerId, key: Key) {
    exists i :: 0 <= i < |plan| && plan[i] == key
      && UnfinishedWhenRead(tr, w, key)
      && Hears(tr, w, VerifyTarget, Target(true, true))
      && MissedBySearch(tr, w, key)
      && RenewedAt(tr, w, Item(i))
      && Hears(tr, w, Scan(i), ScanPassed)
  }

  ghost predicate UnfinishedWhenRead(tr: seq<Moment>, w: OwnerId, key: Key) {
    exists m :: m in tr && Acts(m, w, Snapshot)
      && key in m.state.tables.rows && m.state.tables.rows[key].state != Succeeded
  }

  ghost predicate MissedBySearch(tr: seq<Moment>, w: OwnerId, key: Key) {
    exists m :: m in tr && Acts(m, w, Search) && m.event.answer == SearchComplete && !OnRemote(m.state.remote, key)
  }

  ghost predicate RenewedAt(tr: seq<Moment>, w: OwnerId, pc: Pc) {
    exists m :: m in tr && Acts(m, w, pc) && Owns(m.state, w)
  }

  /** Behind a row of item `i` that carries the token of `w`: the one moment that decides it,
      and the unfinished row the call read, whose version it replaces. A failed search
      spares the rows that were unknown. */
  ghost predicate RowDecided(tr: seq<Moment>, w: OwnerId, i: nat, key: Key, row: Row) {
    exists m, r :: m in tr && r in tr && Acts(r, w, Snapshot)
      && Decides(m, w, i, ItemWrite(row.state, row.remote, row.error))
      && key in r.state.tables.rows
      && r.state.tables.rows[key].state != Succeeded
      && row.version == r.state.tables.rows[key].version + 1
      && (m.event.Act? && m.event.answer.SearchError? ==> r.state.tables.rows[key].state != Unknown)
  }

  ghost predicate RowExplained(tr: seq<Moment>, plan: seq<Key>, w: OwnerId, key: Key, row: Row) {
    exists i :: 0 <= i < |plan| && plan[i] == key && RowDecided(tr, w, i, key, row)
  }

  /** The skipped items are those that had succeeded when the call read them and, if its
      search completed, those whose marker was found. */
  ghost predicate SkippedExplained(tr: seq<Moment>, plan: seq<Key>, w: OwnerId, skipped: nat) {
    exists r :: r in tr && Acts(r, w, Snapshot) && SkippedSince(tr, plan, w, r.state.tables.rows, skipped)
  }

  ghost predicate SkippedSince(tr: seq<Moment>, plan: seq<Key>, w: OwnerId, rows: map<Key, Row>, skipped: nat) {
    || (skipped == Skippable(plan, rows, []) && (skipped == |plan| || exists m, write :: m in tr && Refuses(m, w, write)))
    || (exists m :: m in tr && Acts(m, w, Search) && m.event.answer == SearchComplete
          && skipped == Skippable(plan, rows, m.state.remote))
  }

  /** Behind an outcome: the moment that brought it about. */
  ghost predicate Explained(tr: seq<Moment>, plan: seq<Key>, w: OwnerId, outcome: Outcome) {
    match outcome
    case NotAcquired => exists m :: m in tr && Begins(m, w) && Busy(m.state)
    case LeaseHeld => exists m :: m in tr && RenewalFails(m, w)
    case FenceLost => exists m :: m in tr && WriteFails(m, w)
    case Raised => Hears(tr, w, VerifyTarget, PortRaised) || Hears(tr, w, Search, PortRaised)
                   || exists i: nat :: Hears(tr, w, Await(i), PortRaised)
    case Crashed => exists m :: m in tr && m.event == Crash(w)
    case Returned(result) =>
      && result.published == Confirmed(tr, w)
      && SkippedExplained(tr, plan, w, result.skipped)
      && exists m :: m in tr && (Acts(m, w, Snapshot) || Acts(m, w, ReadResult))
           && result == Finish(ReadItems(plan, m.state.tables.rows), result.published, result.skipped)
  }

  predicate RenewalFails(m: Moment, w: OwnerId) {
    && m.event.Act? && m.event.w == w && w in m.state.workers && !Owns(m.state, w)
    && var pc := m.state.workers[w].pc; pc.RenewForTarget? || pc.RenewForSearch? || pc.Item?
  }

  predicate WriteFails(m: Moment, w: OwnerId) {
    && m.event.Act? && m.event.w == w && w in m.state.workers
    && var me := m.state.workers[w];
    && (me.pc.Item? || me.pc.Write? || me.pc.FailItem?) && me.pc.i < |m.state.plan|
    && var key := m.state.plan[me.pc.i];
    && key in me.remaining && key in m.state.tables.rows
    && (!Owns(m.state, w) || m.state.tables.rows[key].version != me.remaining[key].version)
  }

  // ----- where a call stands and what has brought it there -----------------------------

  /** The rows as read at the snapshot are what remains to be done. */
  ghost predicate Read(tr: seq<Moment>, plan: seq<Key>, w: OwnerId, remaining: map<Key, Row>) {
    exists m :: m in tr && Acts(m, w, Snapshot) && Unfinished(m.state.tables.rows, remaining)
      && forall k :: k in plan ==> k in m.state.tables.rows
  }

  ghost predicate Unfinished(rows: map<Key, Row>, remaining: map<Key, Row>) {
    forall k ::
      && (k in remaining <==> k in rows && rows[k].state != Succeeded)
      && (k in remaining ==> remaining[k] == rows[k])
  }

  /** The search was complete and found these comments. */
  ghost predicate Looked(tr: seq<Moment>, w: OwnerId, remaining: map<Key, Row>, found: map<Key, RemoteComment>) {
    exists m :: m in tr && Acts(m, w, Search) && m.event.answer == SearchComplete && FoundThere(m.state.remote, remaining, found)
  }

  ghost predicate FoundThere(remote: seq<Post>, remaining: map<Key, Row>, found: map<Key, RemoteComment>) {
    forall k ::
      && (k in found <==> k in remaining && OnRemote(remote, k))
      && (k in found ==> LastComment(remote, k, found[k]))
  }

  ghost predicate Refused(tr: seq<Moment>, w: OwnerId, failure: ItemWrite, preserve: bool) {
    exists m :: m in tr && Refuses(m, w, failure) && preserve == m.event.answer.SearchError?
  }

  ghost predicate Settled(tr: seq<Moment>, w: OwnerId, i: nat, write: ItemWrite) {
    exists m :: m in tr && Settles(m, w, i, write)
  }

  /** The items of the plan that were not to be done, and those below `i` that were found. */
  function Skips(plan: seq<Key>, remaining: map<Key, Row>, found: map<Key, RemoteComment>, i: nat): nat {
    if plan == [] then 0
    else
      var n := |plan| - 1;
      Skips(plan[..n], remaining, found, i) +
      (if plan[n] !in remaining || (n < i && plan[n] in found) then 1 else 0)
  }

  ghost predicate Unsearched(plan: seq<Key>, me: Worker) {
    me.found == map[] && me.skipped == Skips(plan, me.remaining, map[], 0)
  }

  /** At work on the items: the target was verified and the search was complete. */
  ghost predicate Underway(tr: seq<Moment>, plan: seq<Key>, w: OwnerId, me: Worker, i: nat) {
    && Hears(tr, w, VerifyTarget, Target(true, true))
    && Looked(tr, w, me.remaining, me.found)
    && me.skipped == Skips(plan, me.remaining, me.found, i)
  }

  ghost predicate Course(tr: seq<Moment>, plan: seq<Key>, w: OwnerId, me: Worker) {
    match me.pc
    case Snapshot => me.found == map[]
    case RenewForTarget => Unsearched(plan, me)
    case VerifyTarget => Unsearched(plan, me) && RenewedAt(tr, w, RenewForTarget)
    case RenewForSearch => Unsearched(plan, me) && Hears(tr, w, VerifyTarget, Target(true, true))
    case Search =>
      && Unsearched(plan, me)
      && Hears(tr, w, VerifyTarget, Target(true, true))
      && RenewedAt(tr, w, RenewForSearch)
    case Item(i) => Underway(tr, plan, w, me, i)
    case Scan(i) => Underway(tr, plan, w, me, i) && RenewedAt(tr, w, Item(i))
    case Create(i) => Underway(tr, plan, w, me, i) && RenewedAt(tr, w, Item(i)) && Hears(tr, w, Scan(i), ScanPassed)
    case Await(i) => Underway(tr, plan, w, me, i) && RenewedAt(tr, w, Item(i)) && Hears(tr, w, Scan(i), ScanPassed)
    case Write(i, write) => Underway(tr, plan, w, me, i) && Settled(tr, w, i, write) && i < |plan| && plan[i] !in me.found
    case FailItem(_, failure, preserve) => Unsearched(plan, me) && Refused(tr, w, failure, preserve)
    case ReadResult => SkippedExplained(tr, plan, w, me.skipped)
    case Release(outcome) => Explained(tr, plan, w, outcome)
    case Done(outcome) => Explained(tr, plan, w, outcome)
  }

  ghost predicate Created(tr: seq<Moment>, w: OwnerId, me: Worker) {
    match me.pc
    case Snapshot => Confirmed(tr, w) == 0
    case Write(_, write) => me.created + (if write.state == Succeeded then 1 else 0) == Confirmed(tr, w)
    case Release(_) => true
    case Done(_) => true
    case _ => me.created == Confirmed(tr, w)
  }

  /** The token is the one the call got when it began, on a free lease. */
  ghost predicate Started(tr: seq<Moment>, w: OwnerId, me: Worker) {
    || (me.pc == Done(NotAcquired) && me.token == 0)
    || (exists m :: m in tr && Begins(m, w) && !Busy(m.state) && me.token == m.state.tables.lastToken + 1)
  }

  /** While the call has its lease row, the row runs for 600 seconds from the renewal it
      made on the way to where it stands. */
  ghost predicate Timed(tr: seq<Moment>, w: OwnerId, pc: Pc, expires: int) {
    match pc
    case Snapshot => exists m :: m in tr && Begins(m, w) && expires == m.state.now + 600
    case RenewForTarget => exists m :: m in tr && Begins(m, w) && expires == m.state.now + 600
    case VerifyTarget => RenewedFor(tr, w, RenewForTarget, expires)
    case RenewForSearch => RenewedFor(tr, w, RenewForTarget, expires)
    case Search => RenewedFor(tr, w, RenewForSearch, expires)
    case Scan(i) => RenewedFor(tr, w, Item(i), expires)
    case Create(i) => RenewedFor(tr, w, Item(i), expires)
    case Await(i) => RenewedFor(tr, w, Item(i), expires)
    case _ => true
  }

  ghost predicate RenewedFor(tr: seq<Moment>, w: OwnerId, pc: Pc, expires: int) {
    exists m :: m in tr && Acts(m, w, pc) && Owns(m.state, w) && expires == m.state.now + 600
  }

  ghost predicate SearchFailed(tr: seq<Moment>, w: OwnerId) {
    exists m :: m in tr && Acts(m, w, Search) && m.event.answer.SearchError?
  }

  /** The call has written the item, or a failed search spared it. */
  ghost predicate Dealt(tr: seq<Moment>, rows: map<Key, Row>, w: OwnerId, token: nat, key: Key, read: Row) {
    key in rows && (rows[key].token == token || (read.state == Unknown && SearchFailed(tr, w)))
  }

  ghost predicate DealtBelow(tr: seq<Moment>, plan: seq<Key>, rows: map<Key, Row>, w: OwnerId, me: Worker, n: nat) {
    forall j :: 0 <= j < n && j < |plan| && plan[j] in me.remaining ==> Dealt(tr, rows, w, me.token, plan[j], me.remaining[plan[j]])
  }

  /** Every item had succeeded when the call read it, or has been dealt with. */
  ghost predicate AllDealt(tr: seq<Moment>, plan: seq<Key>, rows: map<Key, Row>, w: OwnerId, token: nat) {
    exists r :: r in tr && Acts(r, w, Snapshot) && AllDealtSince(tr, plan, r.state.tables.rows, rows, w, token)
  }

  ghost predicate AllDealtSince(tr: seq<Moment>, plan: seq<Key>, read: map<Key, Row>, rows: map<Key, Row>, w: OwnerId, token: nat) {
    forall j :: 0 <= j < |plan| ==>
      plan[j] in read && (read[plan[j]].state == Succeeded || Dealt(tr, rows, w, token, plan[j], read[plan[j]]))
  }

  /** What a call that still has its lease row has done to the rows so far. */
  ghost predicate DealtWith(tr: seq<Moment>, plan: seq<Key>, rows: map<Key, Row>, w: OwnerId, me: Worker) {
    && (Working(me.pc) ==> DealtBelow(tr, plan, rows, w, me, Handled(me.pc, |plan|)))
    && (me.pc.Release? && me.pc.outcome.Returned? ==> AllDealt(tr, plan, rows, w, me.token))
  }

  ghost predicate RowsExplained(tr: seq<Moment>, plan: seq<Key>, rows: map<Key, Row>, w: OwnerId, token: nat) {
    token > 0 ==> forall k :: k in rows && rows[k].token == token ==> RowExplained(tr, plan, w, k, rows[k])
  }

  ghost predicate WorkerKnown(tr: seq<Moment>, s: State, w: OwnerId)
    requires w in s.workers
  {
    var me := s.workers[w];
    && Started(tr, w, me)
    && (Working(me.pc) ==> Read(tr, s.plan, w, me.remaining))
    && Created(tr, w, me)
    && Course(tr, s.plan, w, me)
    && RowsExplained(tr, s.plan, s.tables.rows, w, me.token)
    && (HeldBy(s.tables, w) ==> Timed(tr, w, me.pc, s.tables.lease.value.expires))
    && (HeldBy(s.tables, w) ==> DealtWith(tr, s.plan, s.tables.rows, w, me))
  }

  ghost predicate TokensDiffer(workers: map<OwnerId, Worker>) {
    forall w, x :: w in workers && x in workers && w != x && workers[w].token == workers[x].token ==> workers[w].token == 0
  }

  ghost predicate RequestsCleared(tr: seq<Moment>, s: State) {
    && (forall w, k :: (w, k) in s.inflight ==> Cleared(tr, s.plan, w, k))
    && (forall j :: 0 <= j < |s.remote| ==> Cleared(tr, s.plan, s.remote[j].owner, s.remote[j].key))
  }

  /** What every state of a run owes to the moments before it. */
  ghost predicate Known(tr: seq<Moment>, s: State) {
    && (forall w :: w in s.workers ==> WorkerKnown(tr, s, w))
    && (forall w :: w !in s.workers ==> Confirmed(tr, w) == 0)
    && TokensDiffer(s.workers)
    && RequestsCleared(tr, s)
    && PlansAre(tr, s.plan)
  }

  ghost predicate PlansAre(tr: seq<Moment>, plan: seq<Key>) {
    forall m :: m in tr ==> m.state.plan == plan
  }

  // ----- moments are kept --------------------------------------------------------------

  lemma ConfirmedKept(tr: seq<Moment>, m: Moment, w: OwnerId)
    ensures Confirmed(tr + [m], w) == Confirmed(tr, w) +
      (if w in m.state.workers && m.state.workers[w].pc.Await? && Confirms(m, w, m.state.workers[w].pc.i) then 1 else 0)
  {
    assert (tr + [m])[..|tr|] == tr;
  }

  lemma CourseKept(tr: seq<Moment>, m: Moment, plan: seq<Key>, w: OwnerId, me: Worker)
    requires Course(tr, plan, w, me)
    requires me.pc.Release? || me.pc.Done? ==> Confirmed(tr + [m], w) == Confirmed(tr, w)
    ensures Course(tr + [m], plan, w, me)
  {
    hide Confirmed, Skippable, Skips, Settles, Refuses, FoundThere, Finish;
    forall x | x in tr ensures x in tr + [m] {}
    match me.pc
    case ReadResult => SkippedKept(tr, m, plan, w, me.skipped);
    case Release(outcome) => ExplainedKept(tr, m, plan, w, outcome);
    case Done(outcome) => ExplainedKept(tr, m, plan, w, outcome);
    case _ =>
  }

  lemma SkippedKept(tr: seq<Moment>, m: Moment, plan: seq<Key>, w: OwnerId, skipped: nat)
    requires SkippedExplained(tr, plan, w, skipped)
    ensures SkippedExplained(tr + [m], plan, w, skipped)
  {
    hide Skippable, Refuses;
    var r :| r in tr && Acts(r, w, Snapshot) && SkippedSince(tr, plan, w, r.state.tables.rows, skipped);
    forall x | x in tr ensures x in tr + [m] {}
    assert SkippedSince(tr + [m], plan, w, r.state.tables.rows, skipped);
    assert r in tr + [m];
  }

  lemma ExplainedKept(tr: seq<Moment>, m: Moment, plan: seq<Key>, w: OwnerId, outcome: Outcome)
    requires Explained(tr, plan, w, outcome) && Confirmed(tr + [m], w) == Confirmed(tr, w)
    ensures Explained(tr + [m], plan, w, outcome)
  {
    hide Skippable, Refuses, Confirmed, Finish;
    forall x | x in tr ensures x in tr + [m] {}
    if outcome.Returned? { SkippedKept(tr, m, plan, w, outcome.result.skipped); }
  }

  lemma ClearedKept(tr: seq<Moment>, m: Moment, plan: seq<Key>, w: OwnerId, key: Key)
    requires Cleared(tr, plan, w, key)
    ensures Cleared(tr + [m], plan, w, key)
  {
    forall x | x in tr ensures x in tr + [m] {}
  }

  lemma RowExplainedKept(tr: seq<Moment>, m: Moment, plan: seq<Key>, w: OwnerId, key: Key, row: Row)
    requires RowExplained(tr, plan, w, key, row)
    ensures RowExplained(tr + [m], plan, w, key, row)
  {
    hide Decides;
    var i :| 0 <= i < |plan| && plan[i] == key && RowDecided(tr, w, i, key, row);
    forall x | x in tr ensures x in tr + [m] {}
    assert RowDecided(tr + [m], w, i, key, row);
  }

  lemma DealtKept(tr: seq<Moment>, m: Moment, plan: seq<Key>, rows: map<Key, Row>, w: OwnerId, me: Worker)
    requires DealtWith(tr, plan, rows, w, me)
    ensures DealtWith(tr + [m], plan, rows, w, me)
  {
    hide Acts;
    forall x | x in tr ensures x in tr + [m] {}
    if me.pc.Release? && me.pc.outcome.Returned? {
      var r :| r in tr && Acts(r, w, Snapshot) && AllDealtSince(tr, plan, r.state.tables.rows, rows, w, me.token);
      assert AllDealtSince(tr + [m], plan, r.state.tables.rows, rows, w, me.token);
      assert r in tr + [m];
    }
  }

  /** Everything said about `w` is still so a moment later if the moment is not its own and
      confirms nothing of it. */
  lemma WorkerKept(tr: seq<Moment>, m: Moment, s: State, w: OwnerId)
    requires w in s.workers && WorkerKnown(tr, s, w)
    requires Confirmed(tr + [m], w) == Confirmed(tr, w)
    ensures WorkerKnown(tr + [m], s, w)
  {
    hide Course, Confirmed, RowExplained, DealtWith;
    var me := s.workers[w];
    CourseKept(tr, m, s.plan, w, me);
    if HeldBy(s.tables, w) { DealtKept(tr, m, s.plan, s.tables.rows, w, me); }
    forall x | x in tr ensures x in tr + [m] {}
    forall k | k in s.tables.rows && RowExplained(tr, s.plan, w, k, s.tables.rows[k])
      ensures RowExplained(tr + [m], s.plan, w, k, s.tables.rows[k])
    {
      RowExplainedKept(tr, m, s.plan, w, k, s.tables.rows[k]);
    }
  }

  // ----- what a step leaves to the other calls -------------------------------------------

  /** Rows change only to carry the token of the actor, and a lease row kept by anyone else
      is the same one. */
  ghost predicate TablesLeft(s: State, s': State, w: OwnerId) {
    && (w in s.workers ==> w in s'.workers && s'.workers[w].token == s.workers[w].token)
    && (forall k :: k in s'.tables.rows ==>
          (k in s.tables.rows && s'.tables.rows[k] == s.tables.rows[k])
          || (w in s.workers && s'.tables.rows[k].token == s.workers[w].token))
    && (forall x :: x != w && HeldBy(s'.tables, x) ==> s'.tables.lease == s.tables.lease)
  }

  lemma WriteLeaves(s: State, w: OwnerId, i: nat, write: ItemWrite, after: Worker)
    requires w in s.workers && i < |s.plan| && s.plan[i] in s.workers[w].remaining && after.token == s.workers[w].token
    ensures TablesLeft(s, WriteStep(s, w, i, write, after), w)
  {
  }

  lemma RenewLeaves(s: State, w: OwnerId, next: Pc)
    requires w in s.workers
    ensures TablesLeft(s, RenewStep(s, w, next), w)
  {
  }

  lemma ActLeaves(s: State, w: OwnerId, a: Answer)
    requires w in s.workers
    ensures TablesLeft(s, ActStep(s, w, a), w)
  {
    hide WriteStep, RenewStep, TablesLeft;
    var me := s.workers[w];
    match me.pc
    case RenewForTarget => RenewLeaves(s, w, VerifyTarget);
    case RenewForSearch => RenewLeaves(s, w, Search);
    case Item(i) => ItemLeaves(s, w, i);
    case Write(i, write) =>
      if i < |s.plan| && s.plan[i] in me.remaining {
        WriteLeaves(s, w, i, write,
          me.(pc := Item(i + 1), created := me.created + (if write.state == Succeeded then 1 else 0)));
      } else {
        SameTablesLeft(s, s, w);
      }
    case FailItem(i, failure, preserve) => FailLeaves(s, w, i, failure, preserve);
    case Release(outcome) => ReleaseLeaves(s, w, outcome);
    case _ => SameTablesLeft(s, ActStep(s, w, a), w);
  }

  lemma ItemLeaves(s: State, w: OwnerId, i: nat)
    requires w in s.workers
    ensures TablesLeft(s, ItemStep(s, w, i), w)
  {
    hide WriteStep, RenewStep, TablesLeft;
    var me := s.workers[w];
    if i < |s.plan| && s.plan[i] in me.remaining {
      if s.plan[i] in me.found {
        WriteLeaves(s, w, i, ItemWrite(Succeeded, Some(me.found[s.plan[i]]), None),
                    me.(pc := Item(i + 1), skipped := me.skipped + 1));
      } else {
        RenewLeaves(s, w, Scan(i));
      }
    } else {
      SameTablesLeft(s, ItemStep(s, w, i), w);
    }
  }

  lemma FailLeaves(s: State, w: OwnerId, i: nat, failure: ItemWrite, preserve: bool)
    requires w in s.workers
    ensures TablesLeft(s, FailStep(s, w, i, failure, preserve), w)
  {
    hide WriteStep, TablesLeft;
    var me := s.workers[w];
    if i < |s.plan| && s.plan[i] in me.remaining && !(preserve && me.remaining[s.plan[i]].state == Unknown) {
      WriteLeaves(s, w, i, failure, me.(pc := FailItem(i + 1, failure, preserve)));
    } else {
      SameTablesLeft(s, FailStep(s, w, i, failure, preserve), w);
    }
  }

  lemma ReleaseLeaves(s: State, w: OwnerId, outcome: Outcome)
    requires w in s.workers
    ensures TablesLeft(s, ReleaseStep(s, w, outcome), w)
  {
  }

  lemma SameTablesLeft(s: State, s': State, w: OwnerId)
    requires s'.tables == s.tables && (w in s.workers ==> w in s'.workers && s'.workers[w].token == s.workers[w].token)
    ensures TablesLeft(s, s', w)
  {
  }

  lemma StepLeaves(s: State, e: Event, late: bool)
    ensures TablesLeft(s, Step(s, e, late), Actor(e))
  {
    hide ActStep;
    match e
    case Act(w, a) => if w in s.workers { ActLeaves(s, w, a); }
    case _ =>
  }

  lemma OthersKnown(tr: seq<Moment>, s: State, e: Event, late: bool, x: OwnerId)
    requires Inv(s, late) && s.plan != [] && TokensDiffer(s.workers)
    requires x in s.workers && x != Actor(e) && WorkerKnown(tr, s, x)
    ensures x in Step(s, e, late).workers && WorkerKnown(tr + [Moment(s, e)], Step(s, e, late), x)
  {
    hide Inv, Step, Course, Read, Started, Created, RowExplained, Timed, DealtWith;
    EventKeeps(s, e, late);
    StepLeaves(s, e, late);
    ConfirmedKept(tr, Moment(s, e), x);
    WorkerKept(tr, Moment(s, e), s, x);
  }

  // ----- counting what is skipped ----------------------------------------------------------

  lemma {:induction false} SkipsAlike(plan: seq<Key>, remaining: map<Key, Row>, f: map<Key, RemoteComment>, i: nat,
                                      g: map<Key, RemoteComment>, j: nat)
    requires (f == map[] || i == 0) && (g == map[] || j == 0)
    ensures Skips(plan, remaining, f, i) == Skips(plan, remaining, g, j)
  {
    if plan != [] { SkipsAlike(plan[..|plan| - 1], remaining, f, i, g, j); }
  }

  lemma {:induction false} SkipsNext(plan: seq<Key>, remaining: map<Key, Row>, found: map<Key, RemoteComment>, i: nat)
    ensures Skips(plan, remaining, found, i + 1) == Skips(plan, remaining, found, i) +
      (if i < |plan| && plan[i] in remaining && plan[i] in found then 1 else 0)
  {
    if plan != [] {
      var init := plan[..|plan| - 1];
      SkipsNext(init, remaining, found, i);
      if i < |init| { assert init[i] == plan[i]; }
    }
  }

  lemma {:induction false} SkipsAreSkippable(plan: seq<Key>, rows: map<Key, Row>, remaining: map<Key, Row>,
                                             remote: seq<Post>, found: map<Key, RemoteComment>, i: nat)
    requires forall k :: k in plan ==> k in rows
    requires Unfinished(rows, remaining) && FoundThere(remote, remaining, found) && |plan| <= i
    ensures Skips(plan, remaining, found, i) == Skippable(plan, rows, remote)
  {
    if plan != [] {
      var init := plan[..|plan| - 1];
      assert plan == init + [plan[|plan| - 1]];
      SkipsAreSkippable(init, rows, remaining, remote, found, i);
    }
  }

  lemma {:induction false} SkipsAreDone(plan: seq<Key>, rows: map<Key, Row>, remaining: map<Key, Row>)
    requires forall k :: k in plan ==> k in rows
    requires Unfinished(rows, remaining)
    ensures Skips(plan, remaining, map[], 0) == Count(ReadItems(plan, rows), Succeeded)
  {
    hide Count, ReadItems;
    if plan == [] {
      NothingRead(rows);
    } else {
      var init, last := plan[..|plan| - 1], plan[|plan| - 1];
      assert plan == init + [last];
      SkipsAreDone(init, rows, remaining);
      SuccessesNext(init, last, rows);
      assert last in rows && (last !in remaining <==> RowOf(rows, last).state == Succeeded);
    }
  }

  lemma NothingRead(rows: map<Key, Row>)
    ensures Count(ReadItems([], rows), Succeeded) == 0
  {
  }

  lemma SuccessesNext(init: seq<Key>, last: Key, rows: map<Key, Row>)
    ensures Count(ReadItems(init + [last], rows), Succeeded) ==
      Count(ReadItems(init, rows), Succeeded) + (if RowOf(rows, last).state == Succeeded then 1 else 0)
  {
    assert ReadItems(init + [last], rows) == ReadItems(init, rows) + [RowOf(rows, last)];
  }

  lemma NoneFound(remaining: map<Key, Row>)
    ensures FoundThere([], remaining, map[])
  {
  }

  // ----- the steps of the call itself --------------------------------------------------------

  lemma RowsKept(tr: seq<Moment>, m: Moment, plan: seq<Key>, rows: map<Key, Row>, w: OwnerId, token: nat)
    requires RowsExplained(tr, plan, rows, w, token)
    ensures RowsExplained(tr + [m], plan, rows, w, token)
  {
    hide RowExplained;
    forall k | k in rows && RowExplained(tr, plan, w, k, rows[k]) ensures RowExplained(tr + [m], plan, w, k, rows[k]) {
      RowExplainedKept(tr, m, plan, w, k, rows[k]);
    }
  }

  lemma StartedKept(tr: seq<Moment>, m: Moment, w: OwnerId, me: Worker, me': Worker)
    requires Started(tr, w, me) && me.token == me'.token && me.pc != Done(NotAcquired)
    ensures Started(tr + [m], w, me')
  {
    forall x | x in tr ensures x in tr + [m] {}
  }

  lemma ReadKept(tr: seq<Moment>, m: Moment, plan: seq<Key>, w: OwnerId, remaining: map<Key, Row>)
    requires Read(tr, plan, w, remaining)
    ensures Read(tr + [m], plan, w, remaining)
  {
    forall x | x in tr ensures x in tr + [m] {}
  }

  lemma RenewedKept(tr: seq<Moment>, m: Moment, w: OwnerId, pc: Pc, expires: int)
    requires RenewedFor(tr, w, pc, expires)
    ensures RenewedFor(tr + [m], w, pc, expires)
  {
    forall x | x in tr ensures x in tr + [m] {}
  }

  lemma RenewedAtKept(tr: seq<Moment>, m: Moment, w: OwnerId, pc: Pc)
    requires RenewedAt(tr, w, pc)
    ensures RenewedAt(tr + [m], w, pc)
  {
    forall x | x in tr ensures x in tr + [m] {}
  }

  lemma HeardKept(tr: seq<Moment>, m: Moment, w: OwnerId, pc: Pc, a: Answer)
    requires Hears(tr, w, pc, a)
    ensures Hears(tr + [m], w, pc, a)
  {
    forall x | x in tr ensures x in tr + [m] {}
  }

  lemma LookedKept(tr: seq<Moment>, m: Moment, w: OwnerId, remaining: map<Key, Row>, found: map<Key, RemoteComment>)
    requires Looked(tr, w, remaining, found)
    ensures Looked(tr + [m], w, remaining, found)
  {
    forall x | x in tr ensures x in tr + [m] {}
  }

  lemma UnderwayKept(tr: seq<Moment>, m: Moment, plan: seq<Key>, w: OwnerId, me: Worker, i: nat)
    requires Underway(tr, plan, w, me, i)
    ensures Underway(tr + [m], plan, w, me, i)
  {
    hide Looked, Hears;
    HeardKept(tr, m, w, VerifyTarget, Target(true, true));
    LookedKept(tr, m, w, me.remaining, me.found);
  }

  /** A step that leaves the rows alone, from what it says of the place it leads to. */
  lemma MoveKnown(tr: seq<Moment>, s: State, a: Answer, s': State, w: OwnerId, me': Worker)
    requires w in s.workers && WorkerKnown(tr, s, w) && w in s'.workers && s'.workers[w] == me'
    requires s'.plan == s.plan && s'.tables.rows == s.tables.rows && me'.token == s.workers[w].token
    requires !s.workers[w].pc.Done?
    requires Working(me'.pc) && me'.pc != RenewForTarget ==> Working(s.workers[w].pc) && me'.remaining == s.workers[w].remaining
    requires me'.pc == RenewForTarget ==> Read(tr + [Moment(s, Act(w, a))], s.plan, w, me'.remaining)
    requires Created(tr + [Moment(s, Act(w, a))], w, me')
    requires Course(tr + [Moment(s, Act(w, a))], s.plan, w, me')
    requires HeldBy(s'.tables, w) ==> Timed(tr + [Moment(s, Act(w, a))], w, me'.pc, s'.tables.lease.value.expires)
    requires HeldBy(s'.tables, w) ==> DealtWith(tr + [Moment(s, Act(w, a))], s.plan, s.tables.rows, w, me')
    ensures WorkerKnown(tr + [Moment(s, Act(w, a))], s', w)
  {
    hide Course, Created, Read, RowsExplained, Timed, Started, DealtWith;
    var m := Moment(s, Act(w, a));
    StartedKept(tr, m, w, s.workers[w], me');
    RowsKept(tr, m, s.plan, s.tables.rows, w, me'.token);
    if Working(me'.pc) && me'.pc != RenewForTarget { ReadKept(tr, m, s.plan, w, me'.remaining); }
  }

  /** A move that deals with no further item, or with one that needs nothing. */
  lemma DealtOn(tr: seq<Moment>, m: Moment, plan: seq<Key>, rows: map<Key, Row>, w: OwnerId, me: Worker, me': Worker)
    requires DealtWith(tr, plan, rows, w, me) && Working(me.pc)
    requires !me'.pc.Release? || !me'.pc.outcome.Returned?
    requires Working(me'.pc) ==> me'.token == me.token && me'.remaining == me.remaining
    requires Working(me'.pc) ==>
      var h := Handled(me.pc, |plan|);
      Handled(me'.pc, |plan|) <= h || |plan| <= h
      || (Handled(me'.pc, |plan|) == h + 1 && (plan[h] !in me.remaining || Spared(tr, rows, w, me, plan[h])))
    ensures DealtWith(tr + [m], plan, rows, w, me')
  {
    hide Acts;
    forall x | x in tr ensures x in tr + [m] {}
  }

  ghost predicate Spared(tr: seq<Moment>, rows: map<Key, Row>, w: OwnerId, me: Worker, key: Key) {
    key in rows && key in me.remaining && me.remaining[key].state == Unknown && SearchFailed(tr, w)
  }

  lemma DealtAtSnapshot(tr: seq<Moment>, m: Moment, plan: seq<Key>, w: OwnerId, me: Worker)
    requires m in tr && Acts(m, w, Snapshot) && (forall k :: k in plan ==> k in m.state.tables.rows)
    requires Unfinished(m.state.tables.rows, me.remaining)
    requires me.pc == RenewForTarget || (me.pc.Release? && me.remaining == map[])
    ensures DealtWith(tr, plan, m.state.tables.rows, w, me)
  {
    var rows := m.state.tables.rows;
    if me.remaining == map[] {
      forall k | k in plan ensures rows[k].state == Succeeded { assert k !in me.remaining; }
      assert AllDealtSince(tr, plan, rows, rows, w, me.token);
    }
  }

  lemma DealtAtEnd(tr: seq<Moment>, m: Moment, plan: seq<Key>, rows: map<Key, Row>, w: OwnerId, me: Worker, me': Worker)
    requires DealtWith(tr, plan, rows, w, me) && Read(tr, plan, w, me.remaining) && me.pc == ReadResult
    requires me'.token == me.token && me'.pc.Release?
    ensures DealtWith(tr + [m], plan, rows, w, me')
  {
    forall x | x in tr ensures x in tr + [m] {}
    var r :| r in tr && Acts(r, w, Snapshot) && Unfinished(r.state.tables.rows, me.remaining)
      && forall k :: k in plan ==> k in r.state.tables.rows;
    assert r in tr + [m];
    assert AllDealtSince(tr + [m], plan, r.state.tables.rows, rows, w, me'.token);
  }

  lemma DealtByWrite(tr: seq<Moment>, m: Moment, plan: seq<Key>, rows: map<Key, Row>, w: OwnerId, me: Worker, i: nat, row: Row, after: Worker)
    requires DealtWith(tr, plan, rows, w, me) && Working(me.pc) && Handled(me.pc, |plan|) == i < |plan|
    requires (after.pc.Item? || after.pc.FailItem?) && after.pc.i == i + 1
    requires after.token == me.token == row.token && after.remaining == me.remaining
    ensures DealtWith(tr + [m], plan, rows[plan[i] := row], w, after)
  {
    hide Acts;
    forall x | x in tr ensures x in tr + [m] {}
    forall j | 0 <= j < i + 1 && j < |plan| && plan[j] in me.remaining
      ensures Dealt(tr + [m], rows[plan[i] := row], w, me.token, plan[j], me.remaining[plan[j]])
    {
      if plan[j] != plan[i] { assert Dealt(tr, rows, w, me.token, plan[j], me.remaining[plan[j]]); }
    }
  }

  lemma KeysPlanned(s: State, late: bool)
    requires Inv(s, late)
    ensures s.tables.rows.Keys == (set k | k in s.plan) && Distinct(s.plan)
    ensures forall k :: k in s.plan <==> k in s.tables.rows
  {
    assert forall k :: k in s.plan <==> k in s.tables.rows.Keys;
  }

  lemma SnapshotReadsRows(s: State, late: bool)
    requires Inv(s, late)
    ensures var r := RemainingItems(s.plan, s.tables.rows);
      && Unfinished(s.tables.rows, r) && |r| <= |s.plan|
      && |s.plan| - |r| == Skips(s.plan, r, map[], 0) == Skippable(s.plan, s.tables.rows, [])
  {
    hide Inv, Skips, Skippable, Count;
    var r := RemainingItems(s.plan, s.tables.rows);
    KeysPlanned(s, late);
    RemainingReads(s.plan, s.tables.rows);
    RemainingCounts(s.plan, s.tables.rows);
    SkipsAreDone(s.plan, s.tables.rows, r);
    NoneFound(r);
    SkipsAreSkippable(s.plan, s.tables.rows, r, [], map[], |s.plan|);
    SkipsAlike(s.plan, r, map[], 0, map[], |s.plan|);
  }

  lemma ReturnExplained(tr: seq<Moment>, plan: seq<Key>, w: OwnerId, m: Moment, published: nat, skipped: nat)
    requires m in tr && (Acts(m, w, Snapshot) || Acts(m, w, ReadResult))
    requires published == Confirmed(tr, w) && SkippedExplained(tr, plan, w, skipped)
    ensures Explained(tr, plan, w, Returned(Finish(ReadItems(plan, m.state.tables.rows), published, skipped)))
  {
  }

  lemma SnapshotCourse(tr: seq<Moment>, s: State, w: OwnerId, a: Answer, late: bool)
    requires Inv(s, late) && w in s.workers && s.workers[w].pc == Snapshot
    requires Confirmed(tr, w) == 0 && s.workers[w].found == map[]
    ensures var tr', me' := tr + [Moment(s, Act(w, a))], SnapshotStep(s, w).workers[w];
      && Course(tr', s.plan, w, me') && Created(tr', w, me')
      && (me'.pc == RenewForTarget || me'.pc.Release?)
      && (me'.pc == RenewForTarget ==> Read(tr', s.plan, w, me'.remaining))
      && DealtWith(tr', s.plan, s.tables.rows, w, me')
  {
    hide Inv, Skips, Skippable, Finish, ReadItems, Confirmed, Unfinished, RemainingItems, DealtWith, SkippedExplained, Explained;
    var m := Moment(s, Act(w, a));
    var tr', me', r := tr + [m], SnapshotStep(s, w).workers[w], RemainingItems(s.plan, s.tables.rows);
    assert m in tr' && Acts(m, w, Snapshot);
    SnapshotReadsRows(s, late);
    ConfirmedKept(tr, m, w);
    KeysPlanned(s, late);
    DealtAtSnapshot(tr', m, s.plan, w, me');
    if r == map[] {
      assert |r| == 0;
      NothingToSkip(tr', m, s.plan, w);
      ReturnExplained(tr', s.plan, w, m, 0, |s.plan|);
    } else {
      assert Read(tr', s.plan, w, r);
    }
  }

  lemma NothingToSkip(tr: seq<Moment>, m: Moment, plan: seq<Key>, w: OwnerId)
    requires m in tr && Acts(m, w, Snapshot) && |plan| == Skippable(plan, m.state.tables.rows, [])
    ensures SkippedExplained(tr, plan, w, |plan|)
  {
    assert SkippedSince(tr, plan, w, m.state.tables.rows, |plan|);
  }

  lemma SnapshotKnown(tr: seq<Moment>, s: State, w: OwnerId, a: Answer, late: bool)
    requires Inv(s, late) && w in s.workers && s.workers[w].pc == Snapshot && WorkerKnown(tr, s, w)
    ensures w in SnapshotStep(s, w).workers && WorkerKnown(tr + [Moment(s, Act(w, a))], SnapshotStep(s, w), w)
  {
    hide Inv, Finish, Started, RowsExplained, Confirmed, Read, RemainingItems, DealtWith;
    var m, s' := Moment(s, Act(w, a)), SnapshotStep(s, w);
    SnapshotCourse(tr, s, w, a, late);
    if HeldBy(s.tables, w) { BeginTimeKept(tr, m, w, s.tables.lease.value.expires); }
    hide Course, Created;
    MoveKnown(tr, s, a, s', w, s'.workers[w]);
  }

  lemma BeginTimeKept(tr: seq<Moment>, m: Moment, w: OwnerId, expires: int)
    requires Timed(tr, w, Snapshot, expires)
    ensures Timed(tr + [m], w, RenewForTarget, expires)
  {
    forall x | x in tr ensures x in tr + [m] {}
  }

  lemma RenewCourse(tr: seq<Moment>, s: State, w: OwnerId, a: Answer, next: Pc)
    requires w in s.workers && Course(tr, s.plan, w, s.workers[w]) && Created(tr, w, s.workers[w])
    requires
      || (s.workers[w].pc == RenewForTarget && next == VerifyTarget)
      || (s.workers[w].pc == RenewForSearch && next == Search)
      || (s.workers[w].pc.Item? && next == Scan(s.workers[w].pc.i))
    ensures var tr', s' := tr + [Moment(s, Act(w, a))], RenewStep(s, w, next);
      var me' := s'.workers[w];
      && (me' == s.workers[w].(pc := next) || me' == s.workers[w].(pc := Release(LeaseHeld)))
      && Course(tr', s.plan, w, me') && Created(tr', w, me')
      && (HeldBy(s'.tables, w) ==> HeldBy(s.tables, w) && Timed(tr', w, me'.pc, s'.tables.lease.value.expires))
  {
    hide Skips, Confirmed, Looked, SkippedSince;
    var m := Moment(s, Act(w, a));
    var tr', s' := tr + [m], RenewStep(s, w, next);
    var me, me' := s.workers[w], s'.workers[w];
    assert m in tr' && Acts(m, w, me.pc);
    ConfirmedKept(tr, m, w);
    CourseKept(tr, m, s.plan, w, me);
    if Owns(s, w) {
      assert me' == me.(pc := next) && s'.tables.lease.value.expires == s.now + 600;
      assert RenewedFor(tr', w, me.pc, s.now + 600) && RenewedAt(tr', w, me.pc);
    } else {
      assert me' == me.(pc := Release(LeaseHeld));
      assert RenewalFails(m, w);
    }
  }

  /** A step that renews the lease on the way to `next`, or ends on the raised error. */
  lemma RenewKnown(tr: seq<Moment>, s: State, w: OwnerId, a: Answer, next: Pc)
    requires w in s.workers && WorkerKnown(tr, s, w)
    requires
      || (s.workers[w].pc == RenewForTarget && next == VerifyTarget)
      || (s.workers[w].pc == RenewForSearch && next == Search)
      || (s.workers[w].pc.Item? && next == Scan(s.workers[w].pc.i))
    ensures w in RenewStep(s, w, next).workers && WorkerKnown(tr + [Moment(s, Act(w, a))], RenewStep(s, w, next), w)
  {
    hide Started, RowsExplained, Course, Created, Read, Timed, DealtWith;
    var m, s' := Moment(s, Act(w, a)), RenewStep(s, w, next);
    RenewCourse(tr, s, w, a, next);
    if HeldBy(s.tables, w) { DealtOn(tr, m, s.plan, s.tables.rows, w, s.workers[w], s'.workers[w]); }
    MoveKnown(tr, s, a, s', w, s'.workers[w]);
  }

  lemma StutterKnown(tr: seq<Moment>, s: State, w: OwnerId, a: Answer)
    requires w in s.workers && WorkerKnown(tr, s, w)
    requires !s.workers[w].pc.Await? || !a.CreateOk? || s.workers[w].pc.i >= |s.plan| || Post(w, s.plan[s.workers[w].pc.i], a.comment) !in s.remote
    ensures WorkerKnown(tr + [Moment(s, Act(w, a))], s, w)
  {
    hide WorkerKnown;
    ConfirmedKept(tr, Moment(s, Act(w, a)), w);
    WorkerKept(tr, Moment(s, Act(w, a)), s, w);
  }

  lemma VerifyKnown(tr: seq<Moment>, s: State, w: OwnerId, a: Answer, late: bool)
    requires Inv(s, late) && w in s.workers && s.workers[w].pc == VerifyTarget && WorkerKnown(tr, s, w)
    ensures w in VerifyStep(s, w, a).workers && WorkerKnown(tr + [Moment(s, Act(w, a))], VerifyStep(s, w, a), w)
  {
    hide Inv, Skips, Finish, Started, RowsExplained, Confirmed, Unfinished, Looked, Read, SkippedSince, RenewedFor, RenewedAt, DealtWith;
    var m := Moment(s, Act(w, a));
    var tr', s' := tr + [m], VerifyStep(s, w, a);
    if s' == s { StutterKnown(tr, s, w, a); return; }
    var me' := s'.workers[w];
    assert m in tr' && Acts(m, w, VerifyTarget);
    ConfirmedKept(tr, m, w);
    if me'.pc.FailItem? {
      assert Refuses(m, w, me'.pc.failure);
    } else if me'.pc.RenewForSearch? {
      assert Hears(tr', w, VerifyTarget, Target(true, true));
      if HeldBy(s.tables, w) { RenewedKept(tr, m, w, RenewForTarget, s.tables.lease.value.expires); }
    } else {
      assert Hears(tr', w, VerifyTarget, PortRaised);
    }
    if HeldBy(s.tables, w) { DealtOn(tr, m, s.plan, s.tables.rows, w, s.workers[w], s'.workers[w]); }
    MoveKnown(tr, s, a, s', w, me');
  }

  lemma {:induction false} CommentOfIsLast(remote: seq<Post>, key: Key)
    requires OnRemote(remote, key)
    ensures LastComment(remote, key, CommentOf(remote, key))
  {
    var n := |remote| - 1;
    if remote[n].key != key {
      var j :| 0 <= j < |remote| && remote[j].key == key;
      assert remote[..n][j].key == key;
      CommentOfIsLast(remote[..n], key);
      var i :| 0 <= i < n && remote[..n][i].key == key && remote[..n][i].comment == CommentOf(remote, key)
        && forall k :: i < k < n ==> remote[..n][k].key != key;
      assert remote[i] == remote[..n][i];
      forall k | i < k < |remote| ensures remote[k].key != key {
        if k < n { assert remote[..n][k] == remote[k]; }
      }
    }
  }

  lemma SearchKnown(tr: seq<Moment>, s: State, w: OwnerId, a: Answer, late: bool)
    requires Inv(s, late) && w in s.workers && s.workers[w].pc == Search && WorkerKnown(tr, s, w)
    ensures w in SearchStep(s, w, a).workers && WorkerKnown(tr + [Moment(s, Act(w, a))], SearchStep(s, w, a), w)
  {
    hide Inv, Skips, Finish, Started, RowsExplained, Confirmed, Unfinished, LastComment, CommentOf, Read, SkippedSince, RenewedFor, RenewedAt, DealtWith;
    var m := Moment(s, Act(w, a));
    var tr', s' := tr + [m], SearchStep(s, w, a);
    if s' == s { StutterKnown(tr, s, w, a); return; }
    var me, me' := s.workers[w], s'.workers[w];
    assert m in tr' && Acts(m, w, Search);
    ConfirmedKept(tr, m, w);
    if me'.pc.FailItem? {
      assert Refuses(m, w, me'.pc.failure);
    } else if me'.pc.Item? {
      forall k | k in me'.found ensures LastComment(s.remote, k, me'.found[k]) { CommentOfIsLast(s.remote, k); }
      assert FoundThere(s.remote, me.remaining, me'.found);
      SkipsAlike(s.plan, me.remaining, map[], 0, me'.found, 0);
      HeardKept(tr, m, w, VerifyTarget, Target(true, true));
      assert Looked(tr', w, me.remaining, me'.found);
    } else {
      assert Hears(tr', w, Search, PortRaised);
    }
    if HeldBy(s.tables, w) { DealtOn(tr, m, s.plan, s.tables.rows, w, s.workers[w], s'.workers[w]); }
    MoveKnown(tr, s, a, s', w, me');
  }

  lemma ScanKnown(tr: seq<Moment>, s: State, w: OwnerId, a: Answer, late: bool)
    requires Inv(s, late) && w in s.workers && s.workers[w].pc.Scan? && WorkerKnown(tr, s, w)
    ensures var s' := ScanStep(s, w, s.workers[w].pc.i, a);
      w in s'.workers && WorkerKnown(tr + [Moment(s, Act(w, a))], s', w)
  {
    hide Inv, Skips, Finish, Started, RowsExplained, Confirmed, Looked, Read, RenewedFor, RenewedAt, Refuses,
         SnapshotOk, FoundOk, RequestsOk, Exclusive, Accounting, TablesOk, NoDuplicates, WriteOk, DealtWith;
    var m, i := Moment(s, Act(w, a)), s.workers[w].pc.i;
    var tr', s' := tr + [m], ScanStep(s, w, i, a);
    if s' == s { StutterKnown(tr, s, w, a); return; }
    InvWorker(s, w, late);
    var me, me' := s.workers[w], s'.workers[w];
    assert m in tr' && Acts(m, w, Scan(i));
    ConfirmedKept(tr, m, w);
    UnderwayKept(tr, m, s.plan, w, me, i);
    RenewedAtKept(tr, m, w, Item(i));
    if a.ScanPassed? {
      assert Hears(tr', w, Scan(i), ScanPassed);
      if HeldBy(s.tables, w) { RenewedKept(tr, m, w, Item(i), s.tables.lease.value.expires); }
    } else {
      assert Settles(m, w, i, me'.pc.write);
    }
    if HeldBy(s.tables, w) { DealtOn(tr, m, s.plan, s.tables.rows, w, s.workers[w], s'.workers[w]); }
    MoveKnown(tr, s, a, s', w, me');
  }

  lemma CreateKnown(tr: seq<Moment>, s: State, w: OwnerId, a: Answer, late: bool)
    requires Inv(s, late) && w in s.workers && s.workers[w].pc.Create? && WorkerKnown(tr, s, w)
    ensures var s' := CreateStep(s, w, s.workers[w].pc.i);
      w in s'.workers && WorkerKnown(tr + [Moment(s, Act(w, a))], s', w)
  {
    hide Inv, Skips, Finish, Started, RowsExplained, Confirmed, Looked, Read, RenewedFor, RenewedAt, Refuses, Hears,
         SnapshotOk, FoundOk, RequestsOk, Exclusive, Accounting, TablesOk, NoDuplicates, WriteOk, DealtWith;
    var m, i := Moment(s, Act(w, a)), s.workers[w].pc.i;
    var tr', s' := tr + [m], CreateStep(s, w, i);
    InvWorker(s, w, late);
    ConfirmedKept(tr, m, w);
    UnderwayKept(tr, m, s.plan, w, s.workers[w], i);
    RenewedAtKept(tr, m, w, Item(i));
    HeardKept(tr, m, w, Scan(i), ScanPassed);
    if HeldBy(s.tables, w) { RenewedKept(tr, m, w, Item(i), s.tables.lease.value.expires); }
    if HeldBy(s.tables, w) { DealtOn(tr, m, s.plan, s.tables.rows, w, s.workers[w], s'.workers[w]); }
    MoveKnown(tr, s, a, s', w, s'.workers[w]);
  }

  lemma AwaitCourse(tr: seq<Moment>, s: State, w: OwnerId, a: Answer)
    requires w in s.workers && s.workers[w].pc.Await? && Course(tr, s.plan, w, s.workers[w]) && Created(tr, w, s.workers[w])
    requires var me := s.workers[w]; me.pc.i < |s.plan| && s.plan[me.pc.i] !in me.found
    requires AwaitStep(s, w, s.workers[w].pc.i, a) != s
    ensures var me' := AwaitStep(s, w, s.workers[w].pc.i, a).workers[w];
      Course(tr + [Moment(s, Act(w, a))], s.plan, w, me') && Created(tr + [Moment(s, Act(w, a))], w, me')
  {
    hide Skips, Confirmed, Underway, RenewedAt, Refuses;
    var m, i := Moment(s, Act(w, a)), s.workers[w].pc.i;
    var tr', s' := tr + [m], AwaitStep(s, w, i, a);
    var me, me' := s.workers[w], s'.workers[w];
    assert m in tr' && Acts(m, w, Await(i));
    ConfirmedKept(tr, m, w);
    UnderwayKept(tr, m, s.plan, w, me, i);
    SameWay(tr', s.plan, w, me, me', i);
    if a.PortRaised? {
      assert Hears(tr', w, Await(i), PortRaised);
    } else {
      assert Settles(m, w, i, me'.pc.write);
    }
  }

  lemma SameWay(tr: seq<Moment>, plan: seq<Key>, w: OwnerId, me: Worker, me': Worker, i: nat)
    requires Underway(tr, plan, w, me, i)
    requires me'.remaining == me.remaining && me'.found == me.found && me'.skipped == me.skipped
    ensures Underway(tr, plan, w, me', i)
  {
  }

  lemma AwaitKnown(tr: seq<Moment>, s: State, w: OwnerId, a: Answer, late: bool)
    requires Inv(s, late) && w in s.workers && s.workers[w].pc.Await? && WorkerKnown(tr, s, w)
    ensures var s' := AwaitStep(s, w, s.workers[w].pc.i, a);
      w in s'.workers && WorkerKnown(tr + [Moment(s, Act(w, a))], s', w)
  {
    hide Inv, Course, Created, Started, RowsExplained, Read, Confirms,
         SnapshotOk, FoundOk, RequestsOk, Exclusive, Accounting, TablesOk, NoDuplicates, WriteOk, DealtWith;
    var s' := AwaitStep(s, w, s.workers[w].pc.i, a);
    if s' == s { StutterKnown(tr, s, w, a); return; }
    InvWorker(s, w, late);
    if HeldBy(s.tables, w) { DealtOn(tr, Moment(s, Act(w, a)), s.plan, s.tables.rows, w, s.workers[w], s'.workers[w]); }
    AwaitCourse(tr, s, w, a);
    MoveKnown(tr, s, a, s', w, s'.workers[w]);
  }

  lemma ReadResultKnown(tr: seq<Moment>, s: State, w: OwnerId, a: Answer, late: bool)
    requires Inv(s, late) && w in s.workers && s.workers[w].pc == ReadResult && WorkerKnown(tr, s, w)
    ensures w in ReadResultStep(s, w).workers && WorkerKnown(tr + [Moment(s, Act(w, a))], ReadResultStep(s, w), w)
  {
    hide Inv, Skips, Finish, Started, RowsExplained, Confirmed, Unfinished, SkippedExplained, DealtWith;
    var m := Moment(s, Act(w, a));
    var tr', s' := tr + [m], ReadResultStep(s, w);
    var me := s.workers[w];
    assert m in tr';
    ConfirmedKept(tr, m, w);
    SkippedKept(tr, m, s.plan, w, me.skipped);
    ReturnExplained(tr', s.plan, w, m, me.created, me.skipped);
    if HeldBy(s.tables, w) { DealtAtEnd(tr, m, s.plan, s.tables.rows, w, me, s'.workers[w]); }
    MoveKnown(tr, s, a, s', w, s'.workers[w]);
  }

  lemma ReleaseKnown(tr: seq<Moment>, s: State, w: OwnerId, a: Answer, late: bool)
    requires Inv(s, late) && w in s.workers && s.workers[w].pc.Release? && WorkerKnown(tr, s, w)
    ensures var s' := ReleaseStep(s, w, s.workers[w].pc.outcome);
      w in s'.workers && WorkerKnown(tr + [Moment(s, Act(w, a))], s', w)
  {
    hide Inv, Started, RowsExplained, Confirmed, Explained;
    var m, outcome := Moment(s, Act(w, a)), s.workers[w].pc.outcome;
    var tr', s' := tr + [m], ReleaseStep(s, w, s.workers[w].pc.outcome);
    ConfirmedKept(tr, m, w);
    ExplainedKept(tr, m, s.plan, w, outcome);
    MoveKnown(tr, s, a, s', w, s'.workers[w]);
  }

  /** Past its last item the call has skipped what it says. */
  lemma SkippedAtEnd(tr: seq<Moment>, s: State, w: OwnerId)
    requires w in s.workers && WorkerKnown(tr, s, w)
    requires (s.workers[w].pc.Item? || s.workers[w].pc.FailItem?) && |s.plan| <= s.workers[w].pc.i
    ensures SkippedExplained(tr, s.plan, w, s.workers[w].skipped)
  {
    hide Skips, Skippable, Started, RowsExplained, Confirmed, Unfinished, FoundThere;
    var me := s.workers[w];
    var r :| r in tr && Acts(r, w, Snapshot) && Unfinished(r.state.tables.rows, me.remaining)
      && forall k :: k in s.plan ==> k in r.state.tables.rows;
    var rows := r.state.tables.rows;
    if me.pc.Item? {
      var q :| q in tr && Acts(q, w, Search) && q.event.answer == SearchComplete && FoundThere(q.state.remote, me.remaining, me.found);
      SkipsAreSkippable(s.plan, rows, me.remaining, q.state.remote, me.found, me.pc.i);
    } else {
      SkipsAlike(s.plan, me.remaining, map[], 0, map[], |s.plan|);
      NoneFound(me.remaining);
      SkipsAreSkippable(s.plan, rows, me.remaining, [], map[], |s.plan|);
    }
    assert SkippedSince(tr, s.plan, w, rows, me.skipped);
  }

  /** The writes a step from `me` may make of item `i`: what the moments decide. */
  ghost predicate Justified(tr: seq<Moment>, plan: seq<Key>, w: OwnerId, me: Worker, i: nat, write: ItemWrite) {
    && i < |plan| && plan[i] in me.remaining
    && exists m :: m in tr && Decides(m, w, i, write)
         && (m.event.Act? && m.event.answer.SearchError? ==> me.remaining[plan[i]].state != Unknown)
  }

  lemma RowWritten(tr: seq<Moment>, plan: seq<Key>, w: OwnerId, me: Worker, i: nat, write: ItemWrite, row: Row)
    requires Justified(tr, plan, w, me, i, write) && Read(tr, plan, w, me.remaining)
    requires row == Row(write.state, write.remote, write.error, me.remaining[plan[i]].version + 1, me.token)
    ensures RowExplained(tr, plan, w, plan[i], row)
  {
    hide Decides;
    var r :| r in tr && Acts(r, w, Snapshot) && Unfinished(r.state.tables.rows, me.remaining)
      && forall k :: k in plan ==> k in r.state.tables.rows;
    var m :| m in tr && Decides(m, w, i, write)
      && (m.event.Act? && m.event.answer.SearchError? ==> me.remaining[plan[i]].state != Unknown);
    assert ItemWrite(row.state, row.remote, row.error) == write;
    assert RowDecided(tr, w, i, plan[i], row);
  }

  /** A written row, and the place that leads to. */
  lemma LandedKnown(tr: seq<Moment>, m: Moment, s: State, w: OwnerId, i: nat, write: ItemWrite, after: Worker)
    requires w in s.workers && WorkerKnown(tr, s, w) && Working(s.workers[w].pc) && Handled(s.workers[w].pc, |s.plan|) == i
    requires i < |s.plan| && s.plan[i] in s.workers[w].remaining && Justified(tr, s.plan, w, s.workers[w], i, write)
    requires after.token == s.workers[w].token && after.remaining == s.workers[w].remaining
    requires (after.pc.Item? || after.pc.FailItem?) && after.pc.i == i + 1
    requires Course(tr + [m], s.plan, w, after) && Created(tr + [m], w, after)
    ensures var me := s.workers[w];
      var row := Row(write.state, write.remote, write.error, me.remaining[s.plan[i]].version + 1, me.token);
      WorkerKnown(tr + [m], Moved(s.(tables := s.tables.(rows := s.tables.rows[s.plan[i] := row])), w, after), w)
  {
    hide Read, RowsExplained, Started, Course, Created, DealtWith, Justified, Timed, Handled;
    var me := s.workers[w];
    var row := Row(write.state, write.remote, write.error, me.remaining[s.plan[i]].version + 1, me.token);
    ReadKept(tr, m, s.plan, w, me.remaining);
    StartedKept(tr, m, w, me, after);
    RowsKept(tr, m, s.plan, s.tables.rows, w, me.token);
    if HeldBy(s.tables, w) { DealtByWrite(tr, m, s.plan, s.tables.rows, w, me, i, row, after); }
    JustifiedKept(tr, m, s.plan, w, me, i, write);
    RowWritten(tr + [m], s.plan, w, me, i, write, row);
    RowAdded(tr + [m], s.plan, s.tables.rows, w, me.token, s.plan[i], row);
    if HeldBy(s.tables, w) { UntimedBetween(tr + [m], w, after.pc, s.tables.lease.value.expires); }
  }

  lemma UntimedBetween(tr: seq<Moment>, w: OwnerId, pc: Pc, expires: int)
    requires pc.Item? || pc.FailItem?
    ensures Timed(tr, w, pc, expires)
  {
  }

  /** A compare-and-swap of item `i`, from the place it leads to. */
  lemma WriteKnown(tr: seq<Moment>, s: State, w: OwnerId, a: Answer, i: nat, write: ItemWrite, after: Worker, late: bool)
    requires Inv(s, late) && w in s.workers && WorkerKnown(tr, s, w)
    requires var pc := s.workers[w].pc; (pc.Item? || pc.Write? || pc.FailItem?) && pc.i == i
    requires i < |s.plan| && s.plan[i] in s.workers[w].remaining && Justified(tr, s.plan, w, s.workers[w], i, write)
    requires after.token == s.workers[w].token && after.remaining == s.workers[w].remaining
    requires (after.pc.Item? || after.pc.FailItem?) && after.pc.i == i + 1
    requires Course(tr + [Moment(s, Act(w, a))], s.plan, w, after) && Created(tr + [Moment(s, Act(w, a))], w, after)
    ensures var s' := WriteStep(s, w, i, write, after);
      w in s'.workers && WorkerKnown(tr + [Moment(s, Act(w, a))], s', w)
  {
    hide Inv, WorkerKnown, Course, Created, DealtWith, WriteFails, Justified;
    var m, me := Moment(s, Act(w, a)), s.workers[w];
    if Updated(s.tables, s.plan[i], write, w, me.token, me.remaining[s.plan[i]].version, s.now).1 {
      LandedKnown(tr, m, s, w, i, write, after);
    } else {
      KeysPlanned(s, late);
      WriteMisses(s, w, a, i, write);
      FenceLostCourse(tr, m, s.plan, s.tables.rows, w, me.(pc := Release(FenceLost)));
      MoveKnown(tr, s, a, Moved(s, w, me.(pc := Release(FenceLost))), w, me.(pc := Release(FenceLost)));
    }
  }

  lemma WriteMisses(s: State, w: OwnerId, a: Answer, i: nat, write: ItemWrite)
    requires w in s.workers && (s.workers[w].pc.Item? || s.workers[w].pc.Write? || s.workers[w].pc.FailItem?)
    requires s.workers[w].pc.i == i < |s.plan| && s.plan[i] in s.workers[w].remaining && s.plan[i] in s.tables.rows
    requires !Updated(s.tables, s.plan[i], write, w, s.workers[w].token, s.workers[w].remaining[s.plan[i]].version, s.now).1
    ensures WriteFails(Moment(s, Act(w, a)), w)
  {
  }

  lemma FenceLostCourse(tr: seq<Moment>, m: Moment, plan: seq<Key>, rows: map<Key, Row>, w: OwnerId, me: Worker)
    requires me.pc == Release(FenceLost) && WriteFails(m, w)
    ensures Course(tr + [m], plan, w, me) && Created(tr + [m], w, me) && DealtWith(tr + [m], plan, rows, w, me)
  {
    assert m in tr + [m];
  }

  lemma JustifiedKept(tr: seq<Moment>, m: Moment, plan: seq<Key>, w: OwnerId, me: Worker, i: nat, write: ItemWrite)
    requires Justified(tr, plan, w, me, i, write)
    ensures Justified(tr + [m], plan, w, me, i, write)
  {
    hide Decides;
    forall x | x in tr ensures x in tr + [m] {}
  }

  lemma RowAdded(tr: seq<Moment>, plan: seq<Key>, rows: map<Key, Row>, w: OwnerId, token: nat, key: Key, row: Row)
    requires RowsExplained(tr, plan, rows, w, token) && RowExplained(tr, plan, w, key, row)
    ensures RowsExplained(tr, plan, rows[key := row], w, token)
  {
    hide RowExplained;
  }

  lemma FoundJustified(tr: seq<Moment>, plan: seq<Key>, w: OwnerId, me: Worker, i: nat)
    requires PlansAre(tr, plan) && Looked(tr, w, me.remaining, me.found)
    requires i < |plan| && plan[i] in me.remaining && plan[i] in me.found
    ensures Justified(tr, plan, w, me, i, ItemWrite(Succeeded, Some(me.found[plan[i]]), None))
  {
    hide LastComment, Refuses;
    var m :| m in tr && Acts(m, w, Search) && m.event.answer == SearchComplete && FoundThere(m.state.remote, me.remaining, me.found);
    assert Settles(m, w, i, ItemWrite(Succeeded, Some(me.found[plan[i]]), None));
  }

  lemma ItemCourse(tr: seq<Moment>, m: Moment, plan: seq<Key>, w: OwnerId, me: Worker, i: nat, me': Worker)
    requires me.pc == Item(i) && Course(tr, plan, w, me)
    requires me'.pc == Item(i + 1) && me'.remaining == me.remaining && me'.found == me.found
    requires me'.skipped == me.skipped + (if i < |plan| && plan[i] in me.remaining && plan[i] in me.found then 1 else 0)
    ensures Course(tr + [m], plan, w, me')
  {
    hide Skips, Looked, Hears;
    UnderwayKept(tr, m, plan, w, me, i);
    SkipsNext(plan, me.remaining, me.found, i);
  }

  lemma ItemKnown(tr: seq<Moment>, s: State, w: OwnerId, a: Answer, late: bool)
    requires Inv(s, late) && w in s.workers && s.workers[w].pc.Item? && WorkerKnown(tr, s, w) && PlansAre(tr, s.plan)
    ensures var s' := ItemStep(s, w, s.workers[w].pc.i);
      w in s'.workers && WorkerKnown(tr + [Moment(s, Act(w, a))], s', w)
  {
    hide Inv, Read, RowsExplained, Started, Confirmed, Underway, SkippedExplained, Justified, WriteStep, RenewStep, Looked, DealtWith;
    var m, i, me := Moment(s, Act(w, a)), s.workers[w].pc.i, s.workers[w];
    var tr', s' := tr + [m], ItemStep(s, w, i);
    ConfirmedKept(tr, m, w);
    if HeldBy(s.tables, w) && !(i < |s.plan| && s.plan[i] in me.remaining) {
      DealtOn(tr, m, s.plan, s.tables.rows, w, me, s'.workers[w]);
    }
    if i >= |s.plan| {
      SkippedAtEnd(tr, s, w);
      SkippedKept(tr, m, s.plan, w, me.skipped);
      MoveKnown(tr, s, a, s', w, s'.workers[w]);
    } else if s.plan[i] !in me.remaining {
      ItemCourse(tr, m, s.plan, w, me, i, me.(pc := Item(i + 1)));
      MoveKnown(tr, s, a, s', w, s'.workers[w]);
    } else if s.plan[i] in me.found {
      var after := me.(pc := Item(i + 1), skipped := me.skipped + 1);
      ItemCourse(tr, m, s.plan, w, me, i, after);
      UnderwayLooked(tr, s.plan, w, me, i);
      FoundJustified(tr, s.plan, w, me, i);
      WriteKnown(tr, s, w, a, i, ItemWrite(Succeeded, Some(me.found[s.plan[i]]), None), after, late);
    } else {
      RenewKnown(tr, s, w, a, Scan(i));
    }
  }

  lemma UnderwayLooked(tr: seq<Moment>, plan: seq<Key>, w: OwnerId, me: Worker, i: nat)
    requires Underway(tr, plan, w, me, i)
    ensures Looked(tr, w, me.remaining, me.found)
  {
  }

  lemma SettledJustified(tr: seq<Moment>, plan: seq<Key>, w: OwnerId, me: Worker, i: nat, write: ItemWrite)
    requires Settled(tr, w, i, write) && i < |plan| && plan[i] in me.remaining
    ensures Justified(tr, plan, w, me, i, write)
  {
    var m :| m in tr && Settles(m, w, i, write);
    assert Decides(m, w, i, write);
  }

  lemma OutcomeKnown(tr: seq<Moment>, s: State, w: OwnerId, a: Answer, late: bool)
    requires Inv(s, late) && w in s.workers && s.workers[w].pc.Write? && WorkerKnown(tr, s, w)
    ensures var s' := OutcomeStep(s, w, s.workers[w].pc.i, s.workers[w].pc.write);
      w in s'.workers && WorkerKnown(tr + [Moment(s, Act(w, a))], s', w)
  {
    hide Inv, Read, RowsExplained, Started, Confirmed, Skips, Looked, Hears, Settled, Justified, WriteStep,
         SnapshotOk, FoundOk, RequestsOk, Exclusive, Accounting, TablesOk, NoDuplicates, WriteOk;
    InvWorker(s, w, late);
    var me := s.workers[w];
    var m, i, write := Moment(s, Act(w, a)), me.pc.i, me.pc.write;
    var after := me.(pc := Item(i + 1), created := me.created + (if write.state == Succeeded then 1 else 0));
    ConfirmedKept(tr, m, w);
    UnderwayKept(tr, m, s.plan, w, me, i);
    SkipsNext(s.plan, me.remaining, me.found, i);
    SettledJustified(tr, s.plan, w, me, i, write);
    WriteKnown(tr, s, w, a, i, write, after, late);
  }

  lemma RefusedJustified(tr: seq<Moment>, plan: seq<Key>, w: OwnerId, me: Worker, i: nat, failure: ItemWrite, preserve: bool)
    requires Refused(tr, w, failure, preserve) && i < |plan| && plan[i] in me.remaining
    requires preserve ==> me.remaining[plan[i]].state != Unknown
    ensures Justified(tr, plan, w, me, i, failure)
  {
    var m :| m in tr && Refuses(m, w, failure) && preserve == m.event.answer.SearchError?;
    assert Decides(m, w, i, failure);
  }

  lemma RefusedKept(tr: seq<Moment>, m: Moment, w: OwnerId, failure: ItemWrite, preserve: bool)
    requires Refused(tr, w, failure, preserve)
    ensures Refused(tr + [m], w, failure, preserve)
  {
    hide Refuses;
    forall x | x in tr ensures x in tr + [m] {}
  }

  lemma RefusedBySearch(tr: seq<Moment>, w: OwnerId, failure: ItemWrite)
    requires Refused(tr, w, failure, true)
    ensures SearchFailed(tr, w)
  {
  }

  lemma FailKnown(tr: seq<Moment>, s: State, w: OwnerId, a: Answer, late: bool)
    requires Inv(s, late) && w in s.workers && s.workers[w].pc.FailItem? && WorkerKnown(tr, s, w)
    ensures var pc := s.workers[w].pc;
      var s' := FailStep(s, w, pc.i, pc.failure, pc.preserveUnknowns);
      w in s'.workers && WorkerKnown(tr + [Moment(s, Act(w, a))], s', w)
  {
    hide Inv, Read, RowsExplained, Started, Confirmed, Skips, SkippedExplained, Refused, Justified, WriteStep, DealtWith;
    var me := s.workers[w];
    var m, i := Moment(s, Act(w, a)), me.pc.i;
    var s' := FailStep(s, w, i, me.pc.failure, me.pc.preserveUnknowns);
    ConfirmedKept(tr, m, w);
    RefusedKept(tr, m, w, me.pc.failure, me.pc.preserveUnknowns);
    if i < |s.plan| && s.plan[i] in me.remaining && me.pc.preserveUnknowns && me.remaining[s.plan[i]].state == Unknown {
      KeysPlanned(s, late);
      RefusedBySearch(tr, w, me.pc.failure);
    }
    if HeldBy(s.tables, w) && !(i < |s.plan| && s.plan[i] in me.remaining && !(me.pc.preserveUnknowns && me.remaining[s.plan[i]].state == Unknown)) {
      DealtOn(tr, m, s.plan, s.tables.rows, w, me, s'.workers[w]);
    }
    if i >= |s.plan| {
      SkippedAtEnd(tr, s, w);
      SkippedKept(tr, m, s.plan, w, me.skipped);
      MoveKnown(tr, s, a, s', w, s'.workers[w]);
    } else if s.plan[i] !in me.remaining || (me.pc.preserveUnknowns && me.remaining[s.plan[i]].state == Unknown) {
      MoveKnown(tr, s, a, s', w, s'.workers[w]);
    } else {
      RefusedJustified(tr, s.plan, w, me, i, me.pc.failure, me.pc.preserveUnknowns);
      WriteKnown(tr, s, w, a, i, me.pc.failure, me.(pc := FailItem(i + 1, me.pc.failure, me.pc.preserveUnknowns)), late);
    }
  }

  lemma ActorKnown(tr: seq<Moment>, s: State, w: OwnerId, a: Answer, late: bool)
    requires Inv(s, late) && w in s.workers && WorkerKnown(tr, s, w) && PlansAre(tr, s.plan)
    ensures w in ActStep(s, w, a).workers && WorkerKnown(tr + [Moment(s, Act(w, a))], ActStep(s, w, a), w)
  {
    hide Inv, WorkerKnown, PlansAre, SnapshotStep, RenewStep, VerifyStep, SearchStep, ItemStep, ScanStep, CreateStep, AwaitStep,
         OutcomeStep, FailStep, ReadResultStep, ReleaseStep;
    match s.workers[w].pc
    case Snapshot => SnapshotKnown(tr, s, w, a, late);
    case RenewForTarget => RenewKnown(tr, s, w, a, VerifyTarget);
    case VerifyTarget => VerifyKnown(tr, s, w, a, late);
    case RenewForSearch => RenewKnown(tr, s, w, a, Search);
    case Search => SearchKnown(tr, s, w, a, late);
    case Item(i) => ItemKnown(tr, s, w, a, late);
    case Scan(i) => ScanKnown(tr, s, w, a, late);
    case Create(i) => CreateKnown(tr, s, w, a, late);
    case Await(i) => AwaitKnown(tr, s, w, a, late);
    case Write(i, write) => OutcomeKnown(tr, s, w, a, late);
    case FailItem(i, failure, preserve) => FailKnown(tr, s, w, a, late);
    case ReadResult => ReadResultKnown(tr, s, w, a, late);
    case Release(_) => ReleaseKnown(tr, s, w, a, late);
    case Done(_) => StutterKnown(tr, s, w, a);
  }

  // ----- the other events ----------------------------------------------------------------

  lemma BeginKnown(tr: seq<Moment>, s: State, w: OwnerId, late: bool)
    requires Inv(s, late) && w !in s.workers && Confirmed(tr, w) == 0
    ensures w in BeginStep(s, w).workers && WorkerKnown(tr + [Moment(s, Begin(w))], BeginStep(s, w), w)
  {
    hide Inv, Confirmed, RowsExplained, DealtWith, Course, Created, Started, Timed;
    var m, s' := Moment(s, Begin(w)), BeginStep(s, w);
    ConfirmedKept(tr, m, w);
    NoRowYet(tr + [m], s, w, late);
    BeginCourse(tr + [m], s, w, s'.workers[w]);
  }

  /** Neither the lease nor any row is of a call that is about to begin. */
  lemma NoRowYet(tr: seq<Moment>, s: State, w: OwnerId, late: bool)
    requires Inv(s, late) && w !in s.workers
    ensures !HeldBy(s.tables, w)
    ensures RowsExplained(tr, s.plan, s.tables.rows, w, 0)
    ensures RowsExplained(tr, s.plan, s.tables.rows, w, s.tables.lastToken + 1)
  {
    hide RowExplained;
  }

  lemma BeginCourse(tr: seq<Moment>, s: State, w: OwnerId, me: Worker)
    requires Moment(s, Begin(w)) in tr && w !in s.workers && Confirmed(tr, w) == 0
    requires me == BeginStep(s, w).workers[w]
    ensures Started(tr, w, me) && Course(tr, s.plan, w, me) && Created(tr, w, me)
    ensures DealtWith(tr, s.plan, s.tables.rows, w, me)
    ensures var lease := BeginStep(s, w).tables.lease;
      me.pc == Snapshot ==> lease.Some? && Timed(tr, w, me.pc, lease.value.expires)
    ensures me.pc != Snapshot ==> Timed(tr, w, me.pc, s.now)
  {
    hide Confirmed;
    assert Begins(Moment(s, Begin(w)), w);
  }

  lemma CrashKnown(tr: seq<Moment>, s: State, w: OwnerId)
    requires w in s.workers && !s.workers[w].pc.Done? && WorkerKnown(tr, s, w)
    ensures WorkerKnown(tr + [Moment(s, Crash(w))], Goto(s, w, Done(Crashed)), w)
  {
    hide Confirmed, RowsExplained, Course, Created, Read;
    var m := Moment(s, Crash(w));
    assert m in tr + [m];
    StartedKept(tr, m, w, s.workers[w], s.workers[w].(pc := Done(Crashed)));
    RowsKept(tr, m, s.plan, s.tables.rows, w, s.workers[w].token);
    CrashCourse(tr + [m], m, s.plan, w, s.workers[w].(pc := Done(Crashed)));
  }

  lemma CrashCourse(tr: seq<Moment>, m: Moment, plan: seq<Key>, w: OwnerId, me: Worker)
    requires m in tr && m.event == Crash(w) && me.pc == Done(Crashed)
    ensures Course(tr, plan, w, me) && Created(tr, w, me)
  {
  }

  /** The calls after any one event. */
  lemma WorkersKnown(tr: seq<Moment>, s: State, e: Event, late: bool, x: OwnerId)
    requires Inv(s, late) && s.plan != [] && Known(tr, s) && x in Step(s, e, late).workers
    ensures WorkerKnown(tr + [Moment(s, e)], Step(s, e, late), x)
  {
    hide Inv, WorkerKnown, Confirmed, RequestsCleared, PlansAre, ActStep, BeginStep, EffectStep, Acts, Confirms;
    EventKeeps(s, e, late);
    var m := Moment(s, e);
    ConfirmedKept(tr, m, x);
    if x != Actor(e) {
      OthersKnown(tr, s, e, late, x);
    } else {
      match e
      case Begin(w) => if w !in s.workers { BeginKnown(tr, s, w, late); } else { BeginAgain(s, w); WorkerStays(tr, m, s, w); }
      case Act(w, a) => if w in s.workers { ActorKnown(tr, s, w, a, late); }
      case Crash(w) =>
        if w in s.workers && !s.workers[w].pc.Done? { CrashKnown(tr, s, w); } else { WorkerStays(tr, m, s, w); }
      case Tick(_) => WorkerStays(tr, m, s, x); SameTables(tr + [m], s, Step(s, e, late), x);
      case Effect(w, key, c) =>
        EffectTablesSame(s, w, key, c, late);
        WorkerStays(tr, m, s, x);
        SameTables(tr + [m], s, Step(s, e, late), x);
    }
  }

  lemma EffectTablesSame(s: State, w: OwnerId, key: Key, c: RemoteComment, late: bool)
    ensures var s' := EffectStep(s, w, key, c, late);
      s'.tables == s.tables && s'.workers == s.workers && s'.plan == s.plan
  {
  }

  lemma WorkerStays(tr: seq<Moment>, m: Moment, s: State, w: OwnerId)
    requires w in s.workers && WorkerKnown(tr, s, w) && !m.event.Act?
    ensures WorkerKnown(tr + [m], s, w)
  {
    hide WorkerKnown;
    ConfirmedKept(tr, m, w);
    WorkerKept(tr, m, s, w);
  }

  lemma SameTables(tr: seq<Moment>, s: State, s': State, w: OwnerId)
    requires w in s.workers && WorkerKnown(tr, s, w)
    requires s'.tables == s.tables && s'.workers == s.workers && s'.plan == s.plan
    ensures WorkerKnown(tr, s', w)
  {
  }

  lemma BeginAgain(s: State, w: OwnerId)
    requires w in s.workers
    ensures BeginStep(s, w) == s
  {
  }

  /** Requests appear only where a call stands at its create step, comments only where a
      request was under way. */
  ghost predicate RequestsFrom(s: State, e: Event, s': State) {
    && (forall x, k :: (x, k) in s'.inflight ==> (x, k) in s.inflight || Sends(s, e, x, k))
    && (forall j :: 0 <= j < |s'.remote| ==> (j < |s.remote| && s'.remote[j] == s.remote[j]) || WasUnderWay(s, s'.remote[j]))
  }

  predicate Sends(s: State, e: Event, w: OwnerId, key: Key) {
    && e.Act? && e.w == w && w in s.workers && s.workers[w].pc.Create?
    && s.workers[w].pc.i < |s.plan| && key == s.plan[s.workers[w].pc.i]
  }

  predicate WasUnderWay(s: State, p: Post) {
    (p.owner, p.key) in s.inflight
  }

  lemma ActRequests(s: State, w: OwnerId, a: Answer)
    requires w in s.workers
    ensures var s' := ActStep(s, w, a);
      && s'.remote == s.remote && s'.plan == s.plan
      && s'.inflight == s.inflight + (if s.workers[w].pc.Create? && s.workers[w].pc.i < |s.plan|
                                      then {(w, s.plan[s.workers[w].pc.i])} else {})
  {
    hide Finish, RemainingItems, ReadItems, Updated, Renewed, Released, AggregateState, Count;
  }

  lemma StepRequests(s: State, e: Event, late: bool)
    ensures RequestsFrom(s, e, Step(s, e, late))
  {
    hide ActStep;
    if e.Act? && e.w in s.workers { ActRequests(s, e.w, e.answer); }
  }

  lemma CreateIsCleared(tr: seq<Moment>, s: State, w: OwnerId, late: bool)
    requires Inv(s, late) && w in s.workers && s.workers[w].pc.Create? && WorkerKnown(tr, s, w)
    ensures var i := s.workers[w].pc.i; i < |s.plan| && Cleared(tr, s.plan, w, s.plan[i])
  {
    hide Inv, Started, RowsExplained, Confirmed, Skips, Hears, RenewedAt, RenewedFor,
         SnapshotOk, FoundOk, RequestsOk, Exclusive, Accounting, TablesOk, NoDuplicates, WriteOk;
    InvWorker(s, w, late);
    var me, i := s.workers[w], s.workers[w].pc.i;
    var r :| r in tr && Acts(r, w, Snapshot) && Unfinished(r.state.tables.rows, me.remaining)
      && forall k :: k in s.plan ==> k in r.state.tables.rows;
    var q :| q in tr && Acts(q, w, Search) && q.event.answer == SearchComplete && FoundThere(q.state.remote, me.remaining, me.found);
    assert UnfinishedWhenRead(tr, w, s.plan[i]);
    assert MissedBySearch(tr, w, s.plan[i]);
  }

  lemma RequestsKnown(tr: seq<Moment>, s: State, e: Event, late: bool)
    requires Inv(s, late) && s.plan != [] && Known(tr, s) && Step(s, e, late).plan == s.plan
    ensures RequestsCleared(tr + [Moment(s, e)], Step(s, e, late))
  {
    hide Inv, WorkerKnown, Confirmed, PlansAre, Step, Cleared, TokensDiffer;
    var m := Moment(s, e);
    var tr', s' := tr + [m], Step(s, e, late);
    StepRequests(s, e, late);
    forall x, k | (x, k) in s'.inflight ensures Cleared(tr', s.plan, x, k) {
      if (x, k) !in s.inflight { CreateIsCleared(tr, s, x, late); }
      ClearedKept(tr, m, s.plan, x, k);
    }
    forall j | 0 <= j < |s'.remote| ensures Cleared(tr', s.plan, s'.remote[j].owner, s'.remote[j].key) {
      ClearedKept(tr, m, s.plan, s'.remote[j].owner, s'.remote[j].key);
    }
  }

  lemma TokensKept(s: State, e: Event, late: bool)
    requires Inv(s, late) && s.plan != [] && TokensDiffer(s.workers)
    ensures TokensDiffer(Step(s, e, late).workers)
  {
    hide Inv, Step, TablesLeft, Accounting, Exclusive, PcOk, SnapshotOk, FoundOk, RequestsOk;
    EventKeeps(s, e, late);
    var w, s' := Actor(e), Step(s, e, late);
    if w in s.workers {
      TokenStays(s, e, late);
    } else if w in s'.workers {
      NewToken(s, e, late);
    }
  }

  lemma TokenStays(s: State, e: Event, late: bool)
    requires Actor(e) in s.workers
    ensures Actor(e) in Step(s, e, late).workers && Step(s, e, late).workers[Actor(e)].token == s.workers[Actor(e)].token
  {
    hide Step;
    StepLeaves(s, e, late);
  }

  lemma NewToken(s: State, e: Event, late: bool)
    requires Inv(s, late) && Actor(e) !in s.workers && Actor(e) in Step(s, e, late).workers
    ensures var t := Step(s, e, late).workers[Actor(e)].token;
      t == 0 || forall x :: x in s.workers ==> s.workers[x].token < t
  {
    forall x | x in s.workers ensures s.workers[x].token <= s.tables.lastToken { InvWorker(s, x, late); }
  }

  lemma NobodyYet(tr: seq<Moment>, s: State, e: Event, late: bool, w: OwnerId)
    requires Inv(s, late) && s.plan != [] && Confirmed(tr, w) == 0 && w !in Step(s, e, late).workers
    requires w !in s.workers
    ensures Confirmed(tr + [Moment(s, e)], w) == 0
  {
    hide Inv, Step, Confirmed;
    ConfirmedKept(tr, Moment(s, e), w);
  }

  lemma StepKnown(tr: seq<Moment>, s: State, e: Event, late: bool)
    requires Inv(s, late) && s.plan != [] && Known(tr, s)
    ensures Known(tr + [Moment(s, e)], Step(s, e, late)) && Step(s, e, late).plan == s.plan
  {
    hide Inv, WorkerKnown, Confirmed, RequestsCleared, TokensDiffer, Step, TablesLeft;
    var s' := Step(s, e, late);
    EventKeeps(s, e, late);
    StepLeaves(s, e, late);
    TokensKept(s, e, late);
    RequestsKnown(tr, s, e, late);
    forall x | x in s'.workers ensures WorkerKnown(tr + [Moment(s, e)], s', x) { WorkersKnown(tr, s, e, late, x); }
    forall w | w !in s'.workers ensures Confirmed(tr + [Moment(s, e)], w) == 0 {
      if Actor(e) in s.workers { TokenStays(s, e, late); }
      NobodyYet(tr, s, e, late, w);
    }
  }

  lemma InitKnown(plan: seq<Key>)
    ensures Known([], Init(plan))
  {
  }

  lemma {:induction false} RunKnown(plan: seq<Key>, events: seq<Event>, late: bool)
    requires Distinct(plan) && plan != []
    ensures Known(Trace(Init(plan), events, late), Run(Init(plan), events, late))
    ensures Inv(Run(Init(plan), events, late), late) && Run(Init(plan), events, late).plan == plan
  {
    hide Inv, Known, Step;
    PublicationTheorems.InitInv(plan, late);
    PublicationTheorems.RunInv(Init(plan), events, late);
    if events == [] {
      InitKnown(plan);
    } else {
      var init := events[..|events| - 1];
      PublicationTheorems.RunInv(Init(plan), init, late);
      RunKnown(plan, init, late);
      StepKnown(Trace(Init(plan), init, late), Run(Init(plan), init, late), events[|events| - 1], late);
    }
  }
}
