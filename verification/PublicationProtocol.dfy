/** Remote publication as a transition system: any number of workers, each one `publish`
    call, run against the tables of one task and one remote target, interleaved with a
    clock, lease expiry, lost responses and crashes. Every store access and every call to
    the remote is one event; an event that is not enabled leaves the state as it was, so a
    run is any list of events at all. */
module PublicationProtocol {
  import opened Wrappers
  import opened PublicationTables

  // ----- results -------------------------------------------------------------------

  datatype PublicationState = AllPending | AllSucceeded | Partial | AllFailed | AnyUnknown

  datatype PublicationResult = PublicationResult(
    state: PublicationState,
    published: nat,
    skipped: nat,
    failed: nat,
    unknown: nat,
    items: seq<Row>)

  function Count(items: seq<Row>, state: ItemState): nat {
    if items == [] then 0
    else Count(items[..|items| - 1], state) + (if items[|items| - 1].state == state then 1 else 0)
  }

  predicate SomeIn(items: seq<Row>, state: ItemState) {
    exists i :: 0 <= i < |items| && items[i].state == state
  }

  function AggregateState(items: seq<Row>): PublicationState {
    if SomeIn(items, Unknown) then AnyUnknown
    else if SomeIn(items, Succeeded) && !SomeIn(items, Failed) && !SomeIn(items, Pending) then AllSucceeded
    else if SomeIn(items, Succeeded) && SomeIn(items, Failed) then Partial
    else if SomeIn(items, Failed) then AllFailed
    else AllPending
  }

  function RowOf(rows: map<Key, Row>, key: Key): Row {
    if key in rows then rows[key] else InitialRow()
  }

  /** The item rows in the order of the plan. */
  function ReadItems(plan: seq<Key>, rows: map<Key, Row>): (items: seq<Row>)
    ensures |items| == |plan|
    ensures forall i :: 0 <= i < |plan| ==> items[i] == RowOf(rows, plan[i])
  {
    seq(|plan|, i requires 0 <= i < |plan| => RowOf(rows, plan[i]))
  }

  /** The items a call still has to publish, each with the row it read. */
  function RemainingItems(plan: seq<Key>, rows: map<Key, Row>): map<Key, Row> {
    if plan == [] then map[]
    else
      var key := plan[|plan| - 1];
      var rest := RemainingItems(plan[..|plan| - 1], rows);
      if RowOf(rows, key).state != Succeeded then rest[key := RowOf(rows, key)] else rest
  }

  function Finish(items: seq<Row>, created: nat, skipped: nat): PublicationResult {
    PublicationResult(AggregateState(items), created, skipped,
                      Count(items, Failed), Count(items, Unknown), items)
  }

  // ----- states --------------------------------------------------------------------

  const LEASE_SECONDS: nat := 600

  datatype Outcome =
    | NotAcquired
    | Returned(result: PublicationResult)
    | LeaseHeld
    | FenceLost
    | Raised
    | Crashed

  /** Where a worker stands; an index is a position in the plan. */
  datatype Pc =
    | Snapshot
    | RenewForTarget
    | VerifyTarget
    | RenewForSearch
    | Search
    | Item(i: nat)
    | Scan(i: nat)
    | Create(i: nat)
    | Await(i: nat)
    | Write(i: nat, write: ItemWrite)
    | FailItem(i: nat, failure: ItemWrite, preserveUnknowns: bool)
    | ReadResult
    | Release(outcome: Outcome)
    | Done(outcome: Outcome)

  datatype Worker = Worker(
    pc: Pc,
    token: nat,
    remaining: map<Key, Row>,
    found: map<Key, RemoteComment>,
    created: nat,
    skipped: nat)

  /** One comment on the remote: who asked for it, under which marker. */
  datatype Post = Post(owner: OwnerId, key: Key, comment: RemoteComment)

  datatype State = State(
    now: int,
    plan: seq<Key>,
    tables: Tables,
    remote: seq<Post>,
    inflight: set<(OwnerId, Key)>,
    workers: map<OwnerId, Worker>)

  /** What the remote port and the content scanner answer. */
  datatype Answer =
    | TargetError(code: string, unknown: bool)
    | Target(open: bool, headMatches: bool)
    | SearchError(code: string, unknown: bool)
    | SearchComplete
    | ScanPassed
    | ScanRejected
    | CreateOk(comment: RemoteComment)
    | CreateError(code: string, unknown: bool)
    | PortRaised
    | NoAnswer

  datatype Event =
    | Tick(seconds: nat)
    | Begin(w: OwnerId)
    | Act(w: OwnerId, answer: Answer)
    | Effect(w: OwnerId, key: Key, comment: RemoteComment)
    | Crash(w: OwnerId)

  function Init(plan: seq<Key>): State {
    State(0, plan, Tables(None, 0, map k | k in plan :: InitialRow()), [], {}, map[])
  }

  predicate OnRemote(remote: seq<Post>, key: Key) {
    exists i :: 0 <= i < |remote| && remote[i].key == key
  }

  predicate CommentOnRemote(remote: seq<Post>, key: Key, comment: RemoteComment) {
    exists i :: 0 <= i < |remote| && remote[i].key == key && remote[i].comment == comment
  }

  /** The comment a complete marker search reports: the last one that carries the marker. */
  function CommentOf(remote: seq<Post>, key: Key): (c: RemoteComment)
    requires OnRemote(remote, key)
    ensures CommentOnRemote(remote, key, c)
  {
    var last := remote[|remote| - 1];
    if last.key == key then last.comment
    else
      assert forall i :: 0 <= i < |remote| - 1 ==> remote[..|remote| - 1][i] == remote[i];
      CommentOf(remote[..|remote| - 1], key)
  }

  // ----- steps ---------------------------------------------------------------------

  function Moved(s: State, w: OwnerId, me: Worker): State {
    s.(workers := s.workers[w := me])
  }

  function Goto(s: State, w: OwnerId, pc: Pc): State
    requires w in s.workers
  {
    Moved(s, w, s.workers[w].(pc := pc))
  }

  function BeginStep(s: State, w: OwnerId): State {
    if w in s.workers then s
    else
      var (tables, token) := Acquired(s.tables, w, s.now, LEASE_SECONDS);
      var me := if token.Some? then Worker(Snapshot, token.value, map[], map[], 0, 0)
                else Worker(Done(NotAcquired), 0, map[], map[], 0, 0);
      Moved(s.(tables := tables), w, me)
  }

  function SnapshotStep(s: State, w: OwnerId): State
    requires w in s.workers
  {
    var remaining := RemainingItems(s.plan, s.tables.rows);
    var skipped := if |remaining| <= |s.plan| then |s.plan| - |remaining| else 0;
    var me := s.workers[w].(remaining := remaining, created := 0, skipped := skipped);
    Moved(s, w,
      if remaining == map[]
      then me.(pc := Release(Returned(Finish(ReadItems(s.plan, s.tables.rows), 0, skipped))))
      else me.(pc := RenewForTarget))
  }

  function RenewStep(s: State, w: OwnerId, next: Pc): State
    requires w in s.workers
  {
    var (tables, ok) := Renewed(s.tables, w, s.workers[w].token, s.now, LEASE_SECONDS);
    Goto(s.(tables := tables), w, if ok then next else Release(LeaseHeld))
  }

  function Failure(code: string, unknown: bool): ItemWrite {
    ItemWrite(if unknown then Unknown else Failed, None, Some(code))
  }

  function VerifyStep(s: State, w: OwnerId, a: Answer): State
    requires w in s.workers
  {
    match a
    case TargetError(code, unknown) => Goto(s, w, FailItem(0, Failure(code, unknown), false))
    case Target(open, headMatches) =>
      Goto(s, w,
        if !open then FailItem(0, Failure("publication_target_closed", false), false)
        else if !headMatches then FailItem(0, Failure("publication_target_changed", false), false)
        else RenewForSearch)
    case PortRaised => Goto(s, w, Release(Raised))
    case _ => s
  }

  function SearchStep(s: State, w: OwnerId, a: Answer): State
    requires w in s.workers
  {
    match a
    case SearchError(code, unknown) => Goto(s, w, FailItem(0, Failure(code, unknown), true))
    case SearchComplete =>
      var me := s.workers[w];
      var found := map k | k in me.remaining && OnRemote(s.remote, k) :: CommentOf(s.remote, k);
      Moved(s, w, me.(pc := Item(0), found := found))
    case PortRaised => Goto(s, w, Release(Raised))
    case _ => s
  }

  /** Compare-and-swap the row of item `i` against the version in the snapshot. */
  function WriteStep(s: State, w: OwnerId, i: nat, write: ItemWrite, after: Worker): State
    requires w in s.workers && i < |s.plan| && s.plan[i] in s.workers[w].remaining
  {
    var me, key := s.workers[w], s.plan[i];
    var (tables, ok) := Updated(s.tables, key, write, w, me.token, me.remaining[key].version, s.now);
    Moved(s.(tables := tables), w, if ok then after else me.(pc := Release(FenceLost)))
  }

  function ItemStep(s: State, w: OwnerId, i: nat): State
    requires w in s.workers
  {
    var me := s.workers[w];
    if i >= |s.plan| then Goto(s, w, ReadResult)
    else if s.plan[i] !in me.remaining then Goto(s, w, Item(i + 1))
    else if s.plan[i] in me.found then
      WriteStep(s, w, i, ItemWrite(Succeeded, Some(me.found[s.plan[i]]), None),
                me.(pc := Item(i + 1), skipped := me.skipped + 1))
    else RenewStep(s, w, Scan(i))
  }

  function ScanStep(s: State, w: OwnerId, i: nat, a: Answer): State
    requires w in s.workers
  {
    match a
    case ScanPassed => Goto(s, w, Create(i))
    case ScanRejected =>
      Goto(s, w, Write(i, ItemWrite(Failed, None, Some("publication_content_rejected"))))
    case _ => s
  }

  /** The request leaves; when and whether it takes effect is up to `Effect`. */
  function CreateStep(s: State, w: OwnerId, i: nat): State
    requires w in s.workers
  {
    if i < |s.plan| then Goto(s.(inflight := s.inflight + {(w, s.plan[i])}), w, Await(i)) else s
  }

  function AwaitStep(s: State, w: OwnerId, i: nat, a: Answer): State
    requires w in s.workers
  {
    match a
    case CreateOk(comment) =>
      if i < |s.plan| && Post(w, s.plan[i], comment) in s.remote
      then Goto(s, w, Write(i, ItemWrite(Succeeded, Some(comment), None)))
      else s
    case CreateError(code, unknown) => Goto(s, w, Write(i, Failure(code, unknown)))
    case PortRaised => Goto(s, w, Release(Raised))
    case _ => s
  }

  function OutcomeStep(s: State, w: OwnerId, i: nat, write: ItemWrite): State
    requires w in s.workers
  {
    var me := s.workers[w];
    if i < |s.plan| && s.plan[i] in me.remaining then
      WriteStep(s, w, i, write,
        me.(pc := Item(i + 1), created := me.created + (if write.state == Succeeded then 1 else 0)))
    else s
  }

  function FailStep(s: State, w: OwnerId, i: nat, failure: ItemWrite, preserve: bool): State
    requires w in s.workers
  {
    var me := s.workers[w];
    if i >= |s.plan| then Goto(s, w, ReadResult)
    else if s.plan[i] !in me.remaining || (preserve && me.remaining[s.plan[i]].state == Unknown)
    then Goto(s, w, FailItem(i + 1, failure, preserve))
    else WriteStep(s, w, i, failure, me.(pc := FailItem(i + 1, failure, preserve)))
  }

  function ReadResultStep(s: State, w: OwnerId): State
    requires w in s.workers
  {
    var me := s.workers[w];
    Goto(s, w, Release(Returned(Finish(ReadItems(s.plan, s.tables.rows), me.created, me.skipped))))
  }

  function ReleaseStep(s: State, w: OwnerId, outcome: Outcome): State
    requires w in s.workers
  {
    Goto(s.(tables := Released(s.tables, w, Some(s.workers[w].token))), w, Done(outcome))
  }

  function ActStep(s: State, w: OwnerId, a: Answer): State
    requires w in s.workers
  {
    match s.workers[w].pc
    case Snapshot => SnapshotStep(s, w)
    case RenewForTarget => RenewStep(s, w, VerifyTarget)
    case VerifyTarget => VerifyStep(s, w, a)
    case RenewForSearch => RenewStep(s, w, Search)
    case Search => SearchStep(s, w, a)
    case Item(i) => ItemStep(s, w, i)
    case Scan(i) => ScanStep(s, w, i, a)
    case Create(i) => CreateStep(s, w, i)
    case Await(i) => AwaitStep(s, w, i, a)
    case Write(i, write) => OutcomeStep(s, w, i, write)
    case FailItem(i, failure, preserve) => FailStep(s, w, i, failure, preserve)
    case ReadResult => ReadResultStep(s, w)
    case Release(outcome) => ReleaseStep(s, w, outcome)
    case Done(_) => s
  }

  /** A create request takes effect. Timely: while the lease of the worker that sent it,
      renewed just before it was sent, is still live. Late: at any time at all. */
  function EffectStep(s: State, w: OwnerId, key: Key, comment: RemoteComment, late: bool): State {
    if (w, key) in s.inflight && (late || (w in s.workers && Live(s.tables, w, s.workers[w].token, s.now)))
    then s.(remote := s.remote + [Post(w, key, comment)], inflight := s.inflight - {(w, key)})
    else s
  }

  function Step(s: State, e: Event, late: bool): State {
    match e
    case Tick(seconds) => s.(now := s.now + seconds)
    case Begin(w) => BeginStep(s, w)
    case Act(w, a) => if w in s.workers then ActStep(s, w, a) else s
    case Effect(w, key, comment) => EffectStep(s, w, key, comment, late)
    case Crash(w) => if w in s.workers && !s.workers[w].pc.Done? then Goto(s, w, Done(Crashed)) else s
  }

  function Run(s: State, events: seq<Event>, late: bool): State {
    if events == [] then s
    else Step(Run(s, events[..|events| - 1], late), events[|events| - 1], late)
  }
}
