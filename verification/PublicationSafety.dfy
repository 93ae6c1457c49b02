/** What every run of the publication protocol keeps. The parameter `late` says whether
    create requests may take effect after the lease they were sent under has ended; only
    the claims about duplicate comments need them not to. */
module PublicationSafety {
  import opened Wrappers
  import opened PublicationTables
  import opened PublicationProtocol

  // ----- the inductive invariant ---------------------------------------------------

  ghost predicate Distinct(plan: seq<Key>) {
    forall i, j :: 0 <= i < j < |plan| ==> plan[i] != plan[j]
  }

  ghost predicate NoDuplicates(remote: seq<Post>) {
    forall i, j :: 0 <= i < j < |remote| ==> remote[i].key != remote[j].key
  }

  /** The plan positions below this one may have a create request of the worker. */
  function Issued(pc: Pc, n: nat): nat {
    match pc
    case Item(i) => i
    case Scan(i) => i
    case Create(i) => i
    case Await(i) => i + 1
    case Write(i, _) => i + 1
    case Snapshot => 0
    case RenewForTarget => 0
    case VerifyTarget => 0
    case RenewForSearch => 0
    case Search => 0
    case _ => n
  }

  /** The plan positions below this one have been dealt with by the worker. */
  function Handled(pc: Pc, n: nat): nat {
    match pc
    case Item(i) => i
    case Scan(i) => i
    case Create(i) => i
    case Await(i) => i
    case Write(i, _) => i
    case FailItem(i, _, _) => i
    case ReadResult => n
    case _ => 0
  }

  predicate Searched(pc: Pc) {
    pc.Item? || pc.Scan? || pc.Create? || pc.Await? || pc.Write?
  }

  /** At work on a snapshot it has read. */
  predicate Working(pc: Pc) {
    !pc.Snapshot? && !pc.Release? && !pc.Done?
  }

  ghost predicate PcOk(plan: seq<Key>, remote: seq<Post>, remaining: map<Key, Row>, found: map<Key, RemoteComment>, pc: Pc) {
    var n := |plan|;
    match pc
    case Item(i) => i <= n
    case Scan(i) => i < n && plan[i] in remaining && plan[i] !in found
    case Create(i) => i < n && plan[i] in remaining && plan[i] !in found
    case Await(i) => i < n && plan[i] in remaining && plan[i] !in found
    case Write(i, write) => i < n && plan[i] in remaining && WriteOk(remote, plan[i], write)
    case FailItem(i, failure, _) => i <= n && (failure.state == Failed || failure.state == Unknown)
    case _ => true
  }

  ghost predicate WriteOk(remote: seq<Post>, key: Key, write: ItemWrite) {
    && write.state != Pending
    && (write.state == Succeeded ==> write.remote.Some? && CommentOnRemote(remote, key, write.remote.value))
  }

  /** The snapshot never runs ahead of a row, and as long as the row has the version of
      the snapshot it still is the snapshot, which had not succeeded. */
  ghost predicate SnapshotOk(rows: map<Key, Row>, remaining: map<Key, Row>) {
    forall k :: k in remaining ==>
      && k in rows
      && remaining[k].state != Succeeded
      && remaining[k].version <= rows[k].version
      && (remaining[k].version == rows[k].version ==> remaining[k] == rows[k])
  }

  ghost predicate FoundOk(remote: seq<Post>, found: map<Key, RemoteComment>) {
    forall k :: k in found ==> CommentOnRemote(remote, k, found[k])
  }

  ghost predicate PlannedBefore(plan: seq<Key>, key: Key, n: nat) {
    exists j :: 0 <= j < n && j < |plan| && plan[j] == key
  }

  ghost predicate RequestsOk(inflight: set<(OwnerId, Key)>, plan: seq<Key>, w: OwnerId, issued: nat) {
    forall k :: (w, k) in inflight ==> PlannedBefore(plan, k, issued)
  }

  /** What only the owner of the lease row knows about the remote: its own requests that
      have not taken effect and the items it has still to create are not there. */
  ghost predicate RequestsUnposted(inflight: set<(OwnerId, Key)>, remote: seq<Post>, w: OwnerId) {
    forall k :: (w, k) in inflight ==> !OnRemote(remote, k)
  }

  ghost predicate RestUnposted(plan: seq<Key>, remote: seq<Post>, remaining: map<Key, Row>,
                               found: map<Key, RemoteComment>, issued: nat) {
    forall j :: issued <= j < |plan| && plan[j] in remaining && plan[j] !in found ==> !OnRemote(remote, plan[j])
  }

  ghost predicate Exclusive(s: State, w: OwnerId, me: Worker) {
    && RequestsUnposted(s.inflight, s.remote, w)
    && (Searched(me.pc) ==> RestUnposted(s.plan, s.remote, me.remaining, me.found, Issued(me.pc, |s.plan|)))
  }

  /** While `w` owns the lease row: `won` items have succeeded, the items of the snapshot
      from `handled` on are as they were read, those before are no longer pending. */
  ghost predicate Bookkeeping(plan: seq<Key>, rows: map<Key, Row>, remaining: map<Key, Row>, won: nat, handled: nat) {
    && won == Count(ReadItems(plan, rows), Succeeded)
    && (forall j :: 0 <= j < |plan| && plan[j] !in remaining ==> RowOf(rows, plan[j]).state == Succeeded)
    && (forall j :: handled <= j < |plan| && plan[j] in remaining ==> RowOf(rows, plan[j]) == remaining[plan[j]])
    && (forall j :: 0 <= j < handled && j < |plan| && plan[j] in remaining ==> RowOf(rows, plan[j]).state != Pending)
  }

  ghost predicate Accounted(r: PublicationResult, n: nat) {
    && r.published + r.skipped + r.failed + r.unknown == n == |r.items|
    && !SomeIn(r.items, Pending)
    && (r.state == AllSucceeded <==> r.failed + r.unknown == 0)
  }

  /** What the owner of the lease row knows about the item rows. */
  ghost predicate Accounting(plan: seq<Key>, rows: map<Key, Row>, me: Worker) {
    && (Working(me.pc) ==>
          Bookkeeping(plan, rows, me.remaining, me.created + me.skipped, Handled(me.pc, |plan|)))
    && (me.pc.Release? && me.pc.outcome.Returned? ==>
          Accounted(me.pc.outcome.result, |plan|) && me.pc.outcome.result.items == ReadItems(plan, rows))
  }

  ghost predicate WorkerOk(s: State, w: OwnerId, late: bool)
    requires w in s.workers
  {
    var me := s.workers[w];
    && me.token <= s.tables.lastToken
    && PcOk(s.plan, s.remote, me.remaining, me.found, me.pc)
    && SnapshotOk(s.tables.rows, me.remaining)
    && FoundOk(s.remote, me.found)
    && RequestsOk(s.inflight, s.plan, w, Issued(me.pc, |s.plan|))
    && (HeldBy(s.tables, w) && !late ==> Exclusive(s, w, me))
    && (HeldBy(s.tables, w) ==> Accounting(s.plan, s.tables.rows, me))
  }

  ghost predicate TablesOk(s: State) {
    && Distinct(s.plan)
    && s.tables.rows.Keys == (set k | k in s.plan)
    && (s.tables.lease.Some? ==>
          var l := s.tables.lease.value;
          l.token == s.tables.lastToken && l.owner in s.workers && s.workers[l.owner].token == l.token)
    && (forall k :: k in s.tables.rows ==>
          && s.tables.rows[k].token <= s.tables.lastToken
          && (s.tables.rows[k].state == Succeeded ==>
                && s.tables.rows[k].remote.Some?
                && CommentOnRemote(s.remote, k, s.tables.rows[k].remote.value)))
  }

  ghost predicate Inv(s: State, late: bool) {
    && TablesOk(s)
    && (!late ==> NoDuplicates(s.remote))
    && (forall w, k :: (w, k) in s.inflight ==> w in s.workers)
    && (forall w :: w in s.workers ==> WorkerOk(s, w, late))
  }

  // ----- what a step of one worker leaves to the others ------------------------------

  ghost predicate RowsGrow(rows: map<Key, Row>, rows': map<Key, Row>) {
    && rows'.Keys == rows.Keys
    && forall k :: k in rows ==>
         rows'[k] == rows[k] || (rows'[k].version > rows[k].version && rows[k].state != Succeeded && rows[k].token <= rows'[k].token)
  }

  ghost predicate Frame(s: State, s': State, w: OwnerId, late: bool) {
    && s'.plan == s.plan
    && s.tables.lastToken <= s'.tables.lastToken
    && RowsGrow(s.tables.rows, s'.tables.rows)
    && s.remote <= s'.remote
    && (forall x :: x != w ==> (x in s'.workers <==> x in s.workers))
    && (forall x :: x != w && x in s.workers ==> s'.workers[x] == s.workers[x])
    && (forall x, k :: x != w ==> ((x, k) in s'.inflight <==> (x, k) in s.inflight))
    && (forall x :: x != w && HeldBy(s'.tables, x) ==>
          HeldBy(s.tables, x) && s'.tables.rows == s.tables.rows && (!late ==> s'.remote == s.remote))
  }

  lemma RemoteGrows(remote: seq<Post>, remote': seq<Post>, k: Key, c: RemoteComment)
    requires remote <= remote' && CommentOnRemote(remote, k, c)
    ensures CommentOnRemote(remote', k, c)
  {
    var i :| 0 <= i < |remote| && remote[i].key == k && remote[i].comment == c;
    assert remote'[i] == remote[i];
  }

  lemma RemoteGrowsUnder(plan: seq<Key>, remote: seq<Post>, remote': seq<Post>, me: Worker)
    requires remote <= remote'
    requires PcOk(plan, remote, me.remaining, me.found, me.pc) && FoundOk(remote, me.found)
    ensures PcOk(plan, remote', me.remaining, me.found, me.pc) && FoundOk(remote', me.found)
  {
    forall k | k in me.found ensures CommentOnRemote(remote', k, me.found[k]) {
      RemoteGrows(remote, remote', k, me.found[k]);
    }
    if me.pc.Write? && me.pc.write.state == Succeeded {
      RemoteGrows(remote, remote', plan[me.pc.i], me.pc.write.remote.value);
    }
  }

  lemma OthersKept(s: State, s': State, w: OwnerId, x: OwnerId, late: bool)
    requires Frame(s, s', w, late) && x != w && x in s.workers && WorkerOk(s, x, late)
    ensures x in s'.workers && WorkerOk(s', x, late)
  {
    var me := s.workers[x];
    RemoteGrowsUnder(s.plan, s.remote, s'.remote, me);
    if HeldBy(s'.tables, x) && !late {
      assert RequestsUnposted(s'.inflight, s'.remote, x);
    }
  }

  lemma InvWorker(s: State, w: OwnerId, late: bool)
    requires Inv(s, late) && w in s.workers
    ensures WorkerOk(s, w, late) && TablesOk(s) && (!late ==> NoDuplicates(s.remote))
  {
  }

  /** Assembles the invariant after a step of `w` from its parts. */
  lemma StepKeeps(s: State, s': State, w: OwnerId, late: bool)
    requires Inv(s, late) && Frame(s, s', w, late)
    requires TablesOk(s') && (!late ==> NoDuplicates(s'.remote))
    requires w in s.workers ==> w in s'.workers
    requires forall k :: (w, k) in s'.inflight ==> w in s'.workers
    requires w in s'.workers ==> WorkerOk(s', w, late)
    ensures Inv(s', late)
  {
    forall x | x in s'.workers ensures WorkerOk(s', x, late) {
      if x != w { OthersKept(s, s', w, x, late); }
    }
    forall x, k | (x, k) in s'.inflight ensures x in s'.workers {
      if x != w { assert (x, k) in s.inflight; }
    }
  }

  // ----- steps that only move the worker ---------------------------------------------

  lemma GotoKeeps(s: State, w: OwnerId, me: Worker, late: bool)
    requires Inv(s, late) && w in s.workers && me.token == s.workers[w].token
    requires WorkerOk(Moved(s, w, me), w, late)
    ensures Inv(Moved(s, w, me), late) && Frame(s, Moved(s, w, me), w, late)
  {
    StepKeeps(s, Moved(s, w, me), w, late);
  }

  lemma RenewKeeps(s: State, w: OwnerId, next: Pc, late: bool)
    requires Inv(s, late) && w in s.workers && Working(s.workers[w].pc) && Working(next)
    requires PcOk(s.plan, s.remote, s.workers[w].remaining, s.workers[w].found, next)
    requires Issued(next, |s.plan|) == Issued(s.workers[w].pc, |s.plan|)
    requires Handled(next, |s.plan|) == Handled(s.workers[w].pc, |s.plan|)
    requires Searched(next) == Searched(s.workers[w].pc)
    ensures Inv(RenewStep(s, w, next), late) && Frame(s, RenewStep(s, w, next), w, late)
  {
    hide Inv, PcOk, SnapshotOk, FoundOk, RequestsOk, RequestsUnposted, RestUnposted, Bookkeeping, Distinct, NoDuplicates;
    InvWorker(s, w, late);
    var (tables, ok) := Renewed(s.tables, w, s.workers[w].token, s.now, LEASE_SECONDS);
    var s' := RenewStep(s, w, next);
    assert s' == Goto(s.(tables := tables), w, if ok then next else Release(LeaseHeld));
    PlannedWiden(s.inflight, s.plan, w, Issued(s'.workers[w].pc, |s.plan|), Issued(s.workers[w].pc, |s.plan|));
    PcOkAnyway(s.plan, s.remote, s.workers[w].remaining, s.workers[w].found, Release(LeaseHeld));
    StepKeeps(s, s', w, late);
  }

  lemma PcOkAnyway(plan: seq<Key>, remote: seq<Post>, remaining: map<Key, Row>, found: map<Key, RemoteComment>, pc: Pc)
    requires pc == ReadResult || pc.Release? || pc.Done?
    ensures PcOk(plan, remote, remaining, found, pc)
  {
  }

  lemma PlannedWiden(inflight: set<(OwnerId, Key)>, plan: seq<Key>, w: OwnerId, m: nat, n: nat)
    requires RequestsOk(inflight, plan, w, n) && (n <= m || |plan| <= m)
    ensures RequestsOk(inflight, plan, w, m)
  {
    forall k | (w, k) in inflight ensures PlannedBefore(plan, k, m) {
      var j :| 0 <= j < n && j < |plan| && plan[j] == k;
      assert plan[j] == k;
    }
  }

  // ----- the snapshot ----------------------------------------------------------------

  lemma {:induction false} RemainingReads(plan: seq<Key>, rows: map<Key, Row>)
    requires Distinct(plan)
    ensures forall k :: k in RemainingItems(plan, rows) <==> k in plan && RowOf(rows, k).state != Succeeded
    ensures forall k :: k in RemainingItems(plan, rows) ==> RemainingItems(plan, rows)[k] == RowOf(rows, k)
  {
    if plan != [] {
      var init, key := plan[..|plan| - 1], plan[|plan| - 1];
      RemainingReads(init, rows);
      assert plan == init + [key];
    }
  }

  lemma {:induction false} RemainingCounts(plan: seq<Key>, rows: map<Key, Row>)
    requires Distinct(plan)
    ensures |RemainingItems(plan, rows)| + Count(ReadItems(plan, rows), Succeeded) == |plan|
  {
    hide Distinct, RemainingItems, Count, ReadItems;
    if plan == [] {
      NoneRemaining(plan, rows);
    } else {
      var init, key := plan[..|plan| - 1], plan[|plan| - 1];
      assert plan == init + [key];
      DistinctInit(init, key);
      RemainingCounts(init, rows);
      RemainingReads(init, rows);
      RemainingStep(init, key, rows);
    }
  }

  lemma NoneRemaining(plan: seq<Key>, rows: map<Key, Row>)
    requires plan == []
    ensures RemainingItems(plan, rows) == map[] && Count(ReadItems(plan, rows), Succeeded) == 0
  {
  }

  lemma RemainingStep(init: seq<Key>, key: Key, rows: map<Key, Row>)
    requires key !in RemainingItems(init, rows)
    ensures var done := RowOf(rows, key).state == Succeeded;
      && |RemainingItems(init + [key], rows)| == |RemainingItems(init, rows)| + (if done then 0 else 1)
      && Count(ReadItems(init + [key], rows), Succeeded) == Count(ReadItems(init, rows), Succeeded) + (if done then 1 else 0)
  {
    var plan, rest := init + [key], RemainingItems(init, rows);
    assert plan[..|init|] == init;
    assert |rest[key := RowOf(rows, key)]| == |rest| + 1;
    assert ReadItems(plan, rows)[..|init|] == ReadItems(init, rows);
  }

  lemma DistinctInit(init: seq<Key>, key: Key)
    requires Distinct(init + [key])
    ensures Distinct(init) && key !in init
  {
    var plan := init + [key];
    assert forall i :: 0 <= i < |init| ==> plan[i] == init[i];
    assert plan[|init|] == key;
  }

  lemma {:induction false} CountBounds(items: seq<Row>, st: ItemState)
    ensures Count(items, st) <= |items|
    ensures Count(items, st) == 0 <==> !SomeIn(items, st)
  {
    if items != [] {
      var init := items[..|items| - 1];
      CountBounds(init, st);
      assert forall i :: 0 <= i < |init| ==> init[i] == items[i];
    }
  }

  lemma {:induction false} CountsAddUp(items: seq<Row>)
    ensures Count(items, Pending) + Count(items, Succeeded) + Count(items, Failed) + Count(items, Unknown) == |items|
  {
    if items != [] { CountsAddUp(items[..|items| - 1]); }
  }

  lemma FinishAccounted(items: seq<Row>, created: nat, skipped: nat)
    requires created + skipped == Count(items, Succeeded) && items != []
    requires !SomeIn(items, Pending)
    ensures Accounted(Finish(items, created, skipped), |items|)
  {
    CountsAddUp(items);
    CountBounds(items, Pending);
    CountBounds(items, Succeeded);
    CountBounds(items, Failed);
    CountBounds(items, Unknown);
  }

  lemma SnapshotReads(plan: seq<Key>, rows: map<Key, Row>)
    requires Distinct(plan) && plan != [] && rows.Keys == (set k | k in plan)
    ensures var r := RemainingItems(plan, rows);
      && |r| <= |plan|
      && SnapshotOk(rows, r)
      && Bookkeeping(plan, rows, r, |plan| - |r|, 0)
      && (r == map[] ==> Accounted(Finish(ReadItems(plan, rows), 0, |plan|), |plan|))
  {
    RemainingReads(plan, rows);
    RemainingCounts(plan, rows);
    var r, items := RemainingItems(plan, rows), ReadItems(plan, rows);
    if r == map[] {
      assert forall k :: k in plan ==> k !in r;
      assert !SomeIn(items, Pending);
      FinishAccounted(items, 0, |plan|);
    }
  }

  lemma SnapshotKeeps(s: State, w: OwnerId, late: bool)
    requires Inv(s, late) && s.plan != [] && w in s.workers && s.workers[w].pc == Snapshot
    ensures Inv(SnapshotStep(s, w), late) && Frame(s, SnapshotStep(s, w), w, late)
  {
    hide Inv, Frame, Bookkeeping, SnapshotOk, Accounted, Distinct, NoDuplicates, RequestsOk, RequestsUnposted, FoundOk,
         RemainingItems, ReadItems;
    InvWorker(s, w, late);
    SnapshotReads(s.plan, s.tables.rows);
    PlannedWiden(s.inflight, s.plan, w, |s.plan|, 0);
    var me := SnapshotStep(s, w).workers[w];
    assert RemainingItems(s.plan, s.tables.rows) == map[] ==> |RemainingItems(s.plan, s.tables.rows)| == 0;
    GotoKeeps(s, w, me, late);
  }

  // ----- item writes -----------------------------------------------------------------

  lemma {:induction false} CountUpdate(items: seq<Row>, j: nat, row: Row, st: ItemState)
    requires j < |items|
    ensures Count(items[j := row], st) + (if items[j].state == st then 1 else 0) ==
            Count(items, st) + (if row.state == st then 1 else 0)
  {
    var n := |items| - 1;
    if j == n {
      assert items[j := row][..n] == items[..n];
    } else {
      CountUpdate(items[..n], j, row, st);
      assert items[j := row][..n] == items[..n][j := row];
    }
  }

  lemma WriteBookkeeping(plan: seq<Key>, rows: map<Key, Row>, remaining: map<Key, Row>, won: nat, i: nat, row: Row)
    requires Distinct(plan) && rows.Keys == (set k | k in plan)
    requires i < |plan| && plan[i] in remaining && remaining[plan[i]].state != Succeeded
    requires Bookkeeping(plan, rows, remaining, won, i) && row.state != Pending
    ensures Bookkeeping(plan, rows[plan[i] := row], remaining, won + (if row.state == Succeeded then 1 else 0), i + 1)
  {
    hide Count;
    var rows' := rows[plan[i] := row];
    var items := ReadItems(plan, rows);
    assert ReadItems(plan, rows') == items[i := row];
    assert items[i].state != Succeeded;
    CountUpdate(items, i, row, Succeeded);
    assert forall j :: 0 <= j < |plan| && j != i ==> RowOf(rows', plan[j]) == RowOf(rows, plan[j]);
  }

  lemma WriteSnapshots(rows: map<Key, Row>, remaining: map<Key, Row>, key: Key, row: Row)
    requires SnapshotOk(rows, remaining) && key in rows && row.version > rows[key].version
    ensures SnapshotOk(rows[key := row], remaining)
  {
  }

  lemma SnapshotUnfinished(rows: map<Key, Row>, remaining: map<Key, Row>, key: Key)
    requires SnapshotOk(rows, remaining) && key in remaining
    ensures key in rows && remaining[key].state != Succeeded
  {
  }

  lemma WriteTables(s: State, s': State, key: Key, row: Row)
    requires TablesOk(s) && key in s.tables.rows
    requires s'.plan == s.plan && s'.remote == s.remote && s'.tables == s.tables.(rows := s.tables.rows[key := row])
    requires s.tables.lease.Some? ==> var x := s.tables.lease.value.owner;
               x in s'.workers && s'.workers[x].token == s.workers[x].token
    requires row.token <= s.tables.lastToken && WriteOk(s.remote, key, ItemWrite(row.state, row.remote, row.error))
    ensures TablesOk(s')
  {
  }

  /** What a compare-and-swap of item `i` needs of the worker `me'` it leads to. */
  ghost predicate Advances(s: State, me: Worker, i: nat, write: ItemWrite, me': Worker) {
    var n := |s.plan|;
    && i < n && s.plan[i] in me.remaining && WriteOk(s.remote, s.plan[i], write)
    && Working(me.pc) && Handled(me.pc, n) == i
    && Working(me'.pc) && Handled(me'.pc, n) == i + 1
    && Issued(me.pc, n) <= Issued(me'.pc, n)
    && (Searched(me'.pc) ==> Searched(me.pc))
    && PcOk(s.plan, s.remote, me'.remaining, me'.found, me'.pc)
    && me'.token == me.token && me'.remaining == me.remaining && me'.found == me.found
    && me'.created + me'.skipped == me.created + me.skipped + (if write.state == Succeeded then 1 else 0)
  }

  lemma WriteWorker(s: State, w: OwnerId, i: nat, write: ItemWrite, me': Worker, late: bool)
    requires TablesOk(s) && w in s.workers && WorkerOk(s, w, late) && Advances(s, s.workers[w], i, write, me')
    requires WriteStep(s, w, i, write, me').workers[w] == me'
    requires Updated(s.tables, s.plan[i], write, w, me'.token, me'.remaining[s.plan[i]].version, s.now).1
    ensures WorkerOk(WriteStep(s, w, i, write, me'), w, late)
  {
    hide Frame, Distinct, Bookkeeping, SnapshotOk, RequestsOk, PcOk, FoundOk, RequestsUnposted;
    var me, key := s.workers[w], s.plan[i];
    var row := Row(write.state, write.remote, write.error, me.remaining[key].version + 1, me.token);
    var s' := WriteStep(s, w, i, write, me');
    assert s'.tables == s.tables.(rows := s.tables.rows[key := row]);
    SnapshotUnfinished(s.tables.rows, me.remaining, key);
    WriteBookkeeping(s.plan, s.tables.rows, me.remaining, me.created + me.skipped, i, row);
    WriteSnapshots(s.tables.rows, me.remaining, key, row);
    PlannedWiden(s.inflight, s.plan, w, Issued(me'.pc, |s.plan|), Issued(me.pc, |s.plan|));
    RestWiden(s.plan, s.remote, me.remaining, me.found, Issued(me.pc, |s.plan|), Issued(me'.pc, |s.plan|));
  }

  lemma RestWiden(plan: seq<Key>, remote: seq<Post>, remaining: map<Key, Row>, found: map<Key, RemoteComment>, m: nat, n: nat)
    requires m <= n
    ensures RestUnposted(plan, remote, remaining, found, m) ==> RestUnposted(plan, remote, remaining, found, n)
  {
  }

  lemma WriteKeeps(s: State, w: OwnerId, i: nat, write: ItemWrite, me': Worker, late: bool)
    requires Inv(s, late) && w in s.workers && Advances(s, s.workers[w], i, write, me')
    ensures Inv(WriteStep(s, w, i, write, me'), late) && Frame(s, WriteStep(s, w, i, write, me'), w, late)
  {
    hide Inv, Frame, PcOk, SnapshotOk, FoundOk, RequestsOk, RequestsUnposted, RestUnposted, Bookkeeping, Accounted,
         Distinct, NoDuplicates, WriteOk;
    InvWorker(s, w, late);
    var me, key := s.workers[w], s.plan[i];
    var version := me.remaining[key].version;
    var ok := Updated(s.tables, key, write, w, me.token, version, s.now).1;
    var s' := WriteStep(s, w, i, write, me');
    if ok {
      assert key in s.plan;
      var row := Row(write.state, write.remote, write.error, version + 1, me.token);
      WriteWorker(s, w, i, write, me', late);
      WriteTables(s, s', key, row);
      WriteFrame(s, w, i, write, me', late);
      StepKeeps(s, s', w, late);
    } else {
      PcOkAnyway(s.plan, s.remote, me.remaining, me.found, Release(FenceLost));
      AdvanceKeeps(s, w, Release(FenceLost), late);
    }
  }

  lemma WriteFrame(s: State, w: OwnerId, i: nat, write: ItemWrite, me': Worker, late: bool)
    requires TablesOk(s) && w in s.workers && Advances(s, s.workers[w], i, write, me')
    requires SnapshotOk(s.tables.rows, s.workers[w].remaining)
    ensures Frame(s, WriteStep(s, w, i, write, me'), w, late)
  {
  }

  /** A step that only moves the worker, to where it may have issued more requests. */
  lemma AdvanceKeeps(s: State, w: OwnerId, next: Pc, late: bool)
    requires Inv(s, late) && w in s.workers
    requires Issued(s.workers[w].pc, |s.plan|) <= Issued(next, |s.plan|) || |s.plan| <= Issued(next, |s.plan|)
    requires PcOk(s.plan, s.remote, s.workers[w].remaining, s.workers[w].found, next)
    requires Searched(next) ==> Searched(s.workers[w].pc)
    requires HeldBy(s.tables, w) ==> Accounting(s.plan, s.tables.rows, s.workers[w].(pc := next))
    ensures Inv(Goto(s, w, next), late) && Frame(s, Goto(s, w, next), w, late)
  {
    PlannedWiden(s.inflight, s.plan, w, Issued(next, |s.plan|), Issued(s.workers[w].pc, |s.plan|));
    GotoKeeps(s, w, s.workers[w].(pc := next), late);
  }

  lemma ItemKeeps(s: State, w: OwnerId, i: nat, late: bool)
    requires Inv(s, late) && w in s.workers && s.workers[w].pc == Item(i)
    ensures Inv(ItemStep(s, w, i), late) && Frame(s, ItemStep(s, w, i), w, late)
  {
    hide Inv, Frame, WriteStep, RenewStep, SnapshotOk, RequestsOk, Exclusive, TablesOk;
    InvWorker(s, w, late);
    var me := s.workers[w];
    if i >= |s.plan| {
      AdvanceKeeps(s, w, ReadResult, late);
    } else if s.plan[i] !in me.remaining {
      AdvanceKeeps(s, w, Item(i + 1), late);
    } else if s.plan[i] in me.found {
      WriteKeeps(s, w, i, ItemWrite(Succeeded, Some(me.found[s.plan[i]]), None),
                 me.(pc := Item(i + 1), skipped := me.skipped + 1), late);
    } else {
      RenewKeeps(s, w, Scan(i), late);
    }
  }

  lemma FailKeeps(s: State, w: OwnerId, i: nat, failure: ItemWrite, preserve: bool, late: bool)
    requires Inv(s, late) && w in s.workers && s.workers[w].pc == FailItem(i, failure, preserve)
    ensures Inv(FailStep(s, w, i, failure, preserve), late)
    ensures Frame(s, FailStep(s, w, i, failure, preserve), w, late)
  {
    hide Inv, Frame, WriteStep, SnapshotOk, RequestsOk, Exclusive, TablesOk, FoundOk, Count, ReadItems, Accounted, Distinct;
    InvWorker(s, w, late);
    var me := s.workers[w];
    if i >= |s.plan| {
      AdvanceKeeps(s, w, ReadResult, late);
    } else if s.plan[i] !in me.remaining || (preserve && me.remaining[s.plan[i]].state == Unknown) {
      AdvanceKeeps(s, w, FailItem(i + 1, failure, preserve), late);
    } else {
      WriteKeeps(s, w, i, failure, me.(pc := FailItem(i + 1, failure, preserve)), late);
    }
  }

  // ----- the remote ------------------------------------------------------------------

  lemma SearchKeeps(s: State, w: OwnerId, a: Answer, late: bool)
    requires Inv(s, late) && w in s.workers && s.workers[w].pc == Search
    ensures Inv(SearchStep(s, w, a), late) && Frame(s, SearchStep(s, w, a), w, late)
  {
    hide Inv, Frame, SnapshotOk, RequestsOk, RequestsUnposted, Bookkeeping, TablesOk, NoDuplicates, OnRemote, CommentOnRemote;
    InvWorker(s, w, late);
    var s' := SearchStep(s, w, a);
    var me := s.workers[w];
    if a.SearchError? {
      PlannedWiden(s.inflight, s.plan, w, |s.plan|, 0);
      AdvanceKeeps(s, w, s'.workers[w].pc, late);
    } else if s' != s {
      PlannedWiden(s.inflight, s.plan, w, Issued(s'.workers[w].pc, |s.plan|), 0);
      GotoKeeps(s, w, s'.workers[w], late);
    } else {
      StutterKeeps(s, w, late);
    }
  }

  lemma CreateKeeps(s: State, w: OwnerId, i: nat, late: bool)
    requires Inv(s, late) && w in s.workers && s.workers[w].pc == Create(i)
    ensures Inv(CreateStep(s, w, i), late) && Frame(s, CreateStep(s, w, i), w, late)
  {
    hide Inv, SnapshotOk, FoundOk, RequestsOk, RequestsUnposted, Bookkeeping, Distinct, NoDuplicates, PlannedBefore, OnRemote;
    InvWorker(s, w, late);
    var s' := CreateStep(s, w, i);
    var issued := Issued(s.workers[w].pc, |s.plan|);
    PlannedWiden(s.inflight, s.plan, w, i + 1, i);
    RequestAdded(s.inflight, s.plan, w, i);
    if HeldBy(s.tables, w) && !late {
      assert !OnRemote(s.remote, s.plan[i]);
      RequestUnposted(s.inflight, s.remote, w, s.plan[i]);
    }
    StepKeeps(s, s', w, late);
  }

  lemma RequestAdded(inflight: set<(OwnerId, Key)>, plan: seq<Key>, w: OwnerId, i: nat)
    requires i < |plan| && RequestsOk(inflight, plan, w, i + 1)
    ensures RequestsOk(inflight + {(w, plan[i])}, plan, w, i + 1)
  {
    assert PlannedBefore(plan, plan[i], i + 1);
  }

  lemma RequestUnposted(inflight: set<(OwnerId, Key)>, remote: seq<Post>, w: OwnerId, key: Key)
    requires RequestsUnposted(inflight, remote, w) && !OnRemote(remote, key)
    ensures RequestsUnposted(inflight + {(w, key)}, remote, w)
  {
  }

  lemma AwaitKeeps(s: State, w: OwnerId, i: nat, a: Answer, late: bool)
    requires Inv(s, late) && w in s.workers && s.workers[w].pc == Await(i)
    ensures Inv(AwaitStep(s, w, i, a), late) && Frame(s, AwaitStep(s, w, i, a), w, late)
  {
    hide Inv, Frame, SnapshotOk, FoundOk, RequestsOk, RequestsUnposted, Bookkeeping, TablesOk, NoDuplicates;
    InvWorker(s, w, late);
    var s' := AwaitStep(s, w, i, a);
    if a.CreateOk? && Post(w, s.plan[i], a.comment) in s.remote {
      assert CommentOnRemote(s.remote, s.plan[i], a.comment);
    }
    if s' != s { AdvanceKeeps(s, w, s'.workers[w].pc, late); } else { StutterKeeps(s, w, late); }
  }

  /** A timely effect finds no comment under its marker, and the worker's other requests
      and the items it has still to create are for other markers. */
  lemma PlanDistinct(s: State)
    requires TablesOk(s)
    ensures Distinct(s.plan)
  {
  }

  lemma EffectFresh(s: State, w: OwnerId, key: Key, comment: RemoteComment)
    requires Inv(s, false) && (w, key) in s.inflight && HeldBy(s.tables, w)
    ensures !OnRemote(s.remote, key)
    ensures var s' := s.(remote := s.remote + [Post(w, key, comment)], inflight := s.inflight - {(w, key)});
      NoDuplicates(s'.remote) && Exclusive(s', w, s.workers[w])
  {
    hide TablesOk, PcOk, SnapshotOk, FoundOk, Accounting, Bookkeeping;
    var me := s.workers[w];
    var remote' := s.remote + [Post(w, key, comment)];
    assert RequestsUnposted(s.inflight, s.remote, w);
    PlanDistinct(s);
    forall k | k != key && !OnRemote(s.remote, k) ensures !OnRemote(remote', k) {}
    var n := Issued(me.pc, |s.plan|);
    assert PlannedBefore(s.plan, key, n);
    var i :| 0 <= i < n && i < |s.plan| && s.plan[i] == key;
    assert forall j :: n <= j < |s.plan| ==> s.plan[j] != key;
  }

  lemma EffectTables(s: State, s': State)
    requires TablesOk(s) && s'.tables == s.tables && s'.plan == s.plan && s'.workers == s.workers && s.remote <= s'.remote
    ensures TablesOk(s')
  {
    forall k | k in s.tables.rows && s.tables.rows[k].state == Succeeded
      ensures CommentOnRemote(s'.remote, k, s.tables.rows[k].remote.value)
    {
      RemoteGrows(s.remote, s'.remote, k, s.tables.rows[k].remote.value);
    }
  }

  lemma EffectKeeps(s: State, w: OwnerId, key: Key, comment: RemoteComment, late: bool)
    requires Inv(s, late)
    ensures Inv(EffectStep(s, w, key, comment, late), late)
    ensures Frame(s, EffectStep(s, w, key, comment, late), w, late)
  {
    var s' := EffectStep(s, w, key, comment, late);
    if s' != s {
      var me := s.workers[w];
      if !late { EffectFresh(s, w, key, comment); }
      EffectTables(s, s');
      RemoteGrowsUnder(s.plan, s.remote, s'.remote, me);
      assert RequestsOk(s'.inflight, s'.plan, w, Issued(me.pc, |s.plan|));
      StepKeeps(s, s', w, late);
    }
  }

  // ----- the lease -------------------------------------------------------------------

  lemma BeginKeeps(s: State, w: OwnerId, late: bool)
    requires Inv(s, late)
    ensures Inv(BeginStep(s, w), late) && Frame(s, BeginStep(s, w), w, late)
  {
    hide PcOk, SnapshotOk, FoundOk, Bookkeeping, Accounted, RequestsUnposted, RestUnposted, Distinct, NoDuplicates;
    NothingYet(s, w);
    var s' := BeginStep(s, w);
    if w !in s.workers {
      assert forall k :: (w, k) !in s.inflight;
      StepKeeps(s, s', w, late);
    }
  }

  lemma NothingYet(s: State, w: OwnerId)
    ensures SnapshotOk(s.tables.rows, map[]) && FoundOk(s.remote, map[])
    ensures PcOk(s.plan, s.remote, map[], map[], Snapshot) && PcOk(s.plan, s.remote, map[], map[], Done(NotAcquired))
    ensures (forall k :: (w, k) !in s.inflight) ==> RequestsUnposted(s.inflight, s.remote, w)
  {
  }

  lemma ReadResultKeeps(s: State, w: OwnerId, late: bool)
    requires Inv(s, late) && s.plan != [] && w in s.workers && s.workers[w].pc == ReadResult
    ensures Inv(ReadResultStep(s, w), late) && Frame(s, ReadResultStep(s, w), w, late)
  {
    hide Inv, Frame, TablesOk, SnapshotOk, FoundOk, RequestsOk, Exclusive, Bookkeeping, Accounted, ReadItems;
    InvWorker(s, w, late);
    var s' := ReadResultStep(s, w);
    var me := s.workers[w];
    if HeldBy(s.tables, w) {
      ResultAccounted(s.plan, s.tables.rows, me.remaining, me.created, me.skipped);
    }
    AdvanceKeeps(s, w, s'.workers[w].pc, late);
  }

  lemma ResultAccounted(plan: seq<Key>, rows: map<Key, Row>, remaining: map<Key, Row>, created: nat, skipped: nat)
    requires plan != [] && Bookkeeping(plan, rows, remaining, created + skipped, |plan|)
    ensures Accounted(Finish(ReadItems(plan, rows), created, skipped), |plan|)
  {
    var items := ReadItems(plan, rows);
    assert !SomeIn(items, Pending);
    FinishAccounted(items, created, skipped);
  }

  lemma ReleaseKeeps(s: State, w: OwnerId, late: bool)
    requires Inv(s, late) && w in s.workers && s.workers[w].pc.Release?
    ensures var s' := ReleaseStep(s, w, s.workers[w].pc.outcome); Inv(s', late) && Frame(s, s', w, late)
  {
    hide Inv, PcOk, SnapshotOk, FoundOk, RequestsOk, Bookkeeping, Accounted, Distinct, NoDuplicates;
    InvWorker(s, w, late);
    PcOkAnyway(s.plan, s.remote, s.workers[w].remaining, s.workers[w].found, Done(s.workers[w].pc.outcome));
    var s' := ReleaseStep(s, w, s.workers[w].pc.outcome);
    StepKeeps(s, s', w, late);
  }

  lemma VerifyKeeps(s: State, w: OwnerId, a: Answer, late: bool)
    requires Inv(s, late) && w in s.workers && s.workers[w].pc == VerifyTarget
    ensures Inv(VerifyStep(s, w, a), late) && Frame(s, VerifyStep(s, w, a), w, late)
  {
    hide Inv, Frame, SnapshotOk, FoundOk, RequestsOk, RequestsUnposted, Bookkeeping, TablesOk, NoDuplicates, OnRemote;
    InvWorker(s, w, late);
    var s' := VerifyStep(s, w, a);
    if s' != s { AdvanceKeeps(s, w, s'.workers[w].pc, late); } else { StutterKeeps(s, w, late); }
  }

  lemma ScanKeeps(s: State, w: OwnerId, i: nat, a: Answer, late: bool)
    requires Inv(s, late) && w in s.workers && s.workers[w].pc == Scan(i)
    ensures Inv(ScanStep(s, w, i, a), late) && Frame(s, ScanStep(s, w, i, a), w, late)
  {
    hide Inv, Frame, SnapshotOk, FoundOk, RequestsOk, RequestsUnposted, Bookkeeping, TablesOk, NoDuplicates, OnRemote;
    InvWorker(s, w, late);
    var s' := ScanStep(s, w, i, a);
    if s' != s { AdvanceKeeps(s, w, s'.workers[w].pc, late); } else { StutterKeeps(s, w, late); }
  }

  lemma ActKeeps(s: State, w: OwnerId, a: Answer, late: bool)
    requires Inv(s, late) && s.plan != [] && w in s.workers
    ensures Inv(ActStep(s, w, a), late) && Frame(s, ActStep(s, w, a), w, late)
  {
    hide Inv, Frame, SnapshotStep, RenewStep, VerifyStep, SearchStep, ItemStep, ScanStep, CreateStep, AwaitStep,
         WriteStep, FailStep, ReadResultStep, ReleaseStep, SnapshotOk, RequestsOk, Exclusive, Accounting, TablesOk, FoundOk;
    InvWorker(s, w, late);
    var me := s.workers[w];
    match me.pc
    case Snapshot => SnapshotKeeps(s, w, late);
    case RenewForTarget => RenewKeeps(s, w, VerifyTarget, late);
    case VerifyTarget => VerifyKeeps(s, w, a, late);
    case RenewForSearch => RenewKeeps(s, w, Search, late);
    case Search => SearchKeeps(s, w, a, late);
    case Item(i) => ItemKeeps(s, w, i, late);
    case Scan(i) => ScanKeeps(s, w, i, a, late);
    case Create(i) => CreateKeeps(s, w, i, late);
    case Await(i) => AwaitKeeps(s, w, i, a, late);
    case Write(i, write) =>
      WriteKeeps(s, w, i, write,
        me.(pc := Item(i + 1), created := me.created + (if write.state == Succeeded then 1 else 0)), late);
    case FailItem(i, failure, preserve) => FailKeeps(s, w, i, failure, preserve, late);
    case ReadResult => ReadResultKeeps(s, w, late);
    case Release(_) => ReleaseKeeps(s, w, late);
    case Done(_) => StutterKeeps(s, w, late);
  }

  lemma StutterKeeps(s: State, w: OwnerId, late: bool)
    ensures Frame(s, s, w, late)
  {
  }

  function Actor(e: Event): OwnerId {
    match e
    case Tick(_) => 0
    case Begin(w) => w
    case Act(w, _) => w
    case Effect(w, _, _) => w
    case Crash(w) => w
  }

  lemma EventKeeps(s: State, e: Event, late: bool)
    requires Inv(s, late) && s.plan != []
    ensures Inv(Step(s, e, late), late) && Frame(s, Step(s, e, late), Actor(e), late)
  {
    match e
    case Tick(_) => StepKeeps(s, Step(s, e, late), 0, late);
    case Begin(w) => BeginKeeps(s, w, late);
    case Act(w, a) => if w in s.workers { ActKeeps(s, w, a, late); }
    case Effect(w, key, comment) => EffectKeeps(s, w, key, comment, late);
    case Crash(w) =>
      if Step(s, e, late) != s { AdvanceKeeps(s, w, Done(Crashed), late); }
  }
}
