/** What the answers a call is given mean for it, on every run: which requests may leave,
    what its rows say, and what its outcome reports. */
module PublicationVerdicts {
  import opened Wrappers
  import opened PublicationTables
  import opened PublicationProtocol
  import opened PublicationSafety
  import opened PublicationAnswers
  import PublicationTheorems

  // ----- a call only goes forward --------------------------------------------------------

  /** The places of a call in the order they are passed. */
  function Rank(pc: Pc, n: nat): nat {
    match pc
    case Snapshot => 0
    case RenewForTarget => 1
    case VerifyTarget => 2
    case RenewForSearch => 3
    case Search => 4
    case Item(i) => 5 * i + 5
    case Scan(i) => 5 * i + 6
    case Create(i) => 5 * i + 7
    case Await(i) => 5 * i + 8
    case Write(i, _) => 5 * i + 9
    case FailItem(i, _, _) => 5 * n + 10 + i
    case ReadResult => 6 * n + 11
    case Release(_) => 6 * n + 12
    case Done(_) => 6 * n + 13
  }

  ghost predicate Forward(s: State, s': State, w: OwnerId) {
    w in s.workers ==>
      w in s'.workers && (s'.workers[w].pc == s.workers[w].pc || Rank(s.workers[w].pc, |s.plan|) < Rank(s'.workers[w].pc, |s.plan|))
  }

  /** Places with an index are in the plan, or at its end. */
  predicate Placed(pc: Pc, n: nat) {
    match pc
    case Item(i) => i <= n
    case Scan(i) => i < n
    case Create(i) => i < n
    case Await(i) => i < n
    case Write(i, _) => i < n
    case FailItem(i, _, _) => i <= n
    case _ => true
  }

  lemma PlacedInRun(s: State, w: OwnerId, late: bool)
    requires Inv(s, late) && w in s.workers
    ensures Placed(s.workers[w].pc, |s.plan|)
  {
    hide Inv, SnapshotOk, FoundOk, RequestsOk, Exclusive, Accounting, TablesOk, NoDuplicates, WriteOk;
    InvWorker(s, w, late);
  }

  lemma ActForward(s: State, w: OwnerId, a: Answer)
    requires w in s.workers && Placed(s.workers[w].pc, |s.plan|)
    ensures Forward(s, ActStep(s, w, a), w)
  {
    hide SnapshotStep, RenewStep, VerifyStep, SearchStep, ItemStep, ScanStep, AwaitStep, OutcomeStep, FailStep, Forward;
    match s.workers[w].pc
    case Snapshot => SnapshotForward(s, w);
    case RenewForTarget => RenewForward(s, w, VerifyTarget);
    case RenewForSearch => RenewForward(s, w, Search);
    case Item(i) => ItemForward(s, w, i);
    case Write(i, write) => OutcomeForward(s, w, i, write);
    case FailItem(i, failure, preserve) => FailForward(s, w, i, failure, preserve);
    case VerifyTarget => VerifyForward(s, w, a);
    case Search => SearchForward(s, w, a);
    case Scan(i) => ScanForward(s, w, i, a);
    case Await(i) => AwaitForward(s, w, i, a);
    case _ => RestForward(s, w, a);
  }

  lemma VerifyForward(s: State, w: OwnerId, a: Answer)
    requires w in s.workers && s.workers[w].pc == VerifyTarget
    ensures Forward(s, VerifyStep(s, w, a), w)
  {
  }

  lemma SearchForward(s: State, w: OwnerId, a: Answer)
    requires w in s.workers && s.workers[w].pc == Search
    ensures Forward(s, SearchStep(s, w, a), w)
  {
  }

  lemma ScanForward(s: State, w: OwnerId, i: nat, a: Answer)
    requires w in s.workers && s.workers[w].pc == Scan(i)
    ensures Forward(s, ScanStep(s, w, i, a), w)
  {
  }

  lemma AwaitForward(s: State, w: OwnerId, i: nat, a: Answer)
    requires w in s.workers && s.workers[w].pc == Await(i) && i < |s.plan|
    ensures Forward(s, AwaitStep(s, w, i, a), w)
  {
  }

  lemma RestForward(s: State, w: OwnerId, a: Answer)
    requires w in s.workers
    requires var pc := s.workers[w].pc; pc.Create? || pc.ReadResult? || pc.Release? || pc.Done?
    ensures Forward(s, ActStep(s, w, a), w)
  {
    hide Finish, ReadItems;
  }

  lemma SnapshotForward(s: State, w: OwnerId)
    requires w in s.workers && s.workers[w].pc == Snapshot
    ensures Forward(s, SnapshotStep(s, w), w)
  {
    hide RemainingItems, Finish;
  }

  lemma RenewForward(s: State, w: OwnerId, next: Pc)
    requires w in s.workers && Rank(s.workers[w].pc, |s.plan|) < Rank(next, |s.plan|)
    requires Rank(s.workers[w].pc, |s.plan|) < 6 * |s.plan| + 12
    ensures Forward(s, RenewStep(s, w, next), w)
  {
  }

  lemma ItemForward(s: State, w: OwnerId, i: nat)
    requires w in s.workers && s.workers[w].pc == Item(i) && i <= |s.plan|
    ensures Forward(s, ItemStep(s, w, i), w)
  {
    hide RenewStep;
    if i < |s.plan| { RenewForward(s, w, Scan(i)); }
  }

  lemma OutcomeForward(s: State, w: OwnerId, i: nat, write: ItemWrite)
    requires w in s.workers && s.workers[w].pc == Write(i, write) && i < |s.plan|
    ensures Forward(s, OutcomeStep(s, w, i, write), w)
  {
  }

  lemma FailForward(s: State, w: OwnerId, i: nat, failure: ItemWrite, preserve: bool)
    requires w in s.workers && s.workers[w].pc == FailItem(i, failure, preserve) && i <= |s.plan|
    ensures Forward(s, FailStep(s, w, i, failure, preserve), w)
  {
  }

  lemma StepForward(s: State, e: Event, late: bool, w: OwnerId)
    requires Inv(s, late) && s.plan != []
    ensures Forward(s, Step(s, e, late), w)
  {
    hide Inv, ActStep, BeginStep, EffectStep, Rank;
    if w in s.workers {
      EventKeeps(s, e, late);
      match e
      case Begin(x) => if x == w { BeginAgain(s, w); }
      case Act(x, a) => if x == w { PlacedInRun(s, w, late); ActForward(s, w, a); }
      case Effect(x, key, c) => EffectTablesSame(s, x, key, c, late);
      case Crash(x) => if x == w && !s.workers[w].pc.Done? { PlacedInRun(s, w, late); CrashForward(s, w); }
      case _ =>
    }
  }

  lemma CrashForward(s: State, w: OwnerId)
    requires w in s.workers && !s.workers[w].pc.Done? && Placed(s.workers[w].pc, |s.plan|)
    ensures Forward(s, Goto(s, w, Done(Crashed)), w)
  {
  }

  lemma {:induction false} RunForward(s: State, events: seq<Event>, late: bool, w: OwnerId)
    requires Inv(s, late) && s.plan != [] && w in s.workers
    ensures w in Run(s, events, late).workers
    ensures Rank(s.workers[w].pc, |s.plan|) <= Rank(Run(s, events, late).workers[w].pc, |s.plan|)
  {
    hide Inv, Step, Rank;
    if events != [] {
      var init := events[..|events| - 1];
      RunForward(s, init, late, w);
      PublicationTheorems.RunInv(s, init, late);
      StepForward(Run(s, init, late), events[|events| - 1], late, w);
    }
  }

  /** The states of a run, by position: `|events|` is its end. */
  function StateAt(plan: seq<Key>, events: seq<Event>, late: bool, n: nat): State
    requires n <= |events|
  {
    Run(Init(plan), events[..n], late)
  }

  lemma StateNext(plan: seq<Key>, events: seq<Event>, late: bool, n: nat)
    requires n < |events|
    ensures StateAt(plan, events, late, n + 1) == Step(StateAt(plan, events, late, n), events[n], late)
  {
    assert events[..n + 1][..n] == events[..n];
  }

  lemma StateInv(plan: seq<Key>, events: seq<Event>, late: bool, n: nat)
    requires Distinct(plan) && plan != [] && n <= |events|
    ensures Inv(StateAt(plan, events, late, n), late) && StateAt(plan, events, late, n).plan == plan
  {
    PublicationTheorems.InitInv(plan, late);
    PublicationTheorems.RunInv(Init(plan), events[..n], late);
  }

  /** From any point of a run on, a call is where it was or further on. */
  lemma OnwardFrom(plan: seq<Key>, events: seq<Event>, late: bool, p: nat, q: nat, w: OwnerId)
    requires Distinct(plan) && plan != [] && p <= q <= |events| && w in StateAt(plan, events, late, p).workers
    ensures w in StateAt(plan, events, late, q).workers
    ensures Rank(StateAt(plan, events, late, p).workers[w].pc, |plan|) <= Rank(StateAt(plan, events, late, q).workers[w].pc, |plan|)
  {
    hide Inv, Rank;
    StateInv(plan, events, late, p);
    PublicationTheorems.RunAppend(Init(plan), events[..p], events[p..q], late);
    assert events[..p] + events[p..q] == events[..q];
    RunForward(StateAt(plan, events, late, p), events[p..q], late, w);
  }

  // ----- each answer is taken once -----------------------------------------------------------

  ghost predicate ActsAt(plan: seq<Key>, events: seq<Event>, late: bool, n: nat, w: OwnerId, pc: Pc) {
    n < |events| && Acts(Trace(Init(plan), events, late)[n], w, pc)
  }

  /** The call leaves `pc` at moment `n`. */
  ghost predicate Leaves(plan: seq<Key>, events: seq<Event>, late: bool, n: nat, w: OwnerId) {
    && n < |events| && w in StateAt(plan, events, late, n).workers
    && w in StateAt(plan, events, late, n + 1).workers
    && StateAt(plan, events, late, n + 1).workers[w].pc != StateAt(plan, events, late, n).workers[w].pc
  }

  lemma ActsInState(plan: seq<Key>, events: seq<Event>, late: bool, n: nat, w: OwnerId, pc: Pc)
    requires ActsAt(plan, events, late, n, w, pc)
    ensures var s := StateAt(plan, events, late, n);
      && w in s.workers && s.workers[w].pc == pc && events[n].Act? && events[n].w == w
      && StateAt(plan, events, late, n + 1) == ActStep(s, w, events[n].answer)
      && Trace(Init(plan), events, late)[n] == Moment(s, events[n])
  {
    hide ActStep;
    TraceAt(Init(plan), events, late, n);
    StateNext(plan, events, late, n);
  }

  /** A place that was left is behind the call: what it does later it does further on. */
  lemma Behind(plan: seq<Key>, events: seq<Event>, late: bool, p: nat, q: nat, w: OwnerId, pc: Pc, pc': Pc)
    requires Distinct(plan) && plan != [] && p < q && Leaves(plan, events, late, p, w)
    requires ActsAt(plan, events, late, p, w, pc) && ActsAt(plan, events, late, q, w, pc')
    ensures Rank(pc, |plan|) < Rank(StateAt(plan, events, late, p + 1).workers[w].pc, |plan|) <= Rank(pc', |plan|)
  {
    hide Inv, Rank, ActStep, StateAt, Step;
    ActsInState(plan, events, late, p, w, pc);
    ActsInState(plan, events, late, q, w, pc');
    StateInv(plan, events, late, p);
    StateNext(plan, events, late, p);
    StepForward(StateAt(plan, events, late, p), events[p], late, w);
    OnwardFrom(plan, events, late, p + 1, q, w);
  }

  /** Where an answer that decides leads: past everything that could decide the same item. */
  lemma AnswerMoves(s: State, w: OwnerId, a: Answer, i: nat, write: ItemWrite)
    requires Decides(Moment(s, Act(w, a)), w, i, write) && i < |s.plan|
    ensures var s' := ActStep(s, w, a);
      && w in s'.workers && s'.workers[w].pc != s.workers[w].pc
      && (Refuses(Moment(s, Act(w, a)), w, write) ==> s'.workers[w].pc == FailItem(0, write, s.workers[w].pc == Search))
      && (s.workers[w].pc == Search && a == SearchComplete ==> s'.workers[w].pc == Item(0))
      && (s.workers[w].pc.Scan? || s.workers[w].pc.Await? ==> s'.workers[w].pc == Write(i, write))
  {
    hide LastComment;
  }

  /** The answer that clears a place on the way to a request moves the call as well. */
  lemma ClearanceMoves(s: State, w: OwnerId, a: Answer)
    requires w in s.workers
    requires
      || (s.workers[w].pc == VerifyTarget && a == Target(true, true))
      || (s.workers[w].pc == Search && a == SearchComplete)
      || (s.workers[w].pc.Scan? && a == ScanPassed)
    ensures w in ActStep(s, w, a).workers && ActStep(s, w, a).workers[w].pc != s.workers[w].pc
  {
  }

  lemma TraceMember(plan: seq<Key>, events: seq<Event>, late: bool, m: Moment) returns (n: nat)
    requires m in Trace(Init(plan), events, late)
    ensures n < |events| && m == Trace(Init(plan), events, late)[n]
    ensures m == Moment(StateAt(plan, events, late, n), events[n])
  {
    n :| n < |events| && m == Trace(Init(plan), events, late)[n];
    TraceAt(Init(plan), events, late, n);
  }

  lemma TracePrefix(plan: seq<Key>, events: seq<Event>, late: bool, n: nat, m: Moment) returns (k: nat)
    requires n <= |events| && m in Trace(Init(plan), events[..n], late)
    ensures k < n && m == Trace(Init(plan), events, late)[k] && m == Moment(StateAt(plan, events, late, k), events[k])
  {
    k := TraceMember(plan, events[..n], late, m);
    assert events[..n][..k] == events[..k];
    TraceAt(Init(plan), events, late, k);
  }

  lemma KnownAt(plan: seq<Key>, events: seq<Event>, late: bool, n: nat)
    requires Distinct(plan) && plan != [] && n <= |events|
    ensures Known(Trace(Init(plan), events[..n], late), StateAt(plan, events, late, n))
    ensures Inv(StateAt(plan, events, late, n), late) && StateAt(plan, events, late, n).plan == plan
  {
    RunKnown(plan, events[..n], late);
  }

  /** Two moments at which the call leaves the same place are one. */
  lemma LeftOnce(plan: seq<Key>, events: seq<Event>, late: bool, p: nat, q: nat, w: OwnerId, pc: Pc)
    requires Distinct(plan) && plan != []
    requires ActsAt(plan, events, late, p, w, pc) && Leaves(plan, events, late, p, w)
    requires ActsAt(plan, events, late, q, w, pc) && Leaves(plan, events, late, q, w)
    ensures p == q
  {
    hide Rank, ActsAt, Leaves;
    if p < q { Behind(plan, events, late, p, q, w, pc, pc); }
    if q < p { Behind(plan, events, late, q, p, w, pc, pc); }
  }

  /** An answer at `n` that moves the call: it acts and leaves there. */
  lemma MovesAt(plan: seq<Key>, events: seq<Event>, late: bool, n: nat, w: OwnerId)
    requires n < |events| && events[n].Act? && events[n].w == w && w in StateAt(plan, events, late, n).workers
    requires var s := StateAt(plan, events, late, n);
      w in ActStep(s, w, events[n].answer).workers && ActStep(s, w, events[n].answer).workers[w].pc != s.workers[w].pc
    ensures Leaves(plan, events, late, n, w)
    ensures ActsAt(plan, events, late, n, w, StateAt(plan, events, late, n).workers[w].pc)
    ensures StateAt(plan, events, late, n + 1) == ActStep(StateAt(plan, events, late, n), w, events[n].answer)
  {
    hide ActStep;
    TraceAt(Init(plan), events, late, n);
    StateNext(plan, events, late, n);
  }

  /** An item the search found is not scanned. */
  lemma FoundIsNotScanned(plan: seq<Key>, events: seq<Event>, late: bool, p: nat, q: nat, w: OwnerId, i: nat, pc: Pc)
    requires Distinct(plan) && plan != [] && i < |plan|
    requires ActsAt(plan, events, late, p, w, Search) && events[p] == Act(w, SearchComplete)
    requires ActsAt(plan, events, late, q, w, pc) && (pc == Scan(i) || pc == Await(i))
    ensures !OnRemote(StateAt(plan, events, late, p).remote, plan[i])
  {
    hide Inv, Rank, ActStep, StateAt, OnRemote, Started, Read, Created, RowsExplained, Hears, Skips, Timed, RenewedAt, LastComment;
    ActsInState(plan, events, late, p, w, Search);
    ActsInState(plan, events, late, q, w, pc);
    KnownAt(plan, events, late, q);
    var s := StateAt(plan, events, late, q);
    var me := s.workers[w];
    ScannedIsMissing(s, w, late);
    var tr := Trace(Init(plan), events[..q], late);
    assert WorkerKnown(tr, s, w);
    var m :| m in tr && Acts(m, w, Search) && m.event.answer == SearchComplete && FoundThere(m.state.remote, me.remaining, me.found);
    var k := TracePrefix(plan, events, late, q, m);
    ClearanceMoves(StateAt(plan, events, late, p), w, SearchComplete);
    ClearanceMoves(m.state, w, SearchComplete);
    MovesAt(plan, events, late, p, w);
    MovesAt(plan, events, late, k, w);
    LeftOnce(plan, events, late, p, k, w, Search);
  }

  lemma ScannedIsMissing(s: State, w: OwnerId, late: bool)
    requires Inv(s, late) && w in s.workers && (s.workers[w].pc.Scan? || s.workers[w].pc.Await?)
    ensures var me := s.workers[w]; me.pc.i < |s.plan| && s.plan[me.pc.i] in me.remaining && s.plan[me.pc.i] !in me.found
  {
    hide Inv, SnapshotOk, FoundOk, RequestsOk, Exclusive, Accounting, TablesOk, NoDuplicates, WriteOk;
    InvWorker(s, w, late);
  }

  ghost predicate DecidesAt(plan: seq<Key>, events: seq<Event>, late: bool, n: nat, w: OwnerId, i: nat, write: ItemWrite) {
    n < |events| && Decides(Trace(Init(plan), events, late)[n], w, i, write)
  }

  /** A decision is taken at one of these places, and leads on from there. */
  lemma DecisionMoves(plan: seq<Key>, events: seq<Event>, late: bool, n: nat, w: OwnerId, i: nat, write: ItemWrite) returns (pc: Pc)
    requires Distinct(plan) && plan != [] && i < |plan| && DecidesAt(plan, events, late, n, w, i, write)
    ensures ActsAt(plan, events, late, n, w, pc) && Leaves(plan, events, late, n, w)
    ensures pc == VerifyTarget || pc == Search || pc == Scan(i) || pc == Await(i)
    ensures var next := StateAt(plan, events, late, n + 1).workers[w].pc;
      if pc == Search && events[n] == Act(w, SearchComplete)
      then next == Item(0) && OnRemote(StateAt(plan, events, late, n).remote, plan[i])
      else next == FailItem(0, write, pc == Search) || (next == Write(i, write) && !pc.VerifyTarget? && !pc.Search?)
  {
    hide Inv, ActStep, StateAt;
    TraceAtState(plan, events, late, n);
    StateInv(plan, events, late, n);
    var s := StateAt(plan, events, late, n);
    pc := s.workers[w].pc;
    AnswerMoves(s, w, events[n].answer, i, write);
    MovesAt(plan, events, late, n, w);
  }

  lemma TraceAtState(plan: seq<Key>, events: seq<Event>, late: bool, n: nat)
    requires n < |events|
    ensures Trace(Init(plan), events, late)[n] == Moment(StateAt(plan, events, late, n), events[n])
  {
    TraceAt(Init(plan), events, late, n);
  }

  lemma DecidedBefore(plan: seq<Key>, events: seq<Event>, late: bool, p: nat, q: nat, w: OwnerId, i: nat, x: ItemWrite, y: ItemWrite)
    requires Distinct(plan) && plan != [] && i < |plan|
    requires DecidesAt(plan, events, late, p, w, i, x) && DecidesAt(plan, events, late, q, w, i, y)
    ensures !(p < q)
  {
    hide Decides, Acts, Leaves, StateAt, OnRemote;
    if p < q {
      var pc := DecisionMoves(plan, events, late, p, w, i, x);
      var pc' := DecisionMoves(plan, events, late, q, w, i, y);
      Behind(plan, events, late, p, q, w, pc, pc');
      if pc == Search && events[p] == Act(w, SearchComplete) {
        FoundIsNotScanned(plan, events, late, p, q, w, i, pc');
      }
    }
  }

  lemma LastIsUnique(remote: seq<Post>, key: Key, c: RemoteComment, d: RemoteComment)
    requires LastComment(remote, key, c) && LastComment(remote, key, d)
    ensures c == d
  {
  }

  lemma SameDecision(m: Moment, w: OwnerId, i: nat, x: ItemWrite, y: ItemWrite)
    requires Decides(m, w, i, x) && Decides(m, w, i, y)
    ensures x == y
  {
    hide LastComment;
    if m.event.answer == SearchComplete {
      LastIsUnique(m.state.remote, m.state.plan[i], x.remote.value, y.remote.value);
    }
  }

  /** What a call may write to an item is decided at no more than one moment of the run, and
      there it is one write. */
  lemma DecidedAtMostOnce(plan: seq<Key>, events: seq<Event>, late: bool, p: nat, q: nat, w: OwnerId, i: nat, x: ItemWrite, y: ItemWrite)
    requires Distinct(plan) && plan != [] && i < |plan|
    requires p < |events| && Decides(Trace(Init(plan), events, late)[p], w, i, x)
    requires q < |events| && Decides(Trace(Init(plan), events, late)[q], w, i, y)
    ensures p == q && x == y
  {
    hide Decides;
    DecidedBefore(plan, events, late, p, q, w, i, x, y);
    DecidedBefore(plan, events, late, q, p, w, i, y, x);
    SameDecision(Trace(Init(plan), events, late)[p], w, i, x, y);
  }

  // ----- the theorems --------------------------------------------------------------------------

  /** Every request under way and every comment on the remote was cleared: the call that sent
      it had read its item as unfinished, was told that the target is open and unchanged, had
      a complete search that did not find the marker, renewed its lease for the item, and was
      told that the content passed the scanner. */
  lemma RequestsAreCleared(plan: seq<Key>, events: seq<Event>, late: bool, w: OwnerId, key: Key)
    requires Distinct(plan) && plan != []
    requires var s := Run(Init(plan), events, late);
      (w, key) in s.inflight || exists c :: Post(w, key, c) in s.remote
    ensures Cleared(Trace(Init(plan), events, late), plan, w, key)
  {
    hide Inv, WorkerKnown, Cleared;
    RunKnown(plan, events, late);
    var s := Run(Init(plan), events, late);
    if (w, key) !in s.inflight {
      var c :| Post(w, key, c) in s.remote;
      var j :| 0 <= j < |s.remote| && s.remote[j] == Post(w, key, c);
      assert Cleared(Trace(Init(plan), events, late), plan, s.remote[j].owner, s.remote[j].key);
    }
  }

  /** A row that carries the token of a call says what one moment of the call decided, of an
      item the call had read as unfinished, and has the version after the one it read. */
  lemma RowsAreDecided(plan: seq<Key>, events: seq<Event>, late: bool, w: OwnerId, key: Key)
    requires Distinct(plan) && plan != []
    requires var s := Run(Init(plan), events, late);
      w in s.workers && key in s.tables.rows && s.tables.rows[key].token == s.workers[w].token != 0
    ensures RowExplained(Trace(Init(plan), events, late), plan, w, key, Run(Init(plan), events, late).tables.rows[key])
  {
    hide Inv, RowExplained, Started, Read, Created, Course, Timed;
    RunKnown(plan, events, late);
    var s := Run(Init(plan), events, late);
    assert WorkerKnown(Trace(Init(plan), events, late), s, w);
  }

  /** Once an answer has decided an item, at every later point a row of the call for it is
      exactly that. */
  lemma RowIsWhatWasDecided(plan: seq<Key>, events: seq<Event>, late: bool, p: nat, w: OwnerId, i: nat, write: ItemWrite)
    requires Distinct(plan) && plan != [] && i < |plan|
    requires p < |events| && Decides(Trace(Init(plan), events, late)[p], w, i, write)
    requires var s := Run(Init(plan), events, late);
      w in s.workers && plan[i] in s.tables.rows && s.tables.rows[plan[i]].token == s.workers[w].token != 0
    ensures var row := Run(Init(plan), events, late).tables.rows[plan[i]];
      ItemWrite(row.state, row.remote, row.error) == write
  {
    hide Decides, Run;
    var tr, row := Trace(Init(plan), events, late), Run(Init(plan), events, late).tables.rows[plan[i]];
    RowsAreDecided(plan, events, late, w, plan[i]);
    var j :| 0 <= j < |plan| && plan[j] == plan[i] && RowDecided(tr, w, j, plan[i], row);
    assert j == i;
    var m, r :| m in tr && r in tr && Decides(m, w, i, ItemWrite(row.state, row.remote, row.error));
    var q :| 0 <= q < |tr| && tr[q] == m;
    DecidedAtMostOnce(plan, events, late, p, q, w, i, write, ItemWrite(row.state, row.remote, row.error));
  }

  /** Content the scanner rejects is never posted: at every later point the call has no
      request for the item and no comment under its marker, and its row, if it has written
      one, is failed as rejected. */
  lemma RejectedIsNeverPosted(plan: seq<Key>, events: seq<Event>, late: bool, p: nat, w: OwnerId, i: nat)
    requires Distinct(plan) && plan != [] && i < |plan|
    requires p < |events| && events[p] == Act(w, ScanRejected)
    requires var s := Run(Init(plan), events[..p], late); w in s.workers && s.workers[w].pc == Scan(i)
    ensures var s := Run(Init(plan), events, late);
      && (w, plan[i]) !in s.inflight
      && (forall c :: Post(w, plan[i], c) !in s.remote)
      && (w in s.workers && plan[i] in s.tables.rows && s.tables.rows[plan[i]].token == s.workers[w].token != 0 ==>
            var row := s.tables.rows[plan[i]];
            row.state == Failed && row.remote == None && row.error == Some("publication_content_rejected"))
  {
    hide Inv, ActStep, Run;
    var tr, s := Trace(Init(plan), events, late), Run(Init(plan), events, late);
    var write := ItemWrite(Failed, None, Some("publication_content_rejected"));
    TraceAt(Init(plan), events, late, p);
    assert Settles(tr[p], w, i, write);
    if w in s.workers && plan[i] in s.tables.rows && s.tables.rows[plan[i]].token == s.workers[w].token != 0 {
      RowIsWhatWasDecided(plan, events, late, p, w, i, write);
    }
    if (w, plan[i]) in s.inflight || exists c :: Post(w, plan[i], c) in s.remote {
      RequestsAreCleared(plan, events, late, w, plan[i]);
      PassedNotRejected(plan, events, late, p, w, i);
    }
  }

  lemma PassedNotRejected(plan: seq<Key>, events: seq<Event>, late: bool, p: nat, w: OwnerId, i: nat)
    requires Distinct(plan) && plan != [] && i < |plan|
    requires p < |events| && Settles(Trace(Init(plan), events, late)[p], w, i, ItemWrite(Failed, None, Some("publication_content_rejected")))
    requires events[p] == Act(w, ScanRejected) && ActsAt(plan, events, late, p, w, Scan(i))
    ensures !Cleared(Trace(Init(plan), events, late), plan, w, plan[i])
  {
    hide Inv, ActStep, StateAt, Settles, Leaves, Refuses, UnfinishedWhenRead, MissedBySearch, RenewedAt;
    var tr := Trace(Init(plan), events, late);
    if Cleared(tr, plan, w, plan[i]) {
      var pc := DecisionMoves(plan, events, late, p, w, i, ItemWrite(Failed, None, Some("publication_content_rejected")));
      var m :| m in tr && Acts(m, w, Scan(i)) && m.event.answer == ScanPassed;
      var q := TraceMember(plan, events, late, m);
      ClearanceMoves(StateAt(plan, events, late, q), w, ScanPassed);
      MovesAt(plan, events, late, q, w);
      LeftOnce(plan, events, late, p, q, w, Scan(i));
      TraceAtState(plan, events, late, p);
    }
  }

  /** A call whose target check or search refuses it never sends a request, and every row it
      writes says why: closed, changed, or the error it was told. */
  lemma RefusedPostsNothing(plan: seq<Key>, events: seq<Event>, late: bool, p: nat, w: OwnerId, write: ItemWrite, key: Key)
    requires Distinct(plan) && plan != []
    requires p < |events| && Refuses(Trace(Init(plan), events, late)[p], w, write)
    ensures var s := Run(Init(plan), events, late);
      && (w, key) !in s.inflight
      && (forall c :: Post(w, key, c) !in s.remote)
      && (w in s.workers && key in s.tables.rows && s.tables.rows[key].token == s.workers[w].token != 0 ==>
            ItemWrite(s.tables.rows[key].state, s.tables.rows[key].remote, s.tables.rows[key].error) == write)
  {
    hide Inv, ActStep, Run, Refuses, RowDecided;
    var tr, s := Trace(Init(plan), events, late), Run(Init(plan), events, late);
    if w in s.workers && key in s.tables.rows && s.tables.rows[key].token == s.workers[w].token != 0 {
      RowsAreDecided(plan, events, late, w, key);
      var i :| 0 <= i < |plan| && plan[i] == key && RowDecided(tr, w, i, key, s.tables.rows[key]);
      RowIsWhatWasDecided(plan, events, late, p, w, i, write);
    }
    if (w, key) in s.inflight || exists c :: Post(w, key, c) in s.remote {
      RequestsAreCleared(plan, events, late, w, key);
      ClearedNotRefused(plan, events, late, p, w, write, key);
    }
  }

  lemma ClearedNotRefused(plan: seq<Key>, events: seq<Event>, late: bool, p: nat, w: OwnerId, write: ItemWrite, key: Key)
    requires Distinct(plan) && plan != []
    requires p < |events| && Refuses(Trace(Init(plan), events, late)[p], w, write)
    ensures !Cleared(Trace(Init(plan), events, late), plan, w, key)
  {
    hide Inv, StateAt, Leaves, Cleared, Hears, Trace;
    var tr := Trace(Init(plan), events, late);
    if Cleared(tr, plan, w, key) {
      var pc := DecisionMoves(plan, events, late, p, w, 0, write);
      ClearedBy(tr, plan, w, key);
      var a := if pc == VerifyTarget then Target(true, true) else SearchComplete;
      assert Refuses(tr[p], w, write) && Acts(tr[p], w, pc);
      HeardThere(plan, events, late, p, w, pc, a);
      TraceAt(Init(plan), events, late, p);
    }
  }

  lemma ClearedBy(tr: seq<Moment>, plan: seq<Key>, w: OwnerId, key: Key)
    requires Cleared(tr, plan, w, key)
    ensures Hears(tr, w, VerifyTarget, Target(true, true)) && Hears(tr, w, Search, SearchComplete)
  {
    hide UnfinishedWhenRead, RenewedAt, OnRemote;
  }

  /** The target check, or the search, that clears a call is the one it leaves by. */
  lemma HeardThere(plan: seq<Key>, events: seq<Event>, late: bool, p: nat, w: OwnerId, pc: Pc, a: Answer)
    requires Distinct(plan) && plan != [] && Hears(Trace(Init(plan), events, late), w, pc, a)
    requires (pc == VerifyTarget && a == Target(true, true)) || (pc == Search && a == SearchComplete)
    requires ActsAt(plan, events, late, p, w, pc) && Leaves(plan, events, late, p, w)
    ensures events[p] == Act(w, a)
  {
    hide Inv, ActStep, StateAt, Leaves, ActsAt;
    var m :| m in Trace(Init(plan), events, late) && Acts(m, w, pc) && m.event.answer == a;
    var q := TraceMember(plan, events, late, m);
    ClearanceMoves(m.state, w, a);
    MovesAt(plan, events, late, q, w);
    LeftOnce(plan, events, late, p, q, w, pc);
  }

  /** A call stands in front of a port only after it renewed a lease that was its own, and
      if it still has its lease row then the row runs for 600 seconds from that renewal. */
  lemma PortsAreLeased(plan: seq<Key>, events: seq<Event>, late: bool, w: OwnerId)
    requires Distinct(plan) && plan != []
    requires var s := Run(Init(plan), events, late);
      w in s.workers && (var pc := s.workers[w].pc; pc.VerifyTarget? || pc.Search? || pc.Scan? || pc.Create? || pc.Await?)
    ensures var s := Run(Init(plan), events, late);
      var pc := s.workers[w].pc;
      var from := if pc.VerifyTarget? then RenewForTarget else if pc.Search? then RenewForSearch else Item(pc.i);
      && RenewedAt(Trace(Init(plan), events, late), w, from)
      && (HeldBy(s.tables, w) ==>
            exists m :: m in Trace(Init(plan), events, late) && Acts(m, w, from) && Owns(m.state, w)
              && s.tables.lease.value.expires == m.state.now + 600)
  {
    hide Inv, RowsExplained, Started, Read, Created, Skips, Underway, Hears, Run;
    RunKnown(plan, events, late);
    assert WorkerKnown(Trace(Init(plan), events, late), Run(Init(plan), events, late), w);
  }

  /** Every call that has a token got it on a task whose lease was free, as the next one. */
  lemma TokensAreGivenOnFreeLeases(plan: seq<Key>, events: seq<Event>, late: bool, w: OwnerId)
    requires Distinct(plan) && plan != []
    requires w in Run(Init(plan), events, late).workers
    ensures var me := Run(Init(plan), events, late).workers[w];
      || (me.pc == Done(NotAcquired) && me.token == 0)
      || (exists m :: m in Trace(Init(plan), events, late) && Begins(m, w) && !Busy(m.state)
            && me.token == m.state.tables.lastToken + 1)
  {
    hide Inv, RowsExplained, Course, Read, Created, Timed, Run;
    RunKnown(plan, events, late);
    assert WorkerKnown(Trace(Init(plan), events, late), Run(Init(plan), events, late), w);
  }

  /** Behind every outcome is what brought it about: a lease in force elsewhere, a renewal
      or a write for which the lease or the version was lost, a port that raised, a crash,
      or a reading of the rows together with what the call itself did. */
  lemma OutcomesAreExplained(plan: seq<Key>, events: seq<Event>, late: bool, w: OwnerId)
    requires Distinct(plan) && plan != []
    requires w in Run(Init(plan), events, late).workers
    requires var pc := Run(Init(plan), events, late).workers[w].pc; pc.Release? || pc.Done?
    ensures Explained(Trace(Init(plan), events, late), plan, w, Run(Init(plan), events, late).workers[w].pc.outcome)
  {
    hide Inv, RowsExplained, Started, Read, Created, Timed, Run, Explained, Trace, DealtWith,
         Unsearched, Underway, RenewedAt, Hears, Settled, Refused, SkippedExplained, TokensDiffer, RequestsCleared, Confirmed;
    RunKnown(plan, events, late);
    assert WorkerKnown(Trace(Init(plan), events, late), Run(Init(plan), events, late), w);
  }

  /** When a call returns a result with the lease row still its own, it has left no item out:
      each had succeeded when the call read it, or carries the token of the call, or was
      unknown and spared by a failed search. */
  lemma NoItemIsLeftOut(plan: seq<Key>, events: seq<Event>, late: bool, w: OwnerId)
    requires Distinct(plan) && plan != []
    requires var s := Run(Init(plan), events, late);
      w in s.workers && s.workers[w].pc.Release? && s.workers[w].pc.outcome.Returned? && HeldBy(s.tables, w)
    ensures var s := Run(Init(plan), events, late);
      AllDealt(Trace(Init(plan), events, late), plan, s.tables.rows, w, s.workers[w].token)
  {
    hide Inv, RowsExplained, Started, Read, Created, Course, Timed, AllDealt, Run;
    RunKnown(plan, events, late);
    assert WorkerKnown(Trace(Init(plan), events, late), Run(Init(plan), events, late), w);
  }

  // ----- what a result reports ---------------------------------------------------------------------

  function Having(items: seq<Row>, state: ItemState): set<nat> {
    set i: nat | i < |items| && items[i].state == state
  }

  lemma {:induction false} CountIsSize(items: seq<Row>, state: ItemState)
    ensures Count(items, state) == |Having(items, state)|
  {
    if items == [] {
      assert Having(items, state) == {};
    } else {
      var init, last := items[..|items| - 1], items[|items| - 1];
      assert items == init + [last];
      CountIsSize(init, state);
      HavingNext(init, last, state);
    }
  }

  lemma HavingNext(init: seq<Row>, last: Row, state: ItemState)
    ensures |Having(init + [last], state)| == |Having(init, state)| + (if last.state == state then 1 else 0)
  {
    var items, n := init + [last], |init|;
    forall i: nat ensures i in Having(items, state) <==> i in Having(init, state) || (i == n && last.state == state) {
      if i < n { assert items[i] == init[i]; }
    }
    assert n !in Having(init, state);
    if last.state == state {
      assert Having(items, state) == Having(init, state) + {n};
    } else {
      assert Having(items, state) == Having(init, state);
    }
  }

  /** The state of a result, by the states among its items. */
  lemma StateOfResult(items: seq<Row>)
    ensures AggregateState(items) == AnyUnknown <==> exists i :: 0 <= i < |items| && items[i].state == Unknown
    ensures AggregateState(items) == AllSucceeded <==> items != [] && forall i :: 0 <= i < |items| ==> items[i].state == Succeeded
    ensures AggregateState(items) == Partial <==>
      && (forall i :: 0 <= i < |items| ==> items[i].state != Unknown)
      && (exists i :: 0 <= i < |items| && items[i].state == Succeeded)
      && (exists i :: 0 <= i < |items| && items[i].state == Failed)
    ensures AggregateState(items) == AllFailed <==>
      && (forall i :: 0 <= i < |items| ==> items[i].state == Failed || items[i].state == Pending)
      && (exists i :: 0 <= i < |items| && items[i].state == Failed)
  {
    if items != [] && forall i :: 0 <= i < |items| ==> items[i].state == Succeeded {
      assert items[0].state == Succeeded;
    }
  }

  /** The items are the rows of that moment, in the order of the plan. */
  ghost predicate Reads(m: Moment, plan: seq<Key>, items: seq<Row>) {
    |items| == |plan| && forall i :: 0 <= i < |plan| && plan[i] in m.state.tables.rows ==> items[i] == m.state.tables.rows[plan[i]]
  }

  /** A result reports the rows as they were read, counts the failed and the unknown among
      them, as published the create requests confirmed to this call, and as skipped what had
      succeeded before and what the search found. */
  lemma ResultsAreReported(plan: seq<Key>, events: seq<Event>, late: bool, w: OwnerId, r: PublicationResult)
    requires Distinct(plan) && plan != []
    requires w in Run(Init(plan), events, late).workers
    requires var pc := Run(Init(plan), events, late).workers[w].pc; pc == Release(Returned(r)) || pc == Done(Returned(r))
    ensures r.published == Confirmed(Trace(Init(plan), events, late), w)
    ensures SkippedExplained(Trace(Init(plan), events, late), plan, w, r.skipped)
    ensures r.failed == |set i: nat | i < |r.items| && r.items[i].state == Failed|
    ensures r.unknown == |set i: nat | i < |r.items| && r.items[i].state == Unknown|
    ensures r.state == AggregateState(r.items)
    ensures exists m :: m in Trace(Init(plan), events, late) && (Acts(m, w, Snapshot) || Acts(m, w, ReadResult)) && Reads(m, plan, r.items)
  {
    hide Run, Trace, Confirmed, SkippedExplained, Count, AggregateState;
    OutcomesAreExplained(plan, events, late, w);
    CountIsSize(r.items, Failed);
    CountIsSize(r.items, Unknown);
    assert Having(r.items, Failed) == set i: nat | i < |r.items| && r.items[i].state == Failed;
    assert Having(r.items, Unknown) == set i: nat | i < |r.items| && r.items[i].state == Unknown;
  }
}
