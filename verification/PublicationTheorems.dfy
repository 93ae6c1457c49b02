/** What holds of every run of the publication protocol, whatever the interleaving of
    workers, clock, crashes, lost responses and lease expiry. */
module PublicationTheorems {
  import opened Wrappers
  import opened PublicationTables
  import opened PublicationProtocol
  import opened PublicationSafety

  lemma InitInv(plan: seq<Key>, late: bool)
    requires Distinct(plan)
    ensures Inv(Init(plan), late)
  {
  }

  lemma {:induction false} RunInv(s: State, events: seq<Event>, late: bool)
    requires Inv(s, late) && s.plan != []
    ensures Inv(Run(s, events, late), late) && Run(s, events, late).plan == s.plan
  {
    if events != [] {
      var before := Run(s, events[..|events| - 1], late);
      RunInv(s, events[..|events| - 1], late);
      hide Inv;
      EventKeeps(before, events[|events| - 1], late);
    }
  }

  lemma {:induction false} RunAppend(s: State, before: seq<Event>, after: seq<Event>, late: bool)
    ensures Run(s, before + after, late) == Run(Run(s, before, late), after, late)
  {
    if after == [] {
      assert before + after == before;
    } else {
      var init, last := after[..|after| - 1], after[|after| - 1];
      RunAppend(s, before, init, late);
      assert (before + after)[..|before + after| - 1] == before + init;
    }
  }

  // ----- at most one comment per marker ------------------------------------------------

  /** Each marker is posted at most once, when create requests take effect no later than
      the lease they were sent under. */
  lemma PostedAtMostOnce(plan: seq<Key>, events: seq<Event>)
    requires Distinct(plan) && plan != []
    ensures NoDuplicates(Run(Init(plan), events, false).remote)
  {
    InitInv(plan, false);
    RunInv(Init(plan), events, false);
  }

  /** An item stored as succeeded has its comment, the one stored, on the remote. */
  lemma SucceededIsPosted(plan: seq<Key>, events: seq<Event>, late: bool, key: Key)
    requires Distinct(plan) && plan != []
    requires var rows := Run(Init(plan), events, late).tables.rows; key in rows && rows[key].state == Succeeded
    ensures var s := Run(Init(plan), events, late);
      s.tables.rows[key].remote.Some? && CommentOnRemote(s.remote, key, s.tables.rows[key].remote.value)
  {
    InitInv(plan, late);
    RunInv(Init(plan), events, late);
  }

  // ----- item rows and tokens over time ------------------------------------------------

  /** Rows only move forward: a succeeded row is never written again, versions and the
      tokens in rows do not fall, and the last issued token does not fall. */
  ghost predicate Later(t: Tables, t': Tables) {
    && t'.rows.Keys == t.rows.Keys
    && t.lastToken <= t'.lastToken
    && forall k :: k in t.rows ==>
         && t.rows[k].version <= t'.rows[k].version
         && t.rows[k].token <= t'.rows[k].token
         && (t.rows[k].state == Succeeded ==> t'.rows[k] == t.rows[k])
  }

  lemma {:induction false} RunMovesForward(s: State, events: seq<Event>, late: bool)
    requires Inv(s, late) && s.plan != []
    ensures Later(s.tables, Run(s, events, late).tables)
  {
    if events != [] {
      var init, last := events[..|events| - 1], events[|events| - 1];
      RunMovesForward(s, init, late);
      RunInv(s, init, late);
      hide Inv;
      EventKeeps(Run(s, init, late), last, late);
    }
  }

  /** On every run: what holds of the tables at one point still holds, in this sense, at
      any later point. In particular an item that succeeded stays succeeded. */
  lemma TablesMoveForward(plan: seq<Key>, before: seq<Event>, after: seq<Event>, late: bool)
    requires Distinct(plan) && plan != []
    ensures Later(Run(Init(plan), before, late).tables, Run(Init(plan), before + after, late).tables)
  {
    InitInv(plan, late);
    RunInv(Init(plan), before, late);
    RunMovesForward(Run(Init(plan), before, late), after, late);
    RunAppend(Init(plan), before, after, late);
  }

  /** Once token `issued` has been given out, a worker with an older token can neither
      renew the lease nor write an item, at any later point; the next token is newer than
      every token any worker has; and a lease in force carries the last token issued. */
  lemma OlderTokensAreFenced(plan: seq<Key>, before: seq<Event>, after: seq<Event>, late: bool, old_: nat, w: OwnerId)
    requires Distinct(plan) && plan != []
    requires old_ < Run(Init(plan), before, late).tables.lastToken
    ensures var s := Run(Init(plan), before + after, late);
      && (forall now, seconds :: !Renewed(s.tables, w, old_, now, seconds).1)
      && (forall key, write, version, now :: !Updated(s.tables, key, write, w, old_, version, now).1)
      && (s.tables.lease.Some? ==> s.tables.lease.value.token == s.tables.lastToken)
      && (forall x, now, seconds :: Acquired(s.tables, x, now, seconds).1.Some? ==>
            forall y :: y in s.workers ==> s.workers[y].token < Acquired(s.tables, x, now, seconds).1.value)
  {
    InitInv(plan, late);
    RunInv(Init(plan), before + after, late);
    TablesMoveForward(plan, before, after, late);
    assert forall y :: y in Run(Init(plan), before + after, late).workers ==>
      WorkerOk(Run(Init(plan), before + after, late), y, late);
  }

  // ----- the result of a call ------------------------------------------------------------

  /** When a call returns a result with the lease row still its own, every item is counted
      exactly once and none is pending, on every path through the call. */
  lemma ReturnedResultAccounted(plan: seq<Key>, events: seq<Event>, late: bool, w: OwnerId)
    requires Distinct(plan) && plan != []
    requires var s := Run(Init(plan), events, late);
      w in s.workers && s.workers[w].pc.Release? && s.workers[w].pc.outcome.Returned? && HeldBy(s.tables, w)
    ensures var s := Run(Init(plan), events, late);
      && Accounted(s.workers[w].pc.outcome.result, |plan|)
      && s.workers[w].pc.outcome.result.items == ReadItems(plan, s.tables.rows)
  {
    InitInv(plan, late);
    RunInv(Init(plan), events, late);
    InvWorker(Run(Init(plan), events, late), w, late);
  }

  // ----- what goes wrong without the timing assumption -----------------------------------

  /** The events of one worker up to its first create request, for a one-item plan. */
  function UntilCreate(w: OwnerId): seq<Event> {
    [Begin(w), Act(w, NoAnswer), Act(w, NoAnswer), Act(w, Target(true, true)), Act(w, NoAnswer),
     Act(w, SearchComplete), Act(w, NoAnswer), Act(w, ScanPassed), Act(w, NoAnswer)]
  }

  ghost predicate Vacant(s: State, w: OwnerId, key: Key) {
    && s.plan == [key] && s.remote == [] && w !in s.workers
    && key in s.tables.rows && s.tables.rows[key] == InitialRow()
    && (s.tables.lease.Some? ==> s.tables.lease.value.expires <= s.now)
  }

  /** The state when the worker, alone at work since `s`, stands at `pc`. */
  function AloneAt(s: State, w: OwnerId, key: Key, pc: Pc): State {
    var token := s.tables.lastToken + 1;
    var me := Worker(pc, token, map[key := InitialRow()], map[], 0, 0);
    s.(workers := s.workers[w := me],
       tables := Tables(Some(Lease(w, token, s.now + LEASE_SECONDS)), token, s.tables.rows))
  }

  lemma SnapshotAlone(s: State, w: OwnerId, key: Key)
    requires Vacant(s, w, key)
    ensures Step(Step(s, Begin(w), true), Act(w, NoAnswer), true) == AloneAt(s, w, key, RenewForTarget)
  {
    var s1 := Step(s, Begin(w), true);
    assert s1.plan[..0] == [];
    assert RemainingItems([], s1.tables.rows) == map[];
    assert RemainingItems(s1.plan, s1.tables.rows) == map[key := InitialRow()];
    assert |map[key := InitialRow()]| == 1;
    var s2 := SnapshotStep(s1, w);
    assert s2.workers[w] == Worker(RenewForTarget, s.tables.lastToken + 1, map[key := InitialRow()], map[], 0, 0);
    assert s2.workers == s.workers[w := s2.workers[w]];
  }

  lemma MoveAlone(s: State, w: OwnerId, key: Key, pc: Pc, a: Answer, pc': Pc)
    requires Vacant(s, w, key)
    requires
      || (pc == RenewForTarget && a == NoAnswer && pc' == VerifyTarget)
      || (pc == VerifyTarget && a == Target(true, true) && pc' == RenewForSearch)
      || (pc == RenewForSearch && a == NoAnswer && pc' == Search)
      || (pc == Item(0) && a == NoAnswer && pc' == Scan(0))
      || (pc == Scan(0) && a == ScanPassed && pc' == Create(0))
    ensures Step(AloneAt(s, w, key, pc), Act(w, a), true) == AloneAt(s, w, key, pc')
  {
    var before, after := AloneAt(s, w, key, pc), AloneAt(s, w, key, pc');
    var s' := Step(before, Act(w, a), true);
    assert s'.workers[w] == after.workers[w];
    assert s'.workers == after.workers;
  }

  lemma SearchAlone(s: State, w: OwnerId, key: Key)
    requires Vacant(s, w, key)
    ensures Step(AloneAt(s, w, key, Search), Act(w, SearchComplete), true) == AloneAt(s, w, key, Item(0))
  {
    var s' := Step(AloneAt(s, w, key, Search), Act(w, SearchComplete), true);
    assert s'.workers[w].found == map[];
    assert s'.workers == AloneAt(s, w, key, Item(0)).workers;
  }

  ghost predicate RequestOut(s: State, s': State, w: OwnerId, key: Key) {
    && s'.inflight == s.inflight + {(w, key)} && s'.remote == [] && s'.now == s.now && s'.plan == s.plan
    && s'.tables.rows == s.tables.rows && s'.workers.Keys == s.workers.Keys + {w}
    && s'.tables.lease == Some(Lease(w, s.tables.lastToken + 1, s.now + LEASE_SECONDS))
  }

  lemma CreateAlone(s: State, w: OwnerId, key: Key)
    requires Vacant(s, w, key)
    ensures RequestOut(s, Step(AloneAt(s, w, key, Create(0)), Act(w, NoAnswer), true), w, key)
  {
  }

  lemma RunOneMore(s: State, events: seq<Event>, n: nat, before: State, after: State)
    requires n < |events| && Run(s, events[..n], true) == before && Step(before, events[n], true) == after
    ensures Run(s, events[..n + 1], true) == after
  {
    assert events[..n + 1][..n] == events[..n];
  }

  lemma CreateReached(s: State, w: OwnerId, key: Key)
    requires Vacant(s, w, key)
    ensures RequestOut(s, Run(s, UntilCreate(w), true), w, key)
  {
    hide Vacant, Run, Step, AloneAt, RequestOut;
    var es := UntilCreate(w);
    SnapshotAlone(s, w, key);
    RunNothing(s, es);
    RunOneMore(s, es, 0, s, Step(s, Begin(w), true));
    RunOneMore(s, es, 1, Step(s, Begin(w), true), AloneAt(s, w, key, RenewForTarget));
    MoveAlone(s, w, key, RenewForTarget, NoAnswer, VerifyTarget);
    RunOneMore(s, es, 2, AloneAt(s, w, key, RenewForTarget), AloneAt(s, w, key, VerifyTarget));
    MoveAlone(s, w, key, VerifyTarget, Target(true, true), RenewForSearch);
    RunOneMore(s, es, 3, AloneAt(s, w, key, VerifyTarget), AloneAt(s, w, key, RenewForSearch));
    MoveAlone(s, w, key, RenewForSearch, NoAnswer, Search);
    RunOneMore(s, es, 4, AloneAt(s, w, key, RenewForSearch), AloneAt(s, w, key, Search));
    SearchAlone(s, w, key);
    RunOneMore(s, es, 5, AloneAt(s, w, key, Search), AloneAt(s, w, key, Item(0)));
    MoveAlone(s, w, key, Item(0), NoAnswer, Scan(0));
    RunOneMore(s, es, 6, AloneAt(s, w, key, Item(0)), AloneAt(s, w, key, Scan(0)));
    MoveAlone(s, w, key, Scan(0), ScanPassed, Create(0));
    RunOneMore(s, es, 7, AloneAt(s, w, key, Scan(0)), AloneAt(s, w, key, Create(0)));
    CreateAlone(s, w, key);
    RunOneMore(s, es, 8, AloneAt(s, w, key, Create(0)), Step(AloneAt(s, w, key, Create(0)), Act(w, NoAnswer), true));
    assert es[..9] == es;
  }

  lemma RunNothing(s: State, events: seq<Event>)
    ensures Run(s, events[..0], true) == s
  {
  }

  /** A list of states that steps through the events ends where the run ends. */
  lemma {:induction false} RunTo(s: State, events: seq<Event>, states: seq<State>)
    requires |states| == |events| + 1 && states[0] == s
    requires forall i :: 0 <= i < |events| ==> states[i + 1] == Step(states[i], events[i], true)
    ensures Run(s, events, true) == states[|events|]
  {
    if events != [] {
      RunTo(s, events[..|events| - 1], states[..|events|]);
    }
  }

  /** If a request may take effect after its lease has ended, the same marker can be posted
      twice: the first worker's request is still under way when its lease expires, the
      second worker finds no comment and posts its own, then the first one lands. */
  lemma LateEffectPostsTwice(key: Key, c: RemoteComment) returns (events: seq<Event>)
    ensures !NoDuplicates(Run(Init([key]), events, true).remote)
  {
    var s0 := Init([key]);
    CreateReached(s0, 1, key);
    var a := Run(s0, UntilCreate(1), true);
    var b := Step(a, Tick(LEASE_SECONDS), true);
    CreateReached(b, 2, key);
    var d := Run(b, UntilCreate(2), true);
    var e := Step(d, Effect(2, key, c), true);
    var f := Step(e, Effect(1, key, c), true);
    assert f.remote[0].key == f.remote[1].key;
    var tail := [Effect(2, key, c), Effect(1, key, c)];
    RunTo(d, tail, [d, e, f]);
    RunTo(a, [Tick(LEASE_SECONDS)], [a, b]);
    events := UntilCreate(1) + ([Tick(LEASE_SECONDS)] + (UntilCreate(2) + tail));
    RunAppend(b, UntilCreate(2), tail, true);
    RunAppend(a, [Tick(LEASE_SECONDS)], UntilCreate(2) + tail, true);
    RunAppend(s0, UntilCreate(1), [Tick(LEASE_SECONDS)] + (UntilCreate(2) + tail), true);
  }
}
