/** The publication service itself: `publish` and the loops under it, running against the
    store while everybody else runs too. Each store access and each port call is shown to
    be one event of the protocol, so what `publish` does is a run of the protocol. */
module PublicationService {
  import opened Wrappers
  import opened PublicationTables
  import opened PublicationProtocol
  import opened PublicationAnswers
  import opened PublicationSafety
  import PublicationTheorems
  import PublicationVerdicts

  /** Everything outside one call: the shared tables, the remote and the other workers.
      `system` is the protocol state, of which the store holds the tables; `others` is
      what the rest of the system does before each step of the call, and `answers` is what
      the remote and the scanner say; `script` and `given` record what they had to say when
      the call began and what they have said to it since. */
  class World {
    const store: PublicationStore
    const plan: seq<Key>
    const late: bool
    var system: State
    var others: seq<seq<Event>>
    var answers: seq<Answer>
    ghost var log: seq<Event>
    ghost var script: seq<Answer>
    ghost var given: seq<Answer>

    ghost predicate Valid()
      reads this, store
    {
      store.Contents() == system.tables && Logged() && system.plan == plan
    }

    ghost predicate Logged()
      reads this
    {
      system == Run(Init(plan), log, late)
    }

    /** The run so far, moment by moment. */
    ghost function History(): seq<Moment>
      reads this
    {
      Trace(Init(plan), log, late)
    }

    /** What the call has taken for answers is what it was given, one by one, and that is the
        script as far as it goes. */
    ghost predicate Told(w: OwnerId)
      reads this
    {
      Drawn(script, given, answers) && ToldEach(Asked(History(), w), w, given)
    }

    /** The same, but for the answer just given. */
    ghost predicate Owing(w: OwnerId, a: Answer)
      reads this
    {
      && Drawn(script, given, answers)
      && given != [] && given[|given| - 1] == a
      && ToldEach(Asked(History(), w), w, given[..|given| - 1])
    }

    constructor (plan: seq<Key>, late: bool, others: seq<seq<Event>>, answers: seq<Answer>)
      ensures Valid() && log == [] && this.plan == plan && this.late == late && fresh(store)
    {
      this.plan, this.late, this.others, this.answers := plan, late, others, answers;
      system, log, script, given := Init(plan), [], answers, [];
      var tables := new PublicationStore(set k | k in plan);
      store := tables;
      new;
      assert store.rows == Init(plan).tables.rows;
    }

    /** The rest of the system moves; the worker's own place does not. */
    method Interfere(w: OwnerId)
      requires Valid()
      modifies this`system, this`others, this`log, store
      ensures Valid() && old(log) <= log
      ensures old(Told(w)) ==> Told(w)
      ensures w !in system.workers ==> Asked(History(), w) == []
      ensures w in system.workers <==> w in old(system).workers
      ensures w in system.workers ==> system.workers[w] == old(system).workers[w]
    {
      hide Step, Run, Trace, Asked, Drawn, ToldEach;
      if w !in system.workers { AskedNothing(plan, log, late, w); }
      if others == [] { return; }
      var events := others[0];
      others := others[1..];
      for i := 0 to |events|
        invariant store.Contents() == old(store.Contents())
        invariant Logged() && system.plan == plan && old(log) <= log
        invariant Asked(History(), w) == old(Asked(History(), w))
        invariant w in system.workers <==> w in old(system).workers
        invariant w in system.workers ==> system.workers[w] == old(system).workers[w]
      {
        if events[i].Tick? || events[i].Effect? || OtherThan(events[i], w) {
          StepPlan(system, events[i], late);
          AskedNext(plan, log, late, events[i], w);
          RunNext(plan, log, late, events[i]);
          system, log := Step(system, events[i], late), log + [events[i]];
        }
      }
      store.lease, store.lastToken, store.rows := system.tables.lease, system.tables.lastToken, system.tables.rows;
    }

    /** Records that the worker has begun, with the tables to match: its script starts here. */
    method Began(w: OwnerId)
      requires Logged() && system.plan == plan && w !in system.workers && Asked(History(), w) == []
      requires store.Contents() == BeginStep(system, w).tables
      modifies this`system, this`log, this`script, this`given
      ensures Valid() && old(log) <= log
      ensures system == BeginStep(old(system), w)
      ensures script == answers && given == [] && Told(w)
    {
      hide BeginStep, Run, Trace, Asked, Carries;
      StepPlan(system, Begin(w), late);
      AskedNext(plan, log, late, Begin(w), w);
      RunNext(plan, log, late, Begin(w));
      system, log := BeginStep(system, w), log + [Begin(w)];
      script, given := answers, [];
    }

    /** Records that the worker has taken its next step, with the tables to match. */
    method Took(w: OwnerId)
      requires Logged() && system.plan == plan && w in system.workers && !Port(system.workers[w].pc)
      requires store.Contents() == ActStep(system, w, NoAnswer).tables
      modifies this`system, this`log
      ensures Valid() && old(log) <= log
      ensures system == ActStep(old(system), w, NoAnswer)
      ensures old(Told(w)) ==> Told(w)
    {
      hide ActStep, Run, Trace, Asked, Drawn, ToldEach;
      StepPlan(system, Act(w, NoAnswer), late);
      AskedNext(plan, log, late, Act(w, NoAnswer), w);
      RunNext(plan, log, late, Act(w, NoAnswer));
      assert Asked(History(), w) + [] == Asked(History(), w);
      system, log := ActStep(system, w, NoAnswer), log + [Act(w, NoAnswer)];
    }

    /** The next answer of the remote or the scanner. */
    method Ask(ghost w: OwnerId) returns (a: Answer)
      requires Told(w)
      modifies this`answers, this`given
      ensures Valid() <==> old(Valid())
      ensures Owing(w, a)
    {
      hide Asked, Trace, ToldEach;
      if answers == [] {
        a, given := PortRaised, given + [PortRaised];
      } else {
        a := answers[0];
        answers, given := answers[1..], given + [a];
      }
      assert given[..|given| - 1] == old(given);
    }

    /** Records that the worker has taken the answer it was just given for `a`. */
    method Heard(w: OwnerId, a: Answer, ghost told: Answer)
      requires Logged() && system.plan == plan && Asks(Moment(system, Act(w, a)), w)
      requires store.Contents() == ActStep(system, w, a).tables
      requires Owing(w, told) && Carries(Moment(system, Act(w, a)), w, told)
      modifies this`system, this`log
      ensures Valid() && old(log) <= log
      ensures system == ActStep(old(system), w, a)
      ensures Told(w)
    {
      hide ActStep, Run, Trace, Asked, Drawn, ToldEach, Carries;
      StepPlan(system, Act(w, a), late);
      AskedNext(plan, log, late, Act(w, a), w);
      RunNext(plan, log, late, Act(w, a));
      ToldNext(Asked(History(), w), w, given[..|given| - 1], Moment(system, Act(w, a)), told);
      assert given == given[..|given| - 1] + [told];
      system, log := ActStep(system, w, a), log + [Act(w, a)];
    }
  }

  lemma RunNext(plan: seq<Key>, log: seq<Event>, late: bool, e: Event)
    ensures Run(Init(plan), log + [e], late) == Step(Run(Init(plan), log, late), e, late)
  {
    assert (log + [e])[..|log|] == log;
  }

  // ----- what a call is told -----------------------------------------------------------

  /** The places at which a call is answered from outside. */
  predicate Port(pc: Pc) {
    pc.VerifyTarget? || pc.Search? || pc.Scan? || pc.Await?
  }

  predicate Asks(m: Moment, w: OwnerId) {
    m.event.Act? && m.event.w == w && w in m.state.workers && Port(m.state.workers[w].pc)
  }

  /** The moments at which the call took an answer, in order. */
  function Asked(tr: seq<Moment>, w: OwnerId): seq<Moment> {
    if tr == [] then []
    else
      var m := tr[|tr| - 1];
      Asked(tr[..|tr| - 1], w) + (if Asks(m, w) then [m] else [])
  }

  lemma AskedNext(plan: seq<Key>, log: seq<Event>, late: bool, e: Event, w: OwnerId)
    ensures var m := Moment(Run(Init(plan), log, late), e);
      Asked(Trace(Init(plan), log + [e], late), w) ==
      Asked(Trace(Init(plan), log, late), w) + (if Asks(m, w) then [m] else [])
  {
    var m := Moment(Run(Init(plan), log, late), e);
    assert (log + [e])[..|log|] == log;
    assert Trace(Init(plan), log + [e], late) == Trace(Init(plan), log, late) + [m];
    assert (Trace(Init(plan), log, late) + [m])[..|log|] == Trace(Init(plan), log, late);
  }

  lemma {:induction false} AskedNothing(plan: seq<Key>, log: seq<Event>, late: bool, w: OwnerId)
    requires w !in Run(Init(plan), log, late).workers
    ensures Asked(Trace(Init(plan), log, late), w) == []
  {
    if log != [] {
      var init, e := log[..|log| - 1], log[|log| - 1];
      StepPlan(Run(Init(plan), init, late), e, late);
      if w in Run(Init(plan), init, late).workers { StaysThere(Run(Init(plan), init, late), e, late, w); }
      AskedNothing(plan, init, late, w);
      assert init + [e] == log;
      AskedNext(plan, init, late, e, w);
    }
  }

  lemma StaysThere(s: State, e: Event, late: bool, w: OwnerId)
    requires w in s.workers
    ensures w in Step(s, e, late).workers
  {
    hide Step;
    StepLeaves(s, e, late);
    StepPlan(s, e, late);
    if w != Actor(e) { OthersStay(s, e, late, w); }
  }

  lemma OthersStay(s: State, e: Event, late: bool, w: OwnerId)
    requires w in s.workers && w != Actor(e)
    ensures w in Step(s, e, late).workers
  {
    hide Step;
    StepPlan(s, e, late);
    if e.Begin? || e.Act? || e.Crash? { assert OtherThan(e, w); }
  }

  /** What a port makes of the answer it is given: one that is no answer to its question is
      an exception, a scan that does not pass rejects, and a success that the remote does
      not bear out is a result the caller cannot know. */
  predicate Carries(m: Moment, w: OwnerId, given: Answer)
    requires Asks(m, w)
  {
    match m.state.workers[w].pc
    case VerifyTarget => m.event.answer == if given.TargetError? || given.Target? then given else PortRaised
    case Search => m.event.answer == if given.SearchError? || given.SearchComplete? then given else PortRaised
    case Scan(_) => m.event.answer == if given.ScanPassed? then ScanPassed else ScanRejected
    case Await(i) =>
      m.event.answer ==
        if given.CreateOk? && i < |m.state.plan| && Post(w, m.state.plan[i], given.comment) in m.state.remote then given
        else if given.CreateOk? then CreateError("publication_result_unknown", true)
        else if given.CreateError? then given
        else PortRaised
    case _ => false
  }

  /** The answers given so far are the first of the script, with exceptions when it is used up. */
  ghost predicate Drawn(script: seq<Answer>, given: seq<Answer>, answers: seq<Answer>) {
    && (forall j :: 0 <= j < |given| ==> given[j] == if j < |script| then script[j] else PortRaised)
    && answers == if |given| <= |script| then script[|given|..] else []
  }

  ghost predicate ToldEach(asked: seq<Moment>, w: OwnerId, given: seq<Answer>) {
    |asked| == |given| && forall j :: 0 <= j < |asked| ==> Asks(asked[j], w) && Carries(asked[j], w, given[j])
  }

  lemma ToldNext(asked: seq<Moment>, w: OwnerId, given: seq<Answer>, m: Moment, a: Answer)
    requires ToldEach(asked, w, given) && Asks(m, w) && Carries(m, w, a)
    ensures ToldEach(asked + [m], w, given + [a])
  {
  }

  predicate OtherThan(e: Event, w: OwnerId) {
    match e
    case Begin(x) => x != w
    case Act(x, _) => x != w
    case Crash(x) => x != w
    case _ => false
  }

  lemma StepPlan(s: State, e: Event, late: bool)
    ensures Step(s, e, late).plan == s.plan
    ensures forall w :: e.Tick? || e.Effect? || OtherThan(e, w) ==>
              (w in Step(s, e, late).workers <==> w in s.workers) &&
              (w in s.workers ==> Step(s, e, late).workers[w] == s.workers[w])
  {
    hide BeginStep, ActStep, EffectStep, Goto;
    match e
    case Begin(w) => BeginPlan(s, w);
    case Act(w, a) => if w in s.workers { ActPlan(s, w, a); }
    case Effect(w, key, comment) => EffectPlan(s, w, key, comment, late);
    case Crash(w) => if w in s.workers { GotoPlan(s, w, Done(Crashed)); }
    case _ =>
  }

  /** The plan and the other workers are as they were. */
  ghost predicate OnlyMoves(s: State, s': State, w: OwnerId) {
    s'.plan == s.plan && forall x :: x != w ==> (x in s'.workers <==> x in s.workers) && (x in s.workers ==> s'.workers[x] == s.workers[x])
  }

  lemma BeginPlan(s: State, w: OwnerId)
    ensures OnlyMoves(s, BeginStep(s, w), w)
  {
  }

  lemma ActPlan(s: State, w: OwnerId, a: Answer)
    requires w in s.workers
    ensures OnlyMoves(s, ActStep(s, w, a), w)
  {
    hide SnapshotStep, VerifyStep, SearchStep, ItemStep, ScanStep, CreateStep, AwaitStep, OutcomeStep, FailStep,
      RenewStep, ReadResultStep, ReleaseStep, OnlyMoves;
    match s.workers[w].pc
    case Item(i) => ItemPlan(s, w, i);
    case Scan(i) => ScanPlan(s, w, i, a);
    case Create(i) => CreatePlan(s, w, i);
    case Await(i) => AwaitPlan(s, w, i, a);
    case Write(i, write) => OutcomePlan(s, w, i, write);
    case FailItem(i, failure, preserve) => FailPlan(s, w, i, failure, preserve);
    case _ => OtherPlan(s, w, a);
  }

  lemma ItemPlan(s: State, w: OwnerId, i: nat)
    requires w in s.workers
    ensures OnlyMoves(s, ItemStep(s, w, i), w)
  {
  }

  lemma ScanPlan(s: State, w: OwnerId, i: nat, a: Answer)
    requires w in s.workers
    ensures OnlyMoves(s, ScanStep(s, w, i, a), w)
  {
  }

  lemma CreatePlan(s: State, w: OwnerId, i: nat)
    requires w in s.workers
    ensures OnlyMoves(s, CreateStep(s, w, i), w)
  {
  }

  lemma AwaitPlan(s: State, w: OwnerId, i: nat, a: Answer)
    requires w in s.workers
    ensures OnlyMoves(s, AwaitStep(s, w, i, a), w)
  {
  }

  lemma OutcomePlan(s: State, w: OwnerId, i: nat, write: ItemWrite)
    requires w in s.workers
    ensures OnlyMoves(s, OutcomeStep(s, w, i, write), w)
  {
  }

  lemma FailPlan(s: State, w: OwnerId, i: nat, failure: ItemWrite, preserve: bool)
    requires w in s.workers
    ensures OnlyMoves(s, FailStep(s, w, i, failure, preserve), w)
  {
  }

  lemma OtherPlan(s: State, w: OwnerId, a: Answer)
    requires w in s.workers
    requires var pc := s.workers[w].pc;
      !pc.Item? && !pc.Scan? && !pc.Create? && !pc.Await? && !pc.Write? && !pc.FailItem?
    ensures OnlyMoves(s, ActStep(s, w, a), w)
  {
    hide ItemStep, ScanStep, CreateStep, AwaitStep, OutcomeStep, FailStep;
  }

  lemma EffectPlan(s: State, w: OwnerId, key: Key, comment: RemoteComment, late: bool)
    ensures EffectStep(s, w, key, comment, late).plan == s.plan && EffectStep(s, w, key, comment, late).workers == s.workers
  {
  }

  lemma GotoPlan(s: State, w: OwnerId, pc: Pc)
    requires w in s.workers
    ensures OnlyMoves(s, Goto(s, w, pc), w)
  {
  }

  ghost predicate At(world: World, w: OwnerId, me: Worker)
    reads world, world.store
  {
    world.Valid() && world.Told(w) && w in world.system.workers && world.system.workers[w] == me
  }

  ghost predicate Ends(world: World, w: OwnerId, pc: Pc)
    reads world, world.store
  {
    world.Valid() && world.Told(w) && w in world.system.workers && world.system.workers[w].pc == pc
  }

  lemma AtEnds(world: World, w: OwnerId, me: Worker)
    requires At(world, w, me)
    ensures Ends(world, w, me.pc)
  {
  }

  /** The log goes on, under the same script. */
  twostate predicate Continues(world: World)
    reads world
  {
    old(world.log) <= world.log && world.script == old(world.script)
  }

  lemma SystemInv(world: World)
    requires world.Valid() && Distinct(world.plan) && world.plan != []
    ensures Inv(world.system, world.late)
  {
    PublicationTheorems.InitInv(world.plan, world.late);
    PublicationTheorems.RunInv(Init(world.plan), world.log, world.late);
  }

  /** One call of `publish`. The outcome is the protocol's, every item is accounted for if
      the lease row is still the call's own at the end, and the lease row is then gone. */
  method Publish(world: World, w: OwnerId) returns (outcome: Outcome, held: bool)
    requires world.Valid() && w !in world.system.workers
    requires Distinct(world.plan) && world.plan != []
    modifies world, world.store
    ensures old(world.log) <= world.log && world.script == old(world.answers)
    ensures Ends(world, w, Done(outcome))
    ensures !HeldBy(world.system.tables, w)
    ensures Explained(world.History(), world.plan, w, outcome)
    ensures held && outcome.Returned? ==> Accounted(outcome.result, |world.plan|)
    ensures !world.late ==> NoDuplicates(world.system.remote)
  {
    var token := Acquire(world, w);
    if token == None {
      outcome, held := NotAcquired, false;
    } else {
      outcome := PublishLocked(world, w, token.value);
      held := Give(world, w, outcome);
    }
    SystemInv(world);
    PublicationVerdicts.OutcomesAreExplained(world.plan, world.log, world.late, w);
  }

  method Acquire(world: World, w: OwnerId) returns (token: Option<nat>)
    requires world.Valid() && w !in world.system.workers
    requires Distinct(world.plan) && world.plan != []
    modifies world, world.store
    ensures old(world.log) <= world.log && world.script == old(world.answers)
    ensures At(world, w, if token.Some? then Worker(Snapshot, token.value, map[], map[], 0, 0)
                         else Worker(Done(NotAcquired), 0, map[], map[], 0, 0))
    ensures token == None ==> !HeldBy(world.system.tables, w)
  {
    world.Interfere(w);
    SystemInv(world);
    token := world.store.AcquirePublicationLease(w, world.system.now, LEASE_SECONDS);
    world.Began(w);
  }

  lemma HeldIsAccounted(world: World, w: OwnerId, outcome: Outcome)
    requires Ends(world, w, Release(outcome)) && HeldBy(world.system.tables, w) && outcome.Returned?
    requires Distinct(world.plan) && world.plan != []
    ensures Accounted(outcome.result, |world.plan|)
  {
    hide Run;
    PublicationTheorems.ReturnedResultAccounted(world.plan, world.log, world.late, w);
  }

  lemma HeldUnderOwnToken(world: World, w: OwnerId)
    requires world.Valid() && w in world.system.workers && HeldBy(world.system.tables, w)
    requires Distinct(world.plan) && world.plan != []
    ensures world.system.tables.lease.value.token == world.system.workers[w].token
  {
    SystemInv(world);
  }

  /** The release on the way out of `publish`, whatever happened before it. */
  method Give(world: World, w: OwnerId, outcome: Outcome) returns (held: bool)
    requires Ends(world, w, Release(outcome))
    requires Distinct(world.plan) && world.plan != []
    modifies world, world.store
    ensures Continues(world)
    ensures Ends(world, w, Done(outcome))
    ensures !HeldBy(world.system.tables, w)
    ensures held && outcome.Returned? ==> Accounted(outcome.result, |world.plan|)
  {
    hide World.Logged, World.Told, Accounted, SnapshotStep, RenewStep, VerifyStep, SearchStep, ItemStep, ScanStep,
         CreateStep, AwaitStep, OutcomeStep, FailStep, ReadResultStep;
    world.Interfere(w);
    held := world.store.lease.Some? && world.store.lease.value.owner == w;
    if held {
      if outcome.Returned? { HeldIsAccounted(world, w, outcome); }
      HeldUnderOwnToken(world, w);
    }
    world.store.ReleasePublicationLease(w, Some(world.system.workers[w].token));
    world.Took(w);
  }

  /** The body of a call: it ends where the protocol says a call ends. */
  method PublishLocked(world: World, w: OwnerId, token: nat) returns (outcome: Outcome)
    requires At(world, w, Worker(Snapshot, token, map[], map[], 0, 0))
    modifies world, world.store
    ensures Continues(world)
    ensures Ends(world, w, Release(outcome))
  {
    hide At, Ends, Finish, ReadItems;
    var me := TakeSnapshot(world, w, token);
    if me.pc.Release? {
      AtEnds(world, w, me);
      return me.pc.outcome;
    }
    var ok := Renew(world, w, me, VerifyTarget);
    if !ok {
      AtEnds(world, w, me.(pc := Release(LeaseHeld)));
      return LeaseHeld;
    }

    var verified := VerifyRemote(world, w, me);
    if verified.Release? {
      AtEnds(world, w, me.(pc := verified));
      return verified.outcome;
    }
    if verified.FailItem? {
      outcome := FailRemaining(world, w, me, verified.failure, false);
      return;
    }

    ok := Renew(world, w, me.(pc := RenewForSearch), Search);
    if !ok {
      AtEnds(world, w, me.(pc := Release(LeaseHeld)));
      return LeaseHeld;
    }

    var searched := SearchRemote(world, w, me);
    if searched.pc.Release? {
      AtEnds(world, w, searched);
      return searched.pc.outcome;
    }
    if searched.pc.FailItem? {
      outcome := FailRemaining(world, w, me, searched.pc.failure, true);
      return;
    }
    outcome := PublishItems(world, w, searched);
  }

  /** Reads plan and rows; with nothing left to publish, that reading is the result. */
  method TakeSnapshot(world: World, w: OwnerId, token: nat) returns (me: Worker)
    requires At(world, w, Worker(Snapshot, token, map[], map[], 0, 0))
    modifies world, world.store
    ensures At(world, w, me) && Continues(world)
    ensures me.pc == RenewForTarget || (me.pc.Release? && me.pc.outcome.Returned?)
  {
    world.Interfere(w);
    var current := ReadItems(world.plan, world.store.rows);
    var remaining := RemainingItems(world.plan, world.store.rows);
    var skipped: nat := if |remaining| <= |current| then |current| - |remaining| else 0;
    me := Worker(RenewForTarget, token, remaining, map[], 0, skipped);
    if remaining == map[] {
      me := me.(pc := Release(Returned(Finish(current, 0, skipped))));
    }
    world.Took(w);
  }

  /** `verify_target` and the three ways it stops the call. */
  method VerifyRemote(world: World, w: OwnerId, me: Worker) returns (next: Pc)
    requires At(world, w, me.(pc := VerifyTarget))
    modifies world, world.store
    ensures At(world, w, me.(pc := next)) && Continues(world)
    ensures next == RenewForSearch || next.Release? || (next.FailItem? && next.i == 0 && !next.preserveUnknowns)
  {
    hide World.Logged, World.Told, World.Owing, SnapshotStep, RenewStep, SearchStep, ItemStep, ScanStep, CreateStep,
         AwaitStep, OutcomeStep, FailStep, ReadResultStep, ReleaseStep;
    world.Interfere(w);
    var target := world.Ask(w);
    ghost var told := target;
    if !target.TargetError? && !target.Target? { target := PortRaised; }
    world.Heard(w, target, told);
    if target.PortRaised? { return Release(Raised); }
    if target.TargetError? { return FailItem(0, Failure(target.code, target.unknown), false); }
    if !target.open { return FailItem(0, Failure("publication_target_closed", false), false); }
    if !target.headMatches { return FailItem(0, Failure("publication_target_changed", false), false); }
    return RenewForSearch;
  }

  /** `find_markers`: the comments that carry a marker of a remaining item. */
  method SearchRemote(world: World, w: OwnerId, me: Worker) returns (next: Worker)
    requires At(world, w, me.(pc := Search))
    modifies world, world.store
    ensures At(world, w, next) && Continues(world)
    ensures next.pc == Item(0) || (next == me.(pc := next.pc) &&
              (next.pc.Release? || (next.pc.FailItem? && next.pc.i == 0 && next.pc.preserveUnknowns)))
  {
    hide World.Logged, World.Told, World.Owing, SnapshotStep, RenewStep, VerifyStep, ItemStep, ScanStep, CreateStep,
         AwaitStep, OutcomeStep, FailStep, ReadResultStep, ReleaseStep;
    world.Interfere(w);
    var search := world.Ask(w);
    ghost var told := search;
    if !search.SearchError? && !search.SearchComplete? { search := PortRaised; }
    var remote := world.system.remote;
    world.Heard(w, search, told);
    if search.PortRaised? { return me.(pc := Release(Raised)); }
    if search.SearchError? { return me.(pc := FailItem(0, Failure(search.code, search.unknown), true)); }
    var found := map k | k in me.remaining && OnRemote(remote, k) :: CommentOf(remote, k);
    return me.(pc := Item(0), found := found);
  }

  /** Renews the lease on the way to `next`; `false` is the raised `publication_lease_held`. */
  method Renew(world: World, w: OwnerId, me: Worker, next: Pc) returns (ok: bool)
    requires At(world, w, me)
    requires
      || (me.pc == RenewForTarget && next == VerifyTarget)
      || (me.pc == RenewForSearch && next == Search)
      || (me.pc.Item? && next == Scan(me.pc.i) && me.pc.i < |world.plan|
          && world.plan[me.pc.i] in me.remaining && world.plan[me.pc.i] !in me.found)
    modifies world, world.store
    ensures At(world, w, me.(pc := if ok then next else Release(LeaseHeld))) && Continues(world)
  {
    hide World.Logged, World.Told, World.Owing, SnapshotStep, VerifyStep, SearchStep, ScanStep, CreateStep,
         AwaitStep, OutcomeStep, FailStep, ReadResultStep, ReleaseStep;
    world.Interfere(w);
    ok := world.store.RenewPublicationLease(w, me.token, world.system.now, LEASE_SECONDS);
    world.Took(w);
  }

  /** What writing item `i` sets it to, and the worker it leads to. */
  function Writing(me: Worker, i: nat, key: Key): (ItemWrite, Worker)
    requires (me.pc == Item(i) && key in me.found) || (me.pc.Write? && me.pc.i == i) || (me.pc.FailItem? && me.pc.i == i)
  {
    match me.pc
    case Write(_, write) =>
      (write, me.(pc := Item(i + 1), created := me.created + (if write.state == Succeeded then 1 else 0)))
    case FailItem(_, failure, preserve) => (failure, me.(pc := FailItem(i + 1, failure, preserve)))
    case _ =>
      (ItemWrite(Succeeded, Some(me.found[key]), None), me.(pc := Item(i + 1), skipped := me.skipped + 1))
  }

  /** Writes item `i` by compare-and-swap; `false` is the raised `publication_fence_lost`. */
  method WriteItem(world: World, w: OwnerId, me: Worker, i: nat) returns (ok: bool, after: Worker)
    requires At(world, w, me) && i < |world.plan| && world.plan[i] in me.remaining
    requires
      || (me.pc == Item(i) && world.plan[i] in me.found)
      || (me.pc.Write? && me.pc.i == i)
      || (me.pc.FailItem? && me.pc.i == i
          && !(me.pc.preserveUnknowns && me.remaining[world.plan[i]].state == Unknown))
    modifies world, world.store
    ensures after == Writing(me, i, world.plan[i]).1
    ensures At(world, w, if ok then after else me.(pc := Release(FenceLost))) && Continues(world)
  {
    hide World.Logged, World.Told, World.Owing, SnapshotStep, RenewStep, VerifyStep, SearchStep, ScanStep, CreateStep,
         AwaitStep, ReadResultStep, ReleaseStep;
    world.Interfere(w);
    var write: ItemWrite;
    write, after := Writing(me, i, world.plan[i]).0, Writing(me, i, world.plan[i]).1;
    ok := world.store.UpdatePublicationItem(world.plan[i], write, w, me.token,
                                            me.remaining[world.plan[i]].version, world.system.now);
    world.Took(w);
  }

  /** A step of the loops that touches no table. */
  method PassOver(world: World, w: OwnerId, me: Worker, next: Pc)
    requires At(world, w, me)
    requires
      || (me.pc.Item? && next == ReadResult && |world.plan| <= me.pc.i)
      || (me.pc.FailItem? && next == ReadResult && |world.plan| <= me.pc.i)
      || (me.pc.Item? && me.pc.i < |world.plan| && next == Item(me.pc.i + 1) && world.plan[me.pc.i] !in me.remaining)
      || (me.pc.FailItem? && me.pc.i < |world.plan| && next == me.pc.(i := me.pc.i + 1)
          && (world.plan[me.pc.i] !in me.remaining
              || (me.pc.preserveUnknowns && me.remaining[world.plan[me.pc.i]].state == Unknown)))
      || (me.pc.Create? && me.pc.i < |world.plan| && next == Await(me.pc.i))
    modifies world, world.store
    ensures At(world, w, me.(pc := next)) && Continues(world)
  {
    world.Interfere(w);
    world.Took(w);
  }

  /** The loop over the plan: reconcile what the search found, create the rest. */
  method PublishItems(world: World, w: OwnerId, start: Worker) returns (outcome: Outcome)
    requires At(world, w, start) && start.pc == Item(0)
    modifies world, world.store
    ensures Continues(world)
    ensures Ends(world, w, Release(outcome))
  {
    hide World.Valid, World.Told;
    var me, i := start, 0;
    while i < |world.plan|
      invariant i <= |world.plan| && At(world, w, me) && me.pc == Item(i) && Continues(world)
    {
      var key := world.plan[i];
      if key !in me.remaining {
        PassOver(world, w, me, Item(i + 1));
        me := me.(pc := Item(i + 1));
      } else if key in me.found {
        var ok;
        ok, me := WriteItem(world, w, me, i);
        if !ok { return FenceLost; }
      } else {
        var ok := Renew(world, w, me, Scan(i));
        if !ok { return LeaseHeld; }
        var write := CreateItem(world, w, me.(pc := Scan(i)), i);
        if write == None { return Raised; }
        ok, me := WriteItem(world, w, me.(pc := Write(i, write.value)), i);
        if !ok { return FenceLost; }
      }
      i := i + 1;
    }
    PassOver(world, w, me, ReadResult);
    outcome := ReadOutcome(world, w, me.(pc := ReadResult));
  }

  /** Scans the body and asks the remote for the comment; `None` is an error that is not a
      publication error. */
  method CreateItem(world: World, w: OwnerId, me: Worker, i: nat) returns (write: Option<ItemWrite>)
    requires At(world, w, me) && me.pc == Scan(i) && i < |world.plan|
    modifies world, world.store
    ensures Continues(world)
    ensures At(world, w, me.(pc := if write.Some? then Write(i, write.value) else Release(Raised)))
  {
    var passed := ScanItem(world, w, me, i);
    if !passed {
      return Some(ItemWrite(Failed, None, Some("publication_content_rejected")));
    }
    PassOver(world, w, me.(pc := Create(i)), Await(i));
    write := AwaitItem(world, w, me.(pc := Await(i)), i);
  }

  method ScanItem(world: World, w: OwnerId, me: Worker, i: nat) returns (passed: bool)
    requires At(world, w, me) && me.pc == Scan(i)
    modifies world, world.store
    ensures Continues(world)
    ensures At(world, w, me.(pc := if passed then Create(i)
                                   else Write(i, ItemWrite(Failed, None, Some("publication_content_rejected")))))
  {
    hide World.Logged, World.Told, World.Owing, SnapshotStep, RenewStep, VerifyStep, SearchStep, ItemStep, CreateStep,
         AwaitStep, OutcomeStep, FailStep, ReadResultStep, ReleaseStep;
    world.Interfere(w);
    var scan := world.Ask(w);
    passed := scan.ScanPassed?;
    world.Heard(w, if passed then ScanPassed else ScanRejected, scan);
  }

  /** The answer to the create request. A success that the remote does not bear out is, to
      the caller, a result it cannot know. */
  method AwaitItem(world: World, w: OwnerId, me: Worker, i: nat) returns (write: Option<ItemWrite>)
    requires At(world, w, me) && me.pc == Await(i) && i < |world.plan|
    modifies world, world.store
    ensures Continues(world)
    ensures At(world, w, me.(pc := if write.Some? then Write(i, write.value) else Release(Raised)))
  {
    hide World.Logged, World.Told, World.Owing, SnapshotStep, RenewStep, VerifyStep, SearchStep, ItemStep, ScanStep,
         CreateStep, OutcomeStep, FailStep, ReadResultStep, ReleaseStep;
    world.Interfere(w);
    var answer := world.Ask(w);
    ghost var told := answer;
    if answer.CreateOk? && Post(w, world.plan[i], answer.comment) !in world.system.remote {
      answer := CreateError("publication_result_unknown", true);
    } else if !answer.CreateOk? && !answer.CreateError? {
      answer := PortRaised;
    }
    world.Heard(w, answer, told);
    if answer.CreateOk? { return Some(ItemWrite(Succeeded, Some(answer.comment), None)); }
    if answer.CreateError? { return Some(Failure(answer.code, answer.unknown)); }
    return None;
  }

  /** Marks every remaining item failed or unknown. */
  method FailRemaining(world: World, w: OwnerId, start: Worker, failure: ItemWrite, preserve: bool)
    returns (outcome: Outcome)
    requires At(world, w, start.(pc := FailItem(0, failure, preserve)))
    modifies world, world.store
    ensures Continues(world)
    ensures Ends(world, w, Release(outcome))
  {
    hide World.Valid, World.Told;
    var i := 0;
    while i < |world.plan|
      invariant i <= |world.plan| && Continues(world)
      invariant At(world, w, start.(pc := FailItem(i, failure, preserve)))
    {
      var key := world.plan[i];
      var me := start.(pc := FailItem(i, failure, preserve));
      if key !in me.remaining || (preserve && me.remaining[key].state == Unknown) {
        PassOver(world, w, me, FailItem(i + 1, failure, preserve));
      } else {
        var ok, _ := WriteItem(world, w, me, i);
        if !ok { return FenceLost; }
      }
      i := i + 1;
    }
    PassOver(world, w, start.(pc := FailItem(i, failure, preserve)), ReadResult);
    outcome := ReadOutcome(world, w, start.(pc := ReadResult));
  }

  method ReadOutcome(world: World, w: OwnerId, me: Worker) returns (outcome: Outcome)
    requires At(world, w, me) && me.pc == ReadResult
    modifies world, world.store
    ensures At(world, w, me.(pc := Release(outcome))) && Continues(world)
  {
    world.Interfere(w);
    outcome := Returned(Finish(ReadItems(world.plan, world.store.rows), me.created, me.skipped));
    world.Took(w);
  }
}
