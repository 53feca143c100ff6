/**
 The races of a cancellation, each as a run that starts from an empty store: the completion that comes
 first, the continuation that reopens first, the continuation whose reopening fails, the completion of an
 old turn that ends a newer one, and the restart that strands a hold.
 */
module RaceScenarios {
  import opened Common
  import opened TaskStore
  import opened Usage
  import opened Coordinator
  import opened CoordinatorSafety
  import opened HoldConservation
  import opened HoldAccounting
  import opened HoldTracing
  import opened CancellationRaces
  import opened LostHolds
  import opened LateCompletion
  import opened CoordinatorScenarios

  // ---------------------------------------------------------------- the first turn

  /** A service that reports no windows admits every reservation with an ordered estimate. */
  const ROOM := Capacity(map[], 0.0)

  lemma RoomAdmits(l: Ledger, provider: Provider, taskClass: TaskClass, id: HoldId)
    requires id !in l.holds && l.observations == []
    ensures var r := Reserve(l, ROOM, provider, taskClass, id); r.Ok? && r.value.observations == []
  {
  }

  /** Who takes part: the calls, their holds, and the row, worktree and session of the task. */
  datatype Cast = Cast(c: CallId, k: CallId, n: CallId, h: HoldId, h2: HoldId,
                       call: Call, taskClass: TaskClass, worktree: Worktree, session: Session, now: int)

  predicate ValidCast(x: Cast) {
    && x.c != x.k && x.c != x.n && x.k != x.n && x.h != x.h2
    && x.call == Call(StartCall, x.call.task, x.call.provider, x.call.threadId, None, None, AwaitThread, false)
    && x.session.provider == x.call.provider
  }

  function Launch(x: Cast): seq<Event> {
    Persisting(x.c, x.call, x.taskClass, x.h, x.worktree, x.now) + Launching(x.c, x.session, x.now)
  }

  /** The new task's turn is running, with its hold registered. */
  ghost predicate FirstTurn(w: World, x: Cast) {
    var t := x.call.task;
    && Balanced(w.ledger) && Consistent(w.db) && Accounted(w) && HoldsConserved(w)
    && w.capacity == Some(ROOM) && w.ledger.observations == []
    && w.calls == map[x.c := x.call.(hold := Some(x.h), point := AwaitCompletion)]
    && t in w.db.tasks && w.db.tasks[t].status == Running && w.db.tasks[t].provider == x.call.provider && t !in w.db.results
    && Lookup(w.db.sessions, t) == Some(x.session) && Lookup(w.db.worktrees, t) == Some(x.worktree.(removedAt := None))
    && IsActive(w.ledger, x.h) && w.ledger.holds.Keys == {x.h}
    && Lookup(w.activeReservations, t) == Some(x.h) && t in w.activeRenderers
  }

  lemma LaunchOrderly(x: Cast)
    ensures OrderlyRun(Launch(x))
  {
  }

  lemma FirstTurnReached(x: Cast) returns (w: World)
    requires ValidCast(x)
    ensures Balanced(EmptyWorld(Some(ROOM)).ledger) && w == Run(EmptyWorld(Some(ROOM)), Launch(x))
    ensures FirstTurn(w, x)
  {
    var w0 := EmptyWorld(Some(ROOM));
    EmptyWorldOk(Some(ROOM));
    RoomAdmits(w0.ledger, x.call.provider, x.taskClass, x.h);
    w := StartReachesRunning(w0, x.c, x.call, x.taskClass, x.h, x.worktree, x.session, x.now);
    RunKeeps(w0, Launch(x));
    RunAccounted(w0, Launch(x));
    LaunchOrderly(x);
    RunConserves(w0, Launch(x));
  }

  // ---------------------------------------------------------------- the cancellation, waiting for its card

  ghost predicate Waiting(w: World, x: Cast) {
    var t := x.call.task;
    && Balanced(w.ledger) && Consistent(w.db) && Accounted(w) && Racing(w, x.k, t, x.h)
    && w.capacity == Some(ROOM) && w.ledger.observations == [] && x.c != x.k
    && x.k in w.calls
    && w.calls == map[x.c := x.call.(hold := Some(x.h), point := AwaitCompletion), x.k := w.calls[x.k]]
    && w.db.tasks[t].provider == x.call.provider && Continuable(w.db, t) && w.db.sessions[t] == x.session
    && IsActive(w.ledger, x.h) && w.ledger.holds.Keys == {x.h}
    && Lookup(w.activeReservations, t) == Some(x.h)
  }

  lemma CancelledFirstTurn(w: World, x: Cast) returns (w1: World)
    requires ValidCast(x) && FirstTurn(w, x)
    ensures w1 == Step(w, CancelTask(x.k, x.call.task, x.now)) && Waiting(w1, x)
  {
    var t := x.call.task;
    var e := CancelTask(x.k, t, x.now);
    w1 := Step(w, e);
    ConservedAlone(w, x.c, x.h);
    StepBalanced(w, e);
    StepAccounted(w, e);
    StepKeeps(w, e);
    CancelWaits(w, x.c, x.k, t, x.h, x.now);
    CancelKeepsCalls(w, x.c, x.k, t, x.h, x.now);
  }

  /** The run up to the waiting cancellation. */
  function UpToCancel(x: Cast): seq<Event> { Launch(x) + [CancelTask(x.k, x.call.task, x.now)] }

  lemma CancelReached(x: Cast) returns (w1: World)
    requires ValidCast(x)
    ensures Balanced(EmptyWorld(Some(ROOM)).ledger) && w1 == Run(EmptyWorld(Some(ROOM)), UpToCancel(x))
    ensures Waiting(w1, x)
  {
    var w := FirstTurnReached(x);
    w1 := CancelledFirstTurn(w, x);
    RunSnoc(EmptyWorld(Some(ROOM)), Launch(x), CancelTask(x.k, x.call.task, x.now));
  }

  // ---------------------------------------------------------------- the completion comes first

  function CompletionFirst(x: Cast, outcome: Outcome, usage: TurnUsage): seq<Event> {
    UpToCancel(x) + [TurnCompleted(x.c, outcome, x.call.provider, usage, x.now)] + [Resume(x.k, x.now)]
  }

  lemma CompletionRace(w1: World, x: Cast, outcome: Outcome, usage: TurnUsage) returns (w2: World, lost: World)
    requires ValidCast(x) && Waiting(w1, x)
    ensures w2 == Step(w1, TurnCompleted(x.c, outcome, x.call.provider, usage, x.now)) && WellFormed(w2.ledger)
    ensures lost == Step(w2, Resume(x.k, x.now))
    ensures lost.calls == map[] && Unclaimed(lost, x.call.task, x.h) && !Stranded(lost, x.h)
  {
    w2 := DiscardedCompletion(w1, x.c, outcome, x.call.provider, usage, x.now);
    lost := Step(w2, Resume(x.k, x.now));
    assert w2.calls == map[x.k := w1.calls[x.k]];
    CancelReleases(w2, x.k, x.now);
    assert lost.activeReservations == w2.activeReservations;
  }

  /** The cancelled turn completes before the card update is over: its hold is lost. No call is left and
      nothing is registered, yet the hold is active, and by `LostWhileRunning` stays so until a restart. */
  lemma CompletionLosesHold(x: Cast, outcome: Outcome, usage: TurnUsage) returns (lost: World)
    requires ValidCast(x)
    ensures Balanced(EmptyWorld(Some(ROOM)).ledger) && lost == Run(EmptyWorld(Some(ROOM)), CompletionFirst(x, outcome, usage))
    ensures Accounted(lost) && lost.calls == map[] && Unclaimed(lost, x.call.task, x.h) && !Stranded(lost, x.h)
  {
    var w0 := EmptyWorld(Some(ROOM));
    EmptyWorldOk(Some(ROOM));
    var e := TurnCompleted(x.c, outcome, x.call.provider, usage, x.now);
    var w1 := CancelReached(x);
    var w2;
    w2, lost := CompletionRace(w1, x, outcome, usage);
    RunSnoc(w0, UpToCancel(x), e);
    RunSnoc(w0, UpToCancel(x) + [e], Resume(x.k, x.now));
    RunAccounted(w0, CompletionFirst(x, outcome, usage));
  }

  // ---------------------------------------------------------------- a continuation reopens first

  /** The continuation has its reservation. */
  lemma ContinuationReserved(w1: World, x: Cast) returns (w2: World)
    requires ValidCast(x) && Waiting(w1, x)
    ensures w2 == Run(w1, Continuing(x.n, x.call.task, x.taskClass, x.h2)) && Balanced(w2.ledger)
    ensures w2.calls == w1.calls[x.n := Continuation(w1.db, x.call.task, x.h2)]
    ensures w2 == w1.(calls := w2.calls, ledger := w2.ledger)
    ensures IsActive(w2.ledger, x.h2) && w2.ledger.holds[x.h2].taskId.None?
    ensures x.h in w2.ledger.holds && w2.ledger.holds[x.h] == w1.ledger.holds[x.h]
  {
    RoomAdmits(w1.ledger, x.call.provider, x.taskClass, x.h2);
    w2 := ContinueReserves(w1, x.n, x.call.task, x.taskClass, x.h2);
  }

  /** The run up to the continuation's reservation. */
  function UpToContinuation(x: Cast): seq<Event> {
    UpToCancel(x) + Continuing(x.n, x.call.task, x.taskClass, x.h2)
  }

  function ContinuationFirst(x: Cast): seq<Event> {
    UpToContinuation(x) + [Resume(x.n, x.now)] + [Resume(x.k, x.now)]
  }

  /** The old turn awaits its completion, the cancellation its card, the continuation its reopening. */
  ghost predicate BothUnderWay(w: World, x: Cast) {
    var t := x.call.task;
    && Balanced(w.ledger) && x.c != x.k && x.c != x.n && x.k != x.n && x.h != x.h2
    && Suspended(w, x.c, {AwaitCompletion}) && Suspended(w, x.k, {AwaitCancelClosing}) && w.calls[x.k].task == t
    && Suspended(w, x.n, {AwaitReservation}) && w.calls[x.n].task == t && w.calls[x.n].hold == Some(x.h2)
    && w.calls[x.n].kind == ContinueCall && Continuable(w.db, t)
    && IsActive(w.ledger, x.h) && IsActive(w.ledger, x.h2) && w.ledger.holds[x.h2].taskId.None?
    && Lookup(w.activeReservations, t) == Some(x.h)
  }

  lemma ContinuationReached(x: Cast) returns (w2: World)
    requires ValidCast(x)
    ensures Balanced(EmptyWorld(Some(ROOM)).ledger) && w2 == Run(EmptyWorld(Some(ROOM)), UpToContinuation(x))
    ensures BothUnderWay(w2, x)
  {
    var w1 := CancelReached(x);
    RunAppend(EmptyWorld(Some(ROOM)), UpToCancel(x), Continuing(x.n, x.call.task, x.taskClass, x.h2));
    w2 := ContinuationReserved(w1, x);
    ContinuationWaits(w1, w2, x);
  }

  lemma ContinuationWaits(w1: World, w2: World, x: Cast)
    requires ValidCast(x) && Waiting(w1, x) && Balanced(w2.ledger)
    requires w2.calls == w1.calls[x.n := Continuation(w1.db, x.call.task, x.h2)]
    requires w2 == w1.(calls := w2.calls, ledger := w2.ledger)
    requires IsActive(w2.ledger, x.h2) && w2.ledger.holds[x.h2].taskId.None?
    requires x.h in w2.ledger.holds && w2.ledger.holds[x.h] == w1.ledger.holds[x.h]
    ensures BothUnderWay(w2, x)
  {
  }

  lemma ReopeningRace(w2: World, x: Cast) returns (w3: World, w4: World)
    requires BothUnderWay(w2, x)
    ensures w3 == Step(w2, Resume(x.n, x.now)) && WellFormed(w3.ledger) && w4 == Step(w3, Resume(x.k, x.now))
    ensures IsActive(w4.ledger, x.h) && x.h2 in w4.ledger.holds && !IsActive(w4.ledger, x.h2)
    ensures Suspended(w4, x.c, {AwaitCompletion}) && Suspended(w4, x.n, {AwaitResumedRenderer})
    ensures w4.calls[x.n].hold == Some(x.h2) && w4.calls[x.n].task == x.call.task
    ensures x.call.task !in w4.activeRenderers && Live(w4, x.call.task)
  {
    w3 := ContinueReopens(w2, x.n, x.now);
    w4 := Step(w3, Resume(x.k, x.now));
    CancelReleases(w3, x.k, x.now);
    assert Lookup(w3.activeReservations, x.call.task) == Some(x.h2);
  }

  /** A continuation reopens the task before the card update is over, while the cancelled turn has not
      even completed: the cancellation then releases the hold of the continuation's running turn and drops
      its renderer, and leaves the hold of the turn it cancelled active. */
  lemma CancelReleasesNewTurn(x: Cast) returns (w4: World)
    requires ValidCast(x)
    ensures Balanced(EmptyWorld(Some(ROOM)).ledger) && w4 == Run(EmptyWorld(Some(ROOM)), ContinuationFirst(x))
    ensures IsActive(w4.ledger, x.h) && x.h2 in w4.ledger.holds && !IsActive(w4.ledger, x.h2)
    ensures Suspended(w4, x.c, {AwaitCompletion}) && Suspended(w4, x.n, {AwaitResumedRenderer})
    ensures w4.calls[x.n].hold == Some(x.h2) && w4.calls[x.n].task == x.call.task
    ensures x.call.task !in w4.activeRenderers && Live(w4, x.call.task)
  {
    var w2 := ContinuationReached(x);
    var w3;
    w3, w4 := ReopeningRace(w2, x);
    RunSnoc(EmptyWorld(Some(ROOM)), UpToContinuation(x), Resume(x.n, x.now));
    RunSnoc(EmptyWorld(Some(ROOM)), UpToContinuation(x) + [Resume(x.n, x.now)], Resume(x.k, x.now));
  }

  // ---------------------------------------------------------------- a continuation fails to reopen

  function FailedContinuationFirst(x: Cast): seq<Event> {
    UpToContinuation(x) + [WorktreeClosed(x.call.task, x.now)] + [Resume(x.n, x.now)] + [Resume(x.k, x.now)]
  }

  lemma FailedReopeningRace(w2: World, x: Cast) returns (w3: World, w4: World, w5: World)
    requires BothUnderWay(w2, x)
    ensures w3 == Step(w2, WorktreeClosed(x.call.task, x.now)) && WellFormed(w3.ledger)
    ensures w4 == Step(w3, Resume(x.n, x.now)) && WellFormed(w4.ledger) && w5 == Step(w4, Resume(x.k, x.now))
    ensures IsActive(w5.ledger, x.h) && x.call.task !in w5.activeReservations
    ensures Suspended(w5, x.c, {AwaitCompletion}) && x.n !in w5.calls && x.k !in w5.calls
  {
    var t := x.call.task;
    w3 := Step(w2, WorktreeClosed(t, x.now));
    assert ReopenForContinuation(w3.db, t, x.now).Err?;
    w4 := Step(w3, Resume(x.n, x.now));
    assert w4 == Catch(w3, x.n);
    w5 := Step(w4, Resume(x.k, x.now));
    CancelReleases(w4, x.k, x.now);
    assert t !in w4.activeReservations && w5.activeReservations == w4.activeReservations;
  }

  /** A continuation that finds the worktree gone drops the map entry of the turn before it: the
      cancellation then releases nothing. */
  lemma FailedReopeningLosesHold(x: Cast) returns (w5: World)
    requires ValidCast(x)
    ensures Balanced(EmptyWorld(Some(ROOM)).ledger) && w5 == Run(EmptyWorld(Some(ROOM)), FailedContinuationFirst(x))
    ensures IsActive(w5.ledger, x.h) && x.call.task !in w5.activeReservations
    ensures Suspended(w5, x.c, {AwaitCompletion}) && x.n !in w5.calls && x.k !in w5.calls
  {
    var w0, e := EmptyWorld(Some(ROOM)), WorktreeClosed(x.call.task, x.now);
    var w2 := ContinuationReached(x);
    var w3, w4;
    w3, w4, w5 := FailedReopeningRace(w2, x);
    RunSnoc(w0, UpToContinuation(x), e);
    RunSnoc(w0, UpToContinuation(x) + [e], Resume(x.n, x.now));
    RunSnoc(w0, UpToContinuation(x) + [e] + [Resume(x.n, x.now)], Resume(x.k, x.now));
  }

  // ---------------------------------------------------------------- two turns of one task

  function TwoTurns(x: Cast): seq<Event> { UpToCancel(x) + [Resume(x.k, x.now)] + SecondTurn(x) }

  lemma CancelDone(w1: World, x: Cast) returns (w2: World)
    requires ValidCast(x) && Waiting(w1, x)
    ensures w2 == Step(w1, Resume(x.k, x.now)) && Balanced(w2.ledger)
    ensures w2.calls == map[x.c := x.call.(hold := Some(x.h), point := AwaitCompletion)] && w2.db == w1.db
    ensures w2.ledger.holds.Keys == {x.h} && w2.ledger.observations == [] && w2.capacity == Some(ROOM)
  {
    StepBalanced(w1, Resume(x.k, x.now));
    w2 := Step(w1, Resume(x.k, x.now));
    CancelReleases(w1, x.k, x.now);
  }

  function SecondTurn(x: Cast): seq<Event> {
    Continuing(x.n, x.call.task, x.taskClass, x.h2) + [Resume(x.n, x.now)] + Relaunching(x.n, x.session, x.now)
  }

  ghost predicate BothAwaitCompletion(w: World, x: Cast) {
    && Suspended(w, x.c, {AwaitCompletion}) && w.calls[x.c].task == x.call.task && w.calls[x.c].hold == Some(x.h)
    && Suspended(w, x.n, {AwaitCompletion}) && w.calls[x.n].task == x.call.task && w.calls[x.n].hold == Some(x.h2)
    && IsActive(w.ledger, x.h2)
    && x.call.task in w.db.tasks && w.db.tasks[x.call.task].status == Running
  }

  lemma SecondTurnReopens(w: World, x: Cast) returns (w': World)
    requires ValidCast(x) && Balanced(w.ledger) && w.capacity == Some(ROOM) && w.ledger.observations == []
    requires w.calls == map[x.c := x.call.(hold := Some(x.h), point := AwaitCompletion)] && x.h2 !in w.ledger.holds
    requires Continuable(w.db, x.call.task) && w.db.sessions[x.call.task] == x.session
    requires w.db.tasks[x.call.task].provider == x.call.provider
    ensures w' == Run(w, Continuing(x.n, x.call.task, x.taskClass, x.h2) + [Resume(x.n, x.now)]) && Balanced(w'.ledger)
    ensures Suspended(w', x.n, {AwaitResumedRenderer}) && w'.calls[x.n].kind == ContinueCall
    ensures w'.calls[x.n].hold == Some(x.h2) && w'.calls[x.n].session == Some(x.session) && w'.calls[x.n].task == x.call.task
    ensures Lookup(w'.calls, x.c) == Some(w.calls[x.c]) && IsActive(w'.ledger, x.h2)
    ensures x.call.task in w'.db.tasks && w'.db.tasks[x.call.task].status == Starting
  {
    var t := x.call.task;
    RoomAdmits(w.ledger, x.call.provider, x.taskClass, x.h2);
    var w1 := ContinueReserves(w, x.n, t, x.taskClass, x.h2);
    RunSnoc(w, Continuing(x.n, t, x.taskClass, x.h2), Resume(x.n, x.now));
    w' := ContinueReopens(w1, x.n, x.now);
  }

  /** The continuation of the cancelled task, from its reservation to its running turn. */
  lemma SecondTurnRuns(w: World, x: Cast) returns (w': World)
    requires ValidCast(x) && Balanced(w.ledger) && w.capacity == Some(ROOM) && w.ledger.observations == []
    requires w.calls == map[x.c := x.call.(hold := Some(x.h), point := AwaitCompletion)] && x.h2 !in w.ledger.holds
    requires Continuable(w.db, x.call.task) && w.db.sessions[x.call.task] == x.session
    requires w.db.tasks[x.call.task].provider == x.call.provider
    ensures w' == Run(w, SecondTurn(x)) && BothAwaitCompletion(w', x)
  {
    var w1 := SecondTurnReopens(w, x);
    w' := ContinueRuns(w1, x.n, x.session, x.now);
    RunAppend(w, Continuing(x.n, x.call.task, x.taskClass, x.h2) + [Resume(x.n, x.now)], Relaunching(x.n, x.session, x.now));
  }

  /** After a cancellation that has finished and a continuation of the same task, two calls await a
      completion for it, while the newer turn is running. */
  lemma TwoTurnsReached(x: Cast) returns (w: World)
    requires ValidCast(x)
    ensures Balanced(EmptyWorld(Some(ROOM)).ledger) && w == Run(EmptyWorld(Some(ROOM)), TwoTurns(x))
    ensures Consistent(w.db) && Balanced(w.ledger) && BothAwaitCompletion(w, x)
  {
    var w0 := EmptyWorld(Some(ROOM));
    EmptyWorldOk(Some(ROOM));
    var w1 := CancelReached(x);
    RunSnoc(w0, UpToCancel(x), Resume(x.k, x.now));
    var w2 := CancelDone(w1, x);
    w := SecondTurnRuns(w2, x);
    RunAppend(w0, UpToCancel(x) + [Resume(x.k, x.now)], SecondTurn(x));
    RunKeeps(w0, TwoTurns(x));
  }

  /** From an empty store: the old turn's completion ends the new turn, whose own completion is then
      discarded with its hold unpaid. */
  lemma LateCompletionReached(x: Cast, outcome: Outcome, later: Outcome, usage: TurnUsage)
    requires ValidCast(x)
    ensures Balanced(EmptyWorld(Some(ROOM)).ledger)
    ensures var w := Run(EmptyWorld(Some(ROOM)), TwoTurns(x));
            && Balanced(w.ledger) && x.call.task in w.db.tasks
            && var ended := Step(w, TurnCompleted(x.c, outcome, w.db.tasks[x.call.task].provider, usage, x.now));
            && x.call.task in ended.db.tasks && ended.db.tasks[x.call.task].status == outcome
            && Suspended(ended, x.n, {AwaitCompletion}) && WellFormed(ended.ledger)
            && var discarded := Step(ended, TurnCompleted(x.n, later, w.db.tasks[x.call.task].provider, usage, x.now));
            discarded.db == ended.db && x.n !in discarded.calls && IsActive(discarded.ledger, x.h2)
  {
    TransitionTable(Running, outcome);
    var w := TwoTurnsReached(x);
    var ended, discarded := LateCompletionEndsNewTurn(w, x.c, x.n, x.h, x.h2, outcome, later, usage, x.now);
  }

  // ---------------------------------------------------------------- a restart strands a hold

  function UpToRenderer(x: Cast): seq<Event> { Persisting(x.c, x.call, x.taskClass, x.h, x.worktree, x.now) }

  /** A restart while the renderer starts leaves the task in `created` and its hold active. Over every
      later run the hold is released if and only if the task is cancelled and a later restart's release
      loop then comes to the hold. */
  lemma RestartStrandsHold(x: Cast, e: Event, es: seq<Event>)
    requires ValidCast(x) && (e.Restart? || e.CrashedRestart?)
    ensures Balanced(EmptyWorld(Some(ROOM)).ledger)
    ensures var w := Run(EmptyWorld(Some(ROOM)), UpToRenderer(x) + [e]);
            && Balanced(w.ledger) && Stranded(w, x.h) && IsActive(w.ledger, x.h)
            && (!IsActive(Run(w, es).ledger, x.h) <==> CancelledThenVisited(w, es, x.call.task, x.h))
  {
    var w0 := EmptyWorld(Some(ROOM));
    EmptyWorldOk(Some(ROOM));
    RoomAdmits(w0.ledger, x.call.provider, x.taskClass, x.h);
    var w1 := StartPersists(w0, x.c, x.call, x.taskClass, x.h, x.worktree, x.now);
    RunAccounted(w0, UpToRenderer(x));
    RestartLeavesBehind(w1, x.c, x.h, e);
    RunSnoc(w0, UpToRenderer(x), e);
    RunAccounted(w0, UpToRenderer(x) + [e]);
    RunKeeps(w0, UpToRenderer(x) + [e]);
    StrandedEndsExactly(Run(w0, UpToRenderer(x) + [e]), es, x.call.task, x.h);
  }
}
