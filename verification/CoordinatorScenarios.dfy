/**
 The undisturbed runs of the coordinator: a new task from its reservation to its stored result, and a
 continuation of a finished task up to its running turn.
 */
module CoordinatorScenarios {
  import opened Common
  import opened TaskStore
  import opened Usage
  import opened Coordinator
  import opened CoordinatorSafety
  import opened HoldConservation

  // ---------------------------------------------------------------- an undisturbed new task

  /** The three events from the reservation to the persisted task. */
  function Persisting(c: CallId, call: Call, taskClass: TaskClass, hold: HoldId, worktree: Worktree, now: int): seq<Event> {
    [StartTask(c, call.task, call.provider, call.threadId, taskClass, hold), ThreadReady(c, true)]
    + [WorktreeReady(c, Some(worktree), true, now)]
  }

  /** The four events from the persisted task to a running turn. */
  function Launching(c: CallId, session: Session, now: int): seq<Event> {
    [Resume(c, now), Resume(c, now)] + [ProviderReady(c, Some(session), now)] + [Resume(c, now)]
  }

  /** A new task's own call, as it stands when the reservation is made. */
  predicate FreshStart(w: World, c: CallId, call: Call) {
    && c !in w.calls
    && call == Call(StartCall, call.task, call.provider, call.threadId, None, None, AwaitThread, false)
  }

  lemma StartReserves(w: World, c: CallId, call: Call, taskClass: TaskClass, hold: HoldId) returns (w': World)
    requires Balanced(w.ledger) && FreshStart(w, c, call) && w.capacity.Some?
    requires Reserve(w.ledger, w.capacity.value, call.provider, taskClass, hold).Ok?
    ensures w' == Run(w, [StartTask(c, call.task, call.provider, call.threadId, taskClass, hold), ThreadReady(c, true)])
    ensures w' == w.(ledger := w'.ledger, calls := w.calls[c := call.(hold := Some(hold), point := AwaitWorktree)])
    ensures IsActive(w'.ledger, hold) && w'.ledger.holds[hold].taskId.None? && Balanced(w'.ledger)
    ensures w'.ledger.holds.Keys == w.ledger.holds.Keys + {hold} && w'.ledger.observations == w.ledger.observations
  {
    var e := StartTask(c, call.task, call.provider, call.threadId, taskClass, hold);
    RunOne(w, e);
    RunSnoc(w, [e], ThreadReady(c, true));
    assert [e] + [ThreadReady(c, true)] == [e, ThreadReady(c, true)];
    w' := Step(Step(w, e), ThreadReady(c, true));
  }

  function Inserted(db: Tables, call: Call, worktree: Worktree, now: int): Tables {
    db.(tasks := db.tasks[call.task := Task(call.provider, call.threadId, Created, now, now, None, None)],
        worktrees := db.worktrees[call.task := worktree.(removedAt := None)])
  }

  /** From the reservation to the persisted task with its hold attached. */
  lemma StartPersists(w: World, c: CallId, call: Call, taskClass: TaskClass, hold: HoldId, worktree: Worktree, now: int)
    returns (w': World)
    requires Balanced(w.ledger) && FreshStart(w, c, call) && w.capacity.Some?
    requires Reserve(w.ledger, w.capacity.value, call.provider, taskClass, hold).Ok?
    requires UniqueKeysFree(w.db, call.task, call.threadId, worktree)
    ensures w' == Run(w, Persisting(c, call, taskClass, hold, worktree, now))
    ensures Persisted(w, w', c, call, hold, worktree, now)
  {
    var w2 := StartReserves(w, c, call, taskClass, hold);
    w' := ReservedPersists(w, w2, c, call, hold, worktree, now);
    RunSnoc(w, [StartTask(c, call.task, call.provider, call.threadId, taskClass, hold), ThreadReady(c, true)],
            WorktreeReady(c, Some(worktree), true, now));
  }

  lemma ReservedPersists(w: World, w2: World, c: CallId, call: Call, hold: HoldId, worktree: Worktree, now: int)
    returns (w': World)
    requires FreshStart(w, c, call) && UniqueKeysFree(w.db, call.task, call.threadId, worktree)
    requires w2 == w.(ledger := w2.ledger, calls := w.calls[c := call.(hold := Some(hold), point := AwaitWorktree)])
    requires IsActive(w2.ledger, hold) && w2.ledger.holds[hold].taskId.None? && Balanced(w2.ledger)
    requires w2.ledger.holds.Keys == w.ledger.holds.Keys + {hold} && w2.ledger.observations == w.ledger.observations
    ensures w' == Step(w2, WorktreeReady(c, Some(worktree), true, now))
    ensures Persisted(w, w', c, call, hold, worktree, now)
  {
    w' := Step(w2, WorktreeReady(c, Some(worktree), true, now));
    StepBalanced(w2, WorktreeReady(c, Some(worktree), true, now));
    CreatedAttaches(w2, c, hold, worktree, now);
  }

  /** Persisting the task with a reserved hold. */
  lemma CreatedAttaches(w: World, c: CallId, hold: HoldId, worktree: Worktree, now: int)
    requires c in w.calls && w.calls[c].hold == Some(hold) && IsActive(w.ledger, hold) && w.ledger.holds[hold].taskId.None?
    requires UniqueKeysFree(w.db, w.calls[c].task, w.calls[c].threadId, worktree)
    ensures var call := w.calls[c];
            var w' := WorktreeCreated(w, c, worktree, true, now);
            && w'.calls == w.calls[c := call.(point := AwaitRenderer)] && w'.capacity == w.capacity
            && w'.db == Inserted(w.db, call, worktree, now)
            && w'.activeReservations == w.activeReservations[call.task := hold] && call.task in w'.activeRenderers
            && w'.ledger == w.ledger.(holds := w.ledger.holds[hold := w.ledger.holds[hold].(taskId := Some(call.task))])
  {
    var db := CreateWithWorktree(w.db, w.calls[c].task, true, w.calls[c].provider, w.calls[c].threadId, worktree, now).value;
    assert Attached(w.(db := db), c).Some?;
  }

  lemma StartLaunches(w: World, c: CallId, now: int) returns (w': World)
    requires Balanced(w.ledger) && Suspended(w, c, {AwaitRenderer}) && w.calls[c].kind == StartCall
    requires w.calls[c].task in w.db.tasks && w.db.tasks[w.calls[c].task].status == Created
    ensures w' == Run(w, [Resume(c, now), Resume(c, now)])
    ensures var t := w.calls[c].task;
            w' == w.(db := w.db.(tasks := w.db.tasks[t := Moved(w.db.tasks[t], Starting, now)]),
                     calls := w.calls[c := w.calls[c].(point := AwaitProvider, cancelled := false)],
                     startingTasks := w.startingTasks[t := c])
  {
    var t := w.calls[c].task;
    RunOne(w, Resume(c, now));
    RunSnoc(w, [Resume(c, now)], Resume(c, now));
    assert [Resume(c, now)] + [Resume(c, now)] == [Resume(c, now), Resume(c, now)];
    var w1 := Step(w, Resume(c, now));
    assert w1 == At(w.(db := Transition(w.db, t, {Created}, Starting, now).value), c, AwaitStartingCard);
    w' := Step(w1, Resume(c, now));
  }

  /** The provider's session is attached and the turn runs. */
  lemma SessionRuns(w: World, c: CallId, session: Session, now: int) returns (w': World)
    requires Balanced(w.ledger) && Suspended(w, c, {AwaitProvider}) && w.calls[c].kind == StartCall && !w.calls[c].cancelled
    requires var t := w.calls[c].task;
             && t in w.db.tasks && w.db.tasks[t].status == Starting && t !in w.db.sessions
             && w.db.tasks[t].provider == session.provider
    requires forall u :: u in w.db.sessions ==> w.db.sessions[u] != session
    ensures Balanced(Step(w, ProviderReady(c, Some(session), now)).ledger)
    ensures w' == Step(Step(w, ProviderReady(c, Some(session), now)), Resume(c, now))
    ensures var t := w.calls[c].task;
            && w'.calls == w.calls[c := w.calls[c].(point := AwaitCompletion)]
            && w'.db == w.db.(tasks := w.db.tasks[t := Moved(w.db.tasks[t], Running, now)], sessions := w.db.sessions[t := session])
            && w'.ledger == w.ledger && w'.activeReservations == w.activeReservations && w'.activeRenderers == w.activeRenderers
            && w'.capacity == w.capacity
  {
    var t := w.calls[c].task;
    var attached := AttachProviderSession(w.db, t, session);
    assert attached == Ok(w.db.(sessions := w.db.sessions[t := session]));
    var w3 := Step(w, ProviderReady(c, Some(session), now));
    assert w3 == NowRunning(w.(startingTasks := w.startingTasks - {t}, db := attached.value), c, now);
    w' := Step(w3, Resume(c, now));
    assert w' == At(w3, c, AwaitCompletion);
  }

  /** From the persisted task to a running turn. */
  lemma StartRuns(w: World, c: CallId, session: Session, now: int) returns (w': World)
    requires Balanced(w.ledger) && Suspended(w, c, {AwaitRenderer}) && w.calls[c].kind == StartCall
    requires var t := w.calls[c].task;
             && t in w.db.tasks && w.db.tasks[t].status == Created && t !in w.db.sessions
             && w.db.tasks[t].provider == session.provider
    requires forall u :: u in w.db.sessions ==> w.db.sessions[u] != session
    ensures w' == Run(w, Launching(c, session, now))
    ensures var t := w.calls[c].task;
            && w'.calls == w.calls[c := w.calls[c].(point := AwaitCompletion, cancelled := false)]
            && t in w'.db.tasks && w'.db.tasks[t].status == Running && w'.db.tasks[t].provider == session.provider
            && w'.db.sessions == w.db.sessions[t := session]
            && w'.db.results == w.db.results && w'.db.worktrees == w.db.worktrees && w'.capacity == w.capacity
            && w'.ledger == w.ledger && w'.activeReservations == w.activeReservations && w'.activeRenderers == w.activeRenderers
  {
    var w2 := StartLaunches(w, c, now);
    var start := [Resume(c, now), Resume(c, now)];
    var e := ProviderReady(c, Some(session), now);
    RunSnoc(w, start, e);
    RunSnoc(w, start + [e], Resume(c, now));
    w' := SessionRuns(w2, c, session, now);
  }

  /** A running turn that completes settles its task and its hold. */
  lemma TurnSettles(w: World, c: CallId, hold: HoldId, outcome: Outcome, usage: TurnUsage, now: int) returns (w': World)
    requires WellFormed(w.ledger) && Suspended(w, c, {AwaitCompletion})
    requires w.calls[c].hold == Some(hold) && IsActive(w.ledger, hold)
    requires var t := w.calls[c].task;
             t in w.db.tasks && w.db.tasks[t].status == Running && t !in w.db.results
    ensures var t := w.calls[c].task;
            && WellFormed(w'.ledger)
            && w' == Step(w, TurnCompleted(c, outcome, w.db.tasks[t].provider, usage, now))
            && w'.calls == w.calls[c := w.calls[c].(point := AwaitClosing)]
            && w'.db.tasks == w.db.tasks[t := Moved(w.db.tasks[t], outcome, now)]
            && w'.db.results == w.db.results[t := outcome]
            && w'.ledger == Complete(w.ledger, hold, usage.(failed := outcome == Failed))
  {
    var t := w.calls[c].task;
    var provider := w.db.tasks[t].provider;
    w' := Step(w, TurnCompleted(c, outcome, provider, usage, now));
    TransitionTable(Running, outcome);
    var moved := Transition(w.db, t, {Running}, outcome, now);
    assert moved.Ok?;
    assert SaveResult(moved.value, t, provider, outcome).Ok?;
    assert w' == Settled(w.(db := moved.value), c, provider, usage);
  }

  /** A turn that completes and closes: the hold is consumed for exactly what the turn cost, the result
      carries the provider's outcome, and the call is gone. */
  lemma TurnEnds(w: World, c: CallId, hold: HoldId, outcome: Outcome, usage: TurnUsage, now: int) returns (w': World)
    requires Balanced(w.ledger) && Suspended(w, c, {AwaitCompletion})
    requires w.calls[c].hold == Some(hold) && IsActive(w.ledger, hold)
    requires var t := w.calls[c].task;
             t in w.db.tasks && w.db.tasks[t].status == Running && t !in w.db.results
    ensures var t := w.calls[c].task;
            && w' == Run(w, [TurnCompleted(c, outcome, w.db.tasks[t].provider, usage, now), Resume(c, now)])
            && w'.calls == w.calls - {c}
            && t in w'.db.tasks && w'.db.tasks[t].status == outcome && Lookup(w'.db.results, t) == Some(outcome)
            && w'.ledger == Complete(w.ledger, hold, usage.(failed := outcome == Failed))
  {
    var e := TurnCompleted(c, outcome, w.db.tasks[w.calls[c].task].provider, usage, now);
    RunOne(w, e);
    RunSnoc(w, [e], Resume(c, now));
    assert [e] + [Resume(c, now)] == [e, Resume(c, now)];
    var completed := TurnSettles(w, c, hold, outcome, usage, now);
    w' := ClosingEnds(completed, c, now);
    assert completed.calls - {c} == w.calls - {c};
  }

  /** The world just after the task was persisted, in terms of the one before its reservation. */
  ghost predicate Persisted(w: World, p: World, c: CallId, call: Call, hold: HoldId, worktree: Worktree, now: int) {
    && Balanced(p.ledger) && IsActive(p.ledger, hold) && p.ledger.observations == w.ledger.observations
    && p.ledger.holds.Keys == w.ledger.holds.Keys + {hold}
    && p.calls == w.calls[c := call.(hold := Some(hold), point := AwaitRenderer)]
    && p.db == Inserted(w.db, call, worktree, now) && p.capacity == w.capacity
    && p.activeReservations == w.activeReservations[call.task := hold] && call.task in p.activeRenderers
  }

  /** The world once its turn is running. */
  ghost predicate TurnRunning(w: World, r: World, c: CallId, call: Call, hold: HoldId, worktree: Worktree, session: Session) {
    && Balanced(r.ledger) && IsActive(r.ledger, hold) && r.ledger.observations == w.ledger.observations
    && r.ledger.holds.Keys == w.ledger.holds.Keys + {hold}
    && r.calls == w.calls[c := call.(hold := Some(hold), point := AwaitCompletion)]
    && call.task in r.db.tasks && r.db.tasks[call.task].status == Running
    && r.db.tasks[call.task].provider == call.provider && call.task !in r.db.results
    && Lookup(r.db.sessions, call.task) == Some(session)
    && Lookup(r.db.worktrees, call.task) == Some(worktree.(removedAt := None))
    && Lookup(r.activeReservations, call.task) == Some(hold) && call.task in r.activeRenderers
    && r.capacity == w.capacity
  }

  lemma PersistedRuns(w: World, p: World, c: CallId, call: Call, hold: HoldId, worktree: Worktree, session: Session, now: int)
    returns (running: World)
    requires FreshStart(w, c, call) && Persisted(w, p, c, call, hold, worktree, now)
    requires call.task !in w.db.sessions && call.task !in w.db.results
    requires session.provider == call.provider && forall t :: t in w.db.sessions ==> w.db.sessions[t] != session
    ensures running == Run(p, Launching(c, session, now)) && TurnRunning(w, running, c, call, hold, worktree, session)
  {
    running := StartRuns(p, c, session, now);
  }

  lemma StartReachesRunning(w: World, c: CallId, call: Call, taskClass: TaskClass, hold: HoldId, worktree: Worktree,
                            session: Session, now: int)
    returns (running: World)
    requires Balanced(w.ledger) && FreshStart(w, c, call) && w.capacity.Some?
    requires Reserve(w.ledger, w.capacity.value, call.provider, taskClass, hold).Ok?
    requires UniqueKeysFree(w.db, call.task, call.threadId, worktree)
    requires call.task !in w.db.sessions && call.task !in w.db.results
    requires session.provider == call.provider && forall t :: t in w.db.sessions ==> w.db.sessions[t] != session
    ensures running == Run(w, Persisting(c, call, taskClass, hold, worktree, now) + Launching(c, session, now))
    ensures TurnRunning(w, running, c, call, hold, worktree, session)
  {
    var persisted := StartPersists(w, c, call, taskClass, hold, worktree, now);
    running := PersistedRuns(w, persisted, c, call, hold, worktree, session, now);
    RunAppend(w, Persisting(c, call, taskClass, hold, worktree, now), Launching(c, session, now));
  }

  /** A new task that nobody disturbs reaches a running turn and then ends: its session is attached, its
      hold is consumed for exactly what the turn cost, its result carries the provider's outcome, one
      observation is added, and no call is left. */
  lemma UndisturbedStart(w: World, c: CallId, call: Call, taskClass: TaskClass, hold: HoldId, worktree: Worktree,
                         session: Session, outcome: Outcome, usage: TurnUsage, now: int)
    returns (running: World, done: World)
    requires Balanced(w.ledger) && FreshStart(w, c, call) && w.capacity.Some?
    requires Reserve(w.ledger, w.capacity.value, call.provider, taskClass, hold).Ok?
    requires UniqueKeysFree(w.db, call.task, call.threadId, worktree)
    requires call.task !in w.db.sessions && call.task !in w.db.results
    requires session.provider == call.provider && forall t :: t in w.db.sessions ==> w.db.sessions[t] != session
    ensures running == Run(w, Persisting(c, call, taskClass, hold, worktree, now) + Launching(c, session, now))
    ensures Balanced(running.ledger)
    ensures done == Run(running, [TurnCompleted(c, outcome, call.provider, usage, now), Resume(c, now)])
    ensures Lookup(running.db.sessions, call.task) == Some(session) && IsActive(running.ledger, hold)
    ensures done.calls == w.calls && Lookup(done.db.results, call.task) == Some(outcome)
    ensures call.task in done.db.tasks && done.db.tasks[call.task].status == outcome
    ensures done.ledger == Complete(running.ledger, hold, usage.(failed := outcome == Failed))
    ensures |done.ledger.observations| == |w.ledger.observations| + 1
  {
    running := StartReachesRunning(w, c, call, taskClass, hold, worktree, session, now);
    assert running.calls[c].hold == Some(hold) && running.calls[c].task == call.task;
    done := TurnEnds(running, c, hold, outcome, usage, now);
    assert running.calls - {c} == w.calls;
  }

  lemma ClosingEnds(w: World, c: CallId, now: int) returns (w': World)
    requires WellFormed(w.ledger) && Suspended(w, c, {AwaitClosing})
    ensures w' == Step(w, Resume(c, now))
    ensures w'.calls == w.calls - {c} && w'.db == w.db && w'.ledger == w.ledger
  {
    w' := Step(w, Resume(c, now));
  }

  /** A completion that finds a result already stored changes nothing durable and forgets the hold. */
  lemma DiscardedCompletion(w: World, c: CallId, outcome: Outcome, provider: Provider, usage: TurnUsage, now: int)
    returns (w': World)
    requires WellFormed(w.ledger) && Suspended(w, c, {AwaitCompletion})
    requires w.calls[c].task in w.db.tasks && w.calls[c].task in w.db.results
    ensures w' == Step(w, TurnCompleted(c, outcome, provider, usage, now))
    ensures w'.db == w.db && w'.ledger == w.ledger && w'.calls == w.calls - {c}
    ensures w'.activeReservations == w.activeReservations - {w.calls[c].task}
  {
    w' := Step(w, TurnCompleted(c, outcome, provider, usage, now));
  }

  // ---------------------------------------------------------------- an undisturbed continuation

  /** The two events from a finished task to a continuation with its reservation. */
  function Continuing(n: CallId, t: TaskId, taskClass: TaskClass, hold: HoldId): seq<Event> {
    [ContinueTask(n, t), AvailabilityChecked(n, true, taskClass, hold)]
  }

  /** The events from the reopening to the running turn. */
  function Relaunching(n: CallId, session: Session, now: int): seq<Event> {
    [Resume(n, now), ProviderReady(n, Some(session), now)] + [Resume(n, now)]
  }

  predicate Continuable(db: Tables, t: TaskId) {
    && t in db.tasks && Terminal(db.tasks[t].status) && t in db.sessions
    && t in db.worktrees && db.worktrees[t].removedAt.None?
  }

  /** The continuation's call, as it stands with its reservation. */
  function Continuation(db: Tables, t: TaskId, hold: HoldId): Call
    requires Continuable(db, t)
  {
    Call(ContinueCall, t, db.tasks[t].provider, db.tasks[t].threadId, Some(hold), Some(db.sessions[t]), AwaitReservation, false)
  }

  lemma ContinueReserves(w: World, n: CallId, t: TaskId, taskClass: TaskClass, hold: HoldId) returns (w': World)
    requires Balanced(w.ledger) && n !in w.calls && Continuable(w.db, t) && w.capacity.Some?
    requires Reserve(w.ledger, w.capacity.value, w.db.tasks[t].provider, taskClass, hold).Ok?
    ensures w' == Run(w, Continuing(n, t, taskClass, hold)) && Balanced(w'.ledger)
    ensures w' == w.(ledger := w'.ledger, calls := w.calls[n := Continuation(w.db, t, hold)])
    ensures hold !in w.ledger.holds && IsActive(w'.ledger, hold) && w'.ledger.holds[hold].taskId.None?
    ensures forall id :: id in w.ledger.holds ==> id in w'.ledger.holds && w'.ledger.holds[id] == w.ledger.holds[id]
  {
    var e := ContinueTask(n, t);
    RunOne(w, e);
    RunSnoc(w, [e], AvailabilityChecked(n, true, taskClass, hold));
    assert [e] + [AvailabilityChecked(n, true, taskClass, hold)] == Continuing(n, t, taskClass, hold);
    w' := Step(Step(w, e), AvailabilityChecked(n, true, taskClass, hold));
  }

  /** The reopening: the stored result goes, and the new hold replaces whatever was registered. */
  lemma ContinueReopens(w: World, n: CallId, now: int) returns (w': World)
    requires Balanced(w.ledger) && Suspended(w, n, {AwaitReservation}) && w.calls[n].hold.Some?
    requires Continuable(w.db, w.calls[n].task)
    requires IsActive(w.ledger, w.calls[n].hold.value) && w.ledger.holds[w.calls[n].hold.value].taskId.None?
    ensures w' == Step(w, Resume(n, now)) && Balanced(w'.ledger)
    ensures var t := w.calls[n].task;
            && w'.db == w.db.(results := w.db.results - {t},
                              tasks := w.db.tasks[t := w.db.tasks[t].(status := Starting, completedAt := None, updatedAt := now)])
            && w'.calls == w.calls[n := w.calls[n].(point := AwaitResumedRenderer)]
            && AttachTask(w.ledger, w.calls[n].hold.value, t) == Ok(w'.ledger)
            && w'.activeReservations == w.activeReservations[t := w.calls[n].hold.value]
            && w'.activeRenderers == w.activeRenderers[t := n] && w'.capacity == w.capacity
  {
    StepBalanced(w, Resume(n, now));
    w' := Step(w, Resume(n, now));
    assert Attached(w.(db := w'.db), n).Some?;
  }

  lemma ContinueAnswered(w: World, n: CallId, session: Session, now: int) returns (w': World)
    requires Balanced(w.ledger) && Suspended(w, n, {AwaitProvider})
    requires w.calls[n].kind == ContinueCall && w.calls[n].session == Some(session)
    requires var t := w.calls[n].task; t in w.db.tasks && w.db.tasks[t].status == Starting
    ensures w' == Step(w, ProviderReady(n, Some(session), now))
    ensures var t := w.calls[n].task;
            && w'.calls == w.calls[n := w.calls[n].(point := AwaitRunningCard)]
            && w'.db == w.db.(tasks := w.db.tasks[t := Moved(w.db.tasks[t], Running, now)]) && w'.ledger == w.ledger
  {
    var w1 := w.(startingTasks := w.startingTasks - {w.calls[n].task});
    w' := Step(w, ProviderReady(n, Some(session), now));
    assert w' == NowRunning(w1, n, now);
  }

  /** From the reopening to a running turn with the session the task already had. */
  lemma ContinueRuns(w: World, n: CallId, session: Session, now: int) returns (w': World)
    requires Balanced(w.ledger) && Suspended(w, n, {AwaitResumedRenderer})
    requires w.calls[n].kind == ContinueCall && w.calls[n].session == Some(session)
    requires var t := w.calls[n].task; t in w.db.tasks && w.db.tasks[t].status == Starting
    ensures w' == Run(w, Relaunching(n, session, now)) && Balanced(w'.ledger)
    ensures var t := w.calls[n].task;
            && w'.calls == w.calls[n := w.calls[n].(point := AwaitCompletion)]
            && w'.db == w.db.(tasks := w.db.tasks[t := Moved(w.db.tasks[t], Running, now)]) && w'.ledger == w.ledger
  {
    var first, second := Resume(n, now), ProviderReady(n, Some(session), now);
    RunOne(w, first);
    RunSnoc(w, [first], second);
    assert [first] + [second] == [first, second];
    RunSnoc(w, [first, second], first);
    var w1 := Step(w, first);
    assert w1 == At(w, n, AwaitProvider);
    var w2 := ContinueAnswered(w1, n, session, now);
    w' := Step(w2, first);
    assert w' == At(w2, n, AwaitCompletion);
  }
}
