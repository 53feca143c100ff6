/**
 What every interleaving of coordinator calls keeps: the consistency of the task tables, sessions that
 never change, terminal statuses that only a continuation leaves, and the conservation of usage holds.
 */
module CoordinatorSafety {
  import opened Common
  import opened TaskStore
  import opened Usage
  import opened Coordinator

  // ---------------------------------------------------------------- the task tables

  /** Consistent tables, nothing recorded about a task's provider or session has changed, and no task has
      gone back to `created`. */
  ghost predicate Keeps(db: Tables, db': Tables) {
    && Consistent(db')
    && (forall t :: t in db.sessions ==> t in db'.sessions && db'.sessions[t] == db.sessions[t])
    && (forall t :: t in db.tasks ==>
          && t in db'.tasks
          && db'.tasks[t].provider == db.tasks[t].provider
          && db'.tasks[t].threadId == db.tasks[t].threadId
          && (db'.tasks[t].status == Created ==> db.tasks[t].status == Created))
  }

  /** A terminal task, and its result if it has one, are as they were. */
  ghost predicate TerminalKept(db: Tables, db': Tables, t: TaskId) {
    t in db.tasks && Terminal(db.tasks[t].status) ==>
      && t in db'.tasks && db'.tasks[t].status == db.tasks[t].status
      && db'.tasks[t].completedAt == db.tasks[t].completedAt
      && (t in db.results ==> t in db'.results)
  }

  ghost predicate AllTerminalKept(db: Tables, db': Tables) {
    forall t :: TerminalKept(db, db', t)
  }

  lemma KeepsTransitive(a: Tables, b: Tables, c: Tables)
    requires Keeps(a, b) && AllTerminalKept(a, b) && Keeps(b, c) && AllTerminalKept(b, c)
    ensures Keeps(a, c) && AllTerminalKept(a, c)
  {
    forall t ensures TerminalKept(a, c, t) {
      assert TerminalKept(a, b, t) && TerminalKept(b, c, t);
    }
  }

  lemma LiveTransitionKeeps(db: Tables, id: TaskId, expected: set<Status>, next: Status, now: int)
    requires Consistent(db)
    requires forall s :: s in expected ==> !Terminal(s)
    ensures var r := Transition(db, id, expected, next, now);
            r.Ok? ==> Keeps(db, r.value) && AllTerminalKept(db, r.value)
  {
    if Transition(db, id, expected, next, now).Ok? {
      LiveTransitionConsistent(db, id, expected, next, now);
    }
  }

  lemma SaveKeeps(db: Tables, id: TaskId, provider: Provider, outcome: Outcome)
    requires Consistent(db)
    ensures var r := SaveResult(db, id, provider, outcome);
            r.Ok? ==> Keeps(db, r.value) && AllTerminalKept(db, r.value)
  {
    SaveConsistent(db, id, provider, outcome);
  }

  lemma SettledKeeps(w: World, c: CallId, provider: Provider, usage: TurnUsage)
    requires c in w.calls && w.calls[c].task in w.db.tasks && WellFormed(w.ledger)
    requires Consistent(w.db)
    ensures var w' := Settled(w, c, provider, usage);
            Keeps(w.db, w'.db) && AllTerminalKept(w.db, w'.db)
  {
    var t := w.calls[c].task;
    if Terminal(w.db.tasks[t].status) {
      SaveKeeps(w.db, t, provider, w.db.tasks[t].status);
    }
  }

  lemma EndTurnKeeps(w: World, c: CallId, outcome: Outcome, provider: Provider, usage: TurnUsage, now: int)
    requires c in w.calls && WellFormed(w.ledger) && Consistent(w.db)
    ensures var w' := EndTurn(w, c, outcome, provider, usage, now);
            Keeps(w.db, w'.db) && AllTerminalKept(w.db, w'.db)
  {
    var t := w.calls[c].task;
    if t in w.db.tasks {
      if Terminal(w.db.tasks[t].status) {
        SettledKeeps(w, c, provider, usage);
      } else {
        var moved := Transition(w.db, t, {w.db.tasks[t].status}, outcome, now);
        if moved.Ok? {
          LiveTransitionKeeps(w.db, t, {w.db.tasks[t].status}, outcome, now);
          var w' := w.(db := moved.value);
          SettledKeeps(w', c, provider, usage);
          KeepsTransitive(w.db, w'.db, Settled(w', c, provider, usage).db);
        }
      }
    }
  }

  lemma CreateKeeps(db: Tables, id: TaskId, projectActive: bool, provider: Provider, threadId: ThreadId, worktree: Worktree, now: int)
    requires Consistent(db)
    ensures var r := CreateWithWorktree(db, id, projectActive, provider, threadId, worktree, now);
            r.Ok? ==> Keeps(db, r.value) && AllTerminalKept(db, r.value)
  {
    CreateConsistent(db, id, projectActive, provider, threadId, worktree, now);
  }

  /** Persisting a task either fails or inserts it; the move to `failed` after a failed attach is illegal. */
  lemma WorktreeCreatedTables(w: World, c: CallId, worktree: Worktree, projectActive: bool, now: int)
    requires c in w.calls
    ensures var call := w.calls[c];
            var r := CreateWithWorktree(w.db, call.task, projectActive, call.provider, call.threadId, worktree, now);
            WorktreeCreated(w, c, worktree, projectActive, now).db == if r.Ok? then r.value else w.db
  {
    var call := w.calls[c];
    var r := CreateWithWorktree(w.db, call.task, projectActive, call.provider, call.threadId, worktree, now);
    if r.Ok? {
      assert Transition(r.value, call.task, {Created}, Failed, now) == Err(IllegalTransition);
    }
  }

  lemma WorktreeCreatedKeeps(w: World, c: CallId, worktree: Worktree, projectActive: bool, now: int)
    requires c in w.calls && Consistent(w.db)
    ensures var w' := WorktreeCreated(w, c, worktree, projectActive, now);
            Keeps(w.db, w'.db) && AllTerminalKept(w.db, w'.db)
  {
    var call := w.calls[c];
    CreateKeeps(w.db, call.task, projectActive, call.provider, call.threadId, worktree, now);
    WorktreeCreatedTables(w, c, worktree, projectActive, now);
  }

  lemma NowRunningKeeps(w: World, c: CallId, now: int)
    requires c in w.calls && Consistent(w.db)
    ensures var w' := NowRunning(w, c, now);
            Keeps(w.db, w'.db) && AllTerminalKept(w.db, w'.db)
  {
    LiveTransitionKeeps(w.db, w.calls[c].task, {Starting}, Running, now);
  }

  lemma AttachKeeps(db: Tables, id: TaskId, session: Session)
    requires Consistent(db)
    ensures var r := AttachProviderSession(db, id, session);
            r.Ok? ==> Keeps(db, r.value) && AllTerminalKept(db, r.value)
  {
    AttachConsistent(db, id, session);
  }

  lemma ProviderStartedKeeps(w: World, c: CallId, session: Session, now: int)
    requires c in w.calls && WellFormed(w.ledger) && Consistent(w.db)
    ensures var w' := ProviderStarted(w, c, session, now);
            Keeps(w.db, w'.db) && AllTerminalKept(w.db, w'.db)
  {
    if w.calls[c].kind == StartCall {
      AttachKeeps(w.db, w.calls[c].task, session);
      var r := AttachProviderSession(w.db, w.calls[c].task, session);
      if r.Ok? {
        var w' := w.(db := r.value);
        NowRunningKeeps(w', c, now);
        KeepsTransitive(w.db, w'.db, NowRunning(w', c, now).db);
      }
    } else if w.calls[c].session != Some(session) {
      EndTurnKeeps(w, c, Failed, w.calls[c].provider, TurnUsage(None, 0, true), now);
    } else {
      NowRunningKeeps(w, c, now);
    }
  }

  lemma ReopenedTables(w: World, c: CallId, now: int)
    requires c in w.calls
    ensures var r := ReopenForContinuation(w.db, w.calls[c].task, now);
            Reopened(w, c, now).db == if r.Ok? then r.value else w.db
  {
  }

  lemma ReopenKeeps(db: Tables, t: TaskId, now: int)
    requires Consistent(db) && ReopenForContinuation(db, t, now).Ok?
    ensures var db' := ReopenForContinuation(db, t, now).value;
            && Keeps(db, db') && (forall u :: u != t ==> TerminalKept(db, db', u))
            && db'.tasks[t].status == Starting && t !in db'.results
  {
    ReopenConsistent(db, t, now);
  }

  /** A continuation is the one segment that takes a task out of a terminal status, and only its own. */
  lemma ReopenedKeeps(w: World, c: CallId, now: int)
    requires c in w.calls && Consistent(w.db)
    ensures var w' := Reopened(w, c, now);
            && Keeps(w.db, w'.db)
            && (forall t :: t != w.calls[c].task ==> TerminalKept(w.db, w'.db, t))
            && (w'.db != w.db ==> w'.db.tasks[w.calls[c].task].status == Starting && w.calls[c].task !in w'.db.results)
  {
    ReopenedTables(w, c, now);
    if ReopenForContinuation(w.db, w.calls[c].task, now).Ok? {
      ReopenKeeps(w.db, w.calls[c].task, now);
    }
  }

  lemma ResumedTables(w: World, c: CallId, now: int)
    requires c in w.calls
    ensures var started := Transition(w.db, w.calls[c].task, {Created}, Starting, now);
            var w' := Resumed(w, c, now);
            && (w.calls[c].point == AwaitReservation ==> w' == Reopened(w, c, now))
            && (w.calls[c].point == AwaitRenderer ==> w'.db == if started.Ok? then started.value else w.db)
            && (w.calls[c].point != AwaitReservation && w.calls[c].point != AwaitRenderer ==> w'.db == w.db)
  {
  }

  lemma ResumedKeeps(w: World, c: CallId, now: int)
    requires c in w.calls && Consistent(w.db)
    ensures var w' := Resumed(w, c, now);
            && Keeps(w.db, w'.db)
            && (w.calls[c].point != AwaitReservation ==> AllTerminalKept(w.db, w'.db))
            && (forall t :: t != w.calls[c].task ==> TerminalKept(w.db, w'.db, t))
  {
    ResumedTables(w, c, now);
    if w.calls[c].point == AwaitReservation {
      ReopenedKeeps(w, c, now);
    } else if w.calls[c].point == AwaitRenderer {
      LiveTransitionKeeps(w.db, w.calls[c].task, {Created}, Starting, now);
    }
  }

  /** A cancellation moves its task, and then saves the result of the move. */
  lemma CancellingTables(w: World, c: CallId, t: TaskId, now: int)
    ensures var w' := Cancelling(w, c, t, now);
            || w'.db == w.db
            || (t in w.db.tasks && !Terminal(w.db.tasks[t].status)
                && var moved := Transition(w.db, t, {w.db.tasks[t].status}, Cancelled, now);
                moved.Ok? && (w'.db == moved.value || SaveResult(moved.value, t, w.db.tasks[t].provider, Cancelled) == Ok(w'.db)))
  {
  }

  lemma CancellingKeeps(w: World, c: CallId, t: TaskId, now: int)
    requires Consistent(w.db)
    ensures var w' := Cancelling(w, c, t, now);
            Keeps(w.db, w'.db) && AllTerminalKept(w.db, w'.db)
  {
    var db' := Cancelling(w, c, t, now).db;
    CancellingTables(w, c, t, now);
    if db' != w.db {
      LiveTransitionKeeps(w.db, t, {w.db.tasks[t].status}, Cancelled, now);
      var moved := Transition(w.db, t, {w.db.tasks[t].status}, Cancelled, now).value;
      if db' != moved {
        SaveKeeps(moved, t, w.db.tasks[t].provider, Cancelled);
        KeepsTransitive(w.db, moved, db');
      }
    }
  }

  lemma RecoverTasksKeeps(db: Tables, ids: set<TaskId>, now: int)
    requires Consistent(db)
    ensures Keeps(db, RecoverTasks(db, ids, now)) && AllTerminalKept(db, RecoverTasks(db, ids, now))
  {
    var db' := RecoverTasks(db, ids, now);
    forall t | t in db.tasks
      ensures db'.tasks[t] == db.tasks[t] || (!Terminal(db.tasks[t].status) && db'.tasks[t] == Moved(db.tasks[t], Interrupted, now))
    {
    }
    forall t ensures TaskConsistent(db', t) {
      assert TaskConsistent(db, t);
    }
  }

  lemma WorktreeClosedKeeps(db: Tables, t: TaskId, now: int)
    requires Consistent(db)
    ensures var r := MarkWorktreeRemoved(db, t, now); r.Ok? ==> Keeps(db, r.value) && AllTerminalKept(db, r.value)
  {
    var r := MarkWorktreeRemoved(db, t, now);
    if r.Ok? {
      forall u ensures TaskConsistent(r.value, u) {
        assert TaskConsistent(db, u);
      }
    }
  }

  /** The events that only add, move or drop calls, or forget the renderers. */
  predicate LeavesTables(e: Event) {
    e.StartTask? || e.ThreadReady? || e.ContinueTask? || e.AvailabilityChecked? || e.Shutdown?
  }

  lemma TablesLeft(w: World, e: Event)
    requires WellFormed(w.ledger) && LeavesTables(e)
    ensures Step(w, e).db == w.db
  {
  }

  lemma ProviderReadyKeeps(w: World, c: CallId, started: Option<Session>, now: int)
    requires WellFormed(w.ledger) && Consistent(w.db) && Suspended(w, c, {AwaitProvider})
    ensures Keeps(w.db, Step(w, ProviderReady(c, started, now)).db)
    ensures AllTerminalKept(w.db, Step(w, ProviderReady(c, started, now)).db)
  {
    var w' := w.(startingTasks := w.startingTasks - {w.calls[c].task});
    if started.Some? {
      ProviderStartedKeeps(w', c, started.value, now);
    } else {
      EndTurnKeeps(w', c, Failed, w.calls[c].provider, TurnUsage(None, 0, true), now);
    }
  }

  lemma TurnCompletedKeeps(w: World, c: CallId, outcome: Outcome, provider: Provider, usage: TurnUsage, now: int)
    requires WellFormed(w.ledger) && Consistent(w.db) && c in w.calls
    ensures var w' := Finalize(w, c, outcome, provider, usage, now);
            Keeps(w.db, w'.db) && AllTerminalKept(w.db, w'.db)
  {
    EndTurnKeeps(w, c, outcome, provider, usage, now);
  }

  lemma TurnEventKeeps(w: World, e: Event)
    requires WellFormed(w.ledger) && Consistent(w.db) && (e.WorktreeReady? || e.ProviderReady? || e.TurnCompleted?)
    ensures Keeps(w.db, Step(w, e).db) && AllTerminalKept(w.db, Step(w, e).db)
  {
    if e.c in w.calls {
      match e
      case WorktreeReady(c, created, projectActive, now) =>
        if created.Some? { WorktreeCreatedKeeps(w, c, created.value, projectActive, now); }
      case ProviderReady(c, started, now) => if Suspended(w, c, {AwaitProvider}) { ProviderReadyKeeps(w, c, started, now); }
      case TurnCompleted(c, outcome, provider, usage, now) => TurnCompletedKeeps(w, c, outcome, provider, usage, now);
    }
  }

  lemma OtherEventKeeps(w: World, e: Event)
    requires WellFormed(w.ledger) && Consistent(w.db)
    requires e.CancelTask? || e.DecisionOpened? || e.DecisionClosed? || e.WorktreeClosed? || e.Restart? || e.CrashedRestart?
    ensures Keeps(w.db, Step(w, e).db) && AllTerminalKept(w.db, Step(w, e).db)
  {
    match e
    case CancelTask(c, task, now) => CancellingKeeps(w, c, task, now);
    case DecisionOpened(task, now) => LiveTransitionKeeps(w.db, task, {Running}, WaitingForUser, now);
    case DecisionClosed(task, now) => LiveTransitionKeeps(w.db, task, {WaitingForUser}, Running, now);
    case WorktreeClosed(task, now) => WorktreeClosedKeeps(w.db, task, now);
    case Restart(now) => RecoverTasksKeeps(w.db, w.db.tasks.Keys, now);
    case CrashedRestart(tasks, _, now) => RecoverTasksKeeps(w.db, tasks, now);
  }

  /** Every event keeps the tables consistent, never changes a session or a provider, and leaves every
      terminal task as it is unless it is the reopening of that task by a continuation. */
  lemma StepKeeps(w: World, e: Event)
    requires WellFormed(w.ledger) && Consistent(w.db)
    ensures Keeps(w.db, Step(w, e).db)
    ensures forall t :: TerminalKept(w.db, Step(w, e).db, t)
                        || (e.Resume? && Suspended(w, e.c, {AwaitReservation}) && w.calls[e.c].task == t)
  {
    if LeavesTables(e) {
      TablesLeft(w, e);
    } else if e.Resume? {
      if e.c in w.calls { ResumedKeeps(w, e.c, e.now); }
    } else if e.WorktreeReady? || e.ProviderReady? || e.TurnCompleted? {
      TurnEventKeeps(w, e);
    } else {
      OtherEventKeeps(w, e);
    }
  }

  /** Over every run of any calls, cancellations and restarts included: the tables stay consistent, the
      observations match the consumed holds, and no session or provider of a task ever changes. */
  lemma {:induction false} RunKeeps(w: World, es: seq<Event>)
    requires Balanced(w.ledger) && Consistent(w.db)
    ensures Balanced(Run(w, es).ledger)
    ensures Keeps(w.db, Run(w, es).db)
    decreases |es|
  {
    if es != [] {
      StepBalanced(w, es[0]);
      StepKeeps(w, es[0]);
      RunKeeps(Step(w, es[0]), es[1..]);
    }
  }
}
