/**
 What each segment of the coordinator does, exactly: which calls go on and where they wait next, what
 becomes of the task's row, result and session, and what becomes of the hold.
 */
module CoordinatorLaws {
  import opened Common
  import opened TaskStore
  import opened Usage
  import opened Coordinator
  import opened CoordinatorSafety
  import opened HoldConservation
  import opened HoldAccounting
  import opened HoldTracing
  import opened CancellationRaces
  import opened LateCompletion

  /** The ledger after a call has given its hold back. */
  function GivenBack(l: Ledger, hold: Option<HoldId>): Ledger {
    if hold.Some? && hold.value in l.holds && l.holds[hold.value].status == HoldActive
    then l.(holds := l.holds[hold.value := l.holds[hold.value].(status := HoldReleased, actualCost := None)]) else l
  }

  /** The ledger after a turn has paid for itself. */
  function Paid(l: Ledger, hold: Option<HoldId>, usage: TurnUsage): Ledger
    requires WellFormed(l)
  {
    if hold.Some? then Complete(l, hold.value, usage) else l
  }

  /** The call moves on and nothing else changes. */
  predicate GoesOn(w: World, w': World, c: CallId, point: Point)
    requires c in w.calls
  {
    w' == w.(calls := w.calls[c := w.calls[c].(point := point)])
  }

  // ---------------------------------------------------------------- a new task

  /** A new task's call begins with its hold, or not at all. */
  lemma StartExactly(w: World, c: CallId, task: TaskId, provider: Provider, threadId: ThreadId, taskClass: TaskClass, hold: HoldId)
    requires WellFormed(w.ledger) && c !in w.calls
    ensures var w' := Step(w, StartTask(c, task, provider, threadId, taskClass, hold));
            var call := Call(StartCall, task, provider, threadId, None, None, AwaitThread, false);
            match w.capacity
            case None => w' == w.(calls := w.calls[c := call])
            case Some(capacity) =>
              match Reserve(w.ledger, capacity, provider, taskClass, hold)
              case Err(_) => w' == w
              case Ok(l) => w' == w.(ledger := l, calls := w.calls[c := call.(hold := Some(hold))])
  {
    assert w.calls - {c} == w.calls;
  }

  /** A start that fails before its task exists gives its hold back and is gone; otherwise it goes on. */
  lemma BeforeTask(w: World, c: CallId, ok: bool, now: int)
    requires WellFormed(w.ledger) && Accounted(w)
    ensures Suspended(w, c, {AwaitThread}) && ok ==> GoesOn(w, Step(w, ThreadReady(c, ok)), c, AwaitWorktree)
    ensures Suspended(w, c, {AwaitThread}) && !ok ==>
              Step(w, ThreadReady(c, ok)) == w.(ledger := GivenBack(w.ledger, w.calls[c].hold), calls := w.calls - {c})
    ensures Suspended(w, c, {AwaitWorktree}) ==>
              Step(w, WorktreeReady(c, None, ok, now)) == w.(ledger := GivenBack(w.ledger, w.calls[c].hold), calls := w.calls - {c})
    ensures Suspended(w, c, {AwaitWorktreeRemoval}) ==>
              Step(w, Resume(c, now)) == w.(ledger := GivenBack(w.ledger, w.calls[c].hold), calls := w.calls - {c})
  {
    if c in w.calls {
      assert CallFits(w, c);
    }
  }

  /** The worktree is there: either it is removed again, because the task cannot be inserted, or the task is
      inserted with the hold attached and registered and the renderer starting. */
  lemma PersistedExactly(w: World, c: CallId, worktree: Worktree, projectActive: bool, now: int)
    requires WellFormed(w.ledger) && Accounted(w) && Suspended(w, c, {AwaitWorktree})
    ensures var call := w.calls[c];
            var w' := Step(w, WorktreeReady(c, Some(worktree), projectActive, now));
            match CreateWithWorktree(w.db, call.task, projectActive, call.provider, call.threadId, worktree, now)
            case Err(_) => GoesOn(w, w', c, AwaitWorktreeRemoval)
            case Ok(db) =>
              && w'.db == db && w'.calls == w.calls[c := call.(point := AwaitRenderer)]
              && w'.activeRenderers == w.activeRenderers[call.task := c] && w'.startingTasks == w.startingTasks
              && (if call.hold.Some? then
                    && w'.ledger == AttachedLedger(w.ledger, call.hold.value, call.task)
                    && w'.activeReservations == w.activeReservations[call.task := call.hold.value]
                  else w'.ledger == w.ledger && w'.activeReservations == w.activeReservations)
  {
    assert CallFits(w, c);
    var call := w.calls[c];
    var r := CreateWithWorktree(w.db, call.task, projectActive, call.provider, call.threadId, worktree, now);
    AttachNeverFails(w, c);
    if r.Ok? {
      assert Attached(w.(db := r.value), c).Some?;
    }
  }

  /** The hold belongs to the task now. */
  function AttachedLedger(l: Ledger, h: HoldId, t: TaskId): Ledger {
    if h in l.holds then l.(holds := l.holds[h := l.holds[h].(taskId := Some(t))]) else l
  }

  /** The persisted task starts, unless it has been cancelled meanwhile; then its hold is given back. */
  lemma RendererExactly(w: World, c: CallId, now: int)
    requires WellFormed(w.ledger) && Accounted(w) && Suspended(w, c, {AwaitRenderer}) && w.calls[c].task in w.db.tasks
    ensures var t := w.calls[c].task;
            var w' := Step(w, Resume(c, now));
            if w.db.tasks[t].status == Created then
              GoesOn(w.(db := w.db.(tasks := w.db.tasks[t := Moved(w.db.tasks[t], Starting, now)])), w', c, AwaitStartingCard)
            else w' == w.(ledger := GivenBack(w.ledger, w.calls[c].hold), calls := w.calls - {c})
  {
    assert CallFits(w, c);
    TransitionTable(Created, Starting);
  }

  /** The awaits in which only the renderer is busy. */
  lemma CardsExactly(w: World, c: CallId, now: int)
    requires WellFormed(w.ledger)
    ensures Suspended(w, c, {AwaitStartingCard}) ==>
              Step(w, Resume(c, now)) ==
                w.(startingTasks := w.startingTasks[w.calls[c].task := c],
                   calls := w.calls[c := w.calls[c].(point := AwaitProvider, cancelled := false)])
    ensures Suspended(w, c, {AwaitResumedRenderer}) ==> GoesOn(w, Step(w, Resume(c, now)), c, AwaitProvider)
    ensures Suspended(w, c, {AwaitRunningCard}) ==> GoesOn(w, Step(w, Resume(c, now)), c, AwaitCompletion)
    ensures Suspended(w, c, {AwaitClosing}) ==>
              Step(w, Resume(c, now)) == w.(activeRenderers := w.activeRenderers - {w.calls[c].task}, calls := w.calls - {c})
    ensures Suspended(w, c, {AwaitThread, AwaitWorktree, AwaitAvailability, AwaitProvider, AwaitCompletion}) ==> Step(w, Resume(c, now)) == w
  {
  }

  // ---------------------------------------------------------------- the provider answers

  /** The turn has ended with this outcome: the row, its result, the hold paid for, and only the card left. */
  predicate EndsWith(w: World, w': World, c: CallId, outcome: Outcome, usage: TurnUsage, now: int)
    requires c in w.calls && w.calls[c].task in w.db.tasks && WellFormed(w.ledger)
  {
    var t := w.calls[c].task;
    && w'.db == w.db.(tasks := w.db.tasks[t := Moved(w.db.tasks[t], outcome, now)], results := w.db.results[t := outcome])
    && w'.calls == w.calls[c := w.calls[c].(point := AwaitClosing)]
    && w'.ledger == Paid(w.ledger, w.calls[c].hold, usage.(failed := outcome == Failed))
    && w'.activeReservations == w.activeReservations - {t} && w'.activeRenderers == w.activeRenderers
  }

  lemma EndTurnExactly(w: World, c: CallId, outcome: Outcome, provider: Provider, usage: TurnUsage, now: int)
    requires WellFormed(w.ledger) && Consistent(w.db) && c in w.calls && Live(w, w.calls[c].task)
    requires outcome in LegalTransitions(w.db.tasks[w.calls[c].task].status) && provider == w.db.tasks[w.calls[c].task].provider
    ensures EndsWith(w, EndTurn(w, c, outcome, provider, usage, now), c, outcome, usage, now)
    ensures EndTurn(w, c, outcome, provider, usage, now).startingTasks == w.startingTasks
  {
    var t := w.calls[c].task;
    assert TaskConsistent(w.db, t);
    var moved := Transition(w.db, t, {w.db.tasks[t].status}, outcome, now);
    assert moved.Ok? && SaveResult(moved.value, t, provider, outcome).Ok?;
  }

  /** A start or continuation that fails while its task is starting ends the turn as failed, at no cost. */
  lemma FailedStart(w: World, e: Event)
    requires WellFormed(w.ledger) && Consistent(w.db) && Accounted(w) && StartFails(w, e)
    requires var t := w.calls[e.c].task;
             t in w.db.tasks && w.db.tasks[t].status == Starting && w.db.tasks[t].provider == w.calls[e.c].provider
    ensures EndsWith(w, Step(w, e), e.c, Failed, TurnUsage(None, 0, true), e.now)
    ensures Step(w, e).startingTasks == w.startingTasks - {w.calls[e.c].task}
  {
    assert CallFits(w, e.c);
    TransitionTable(Starting, Failed);
    var w1 := w.(startingTasks := w.startingTasks - {w.calls[e.c].task});
    EndTurnExactly(w1, e.c, Failed, w.calls[e.c].provider, TurnUsage(None, 0, true), e.now);
    assert Step(w, e) == FailStarting(w1, e.c, e.now);
  }

  /** A provider that answers a start whose task has been cancelled or ended meanwhile changes nothing. */
  lemma LateAnswer(w: World, c: CallId, session: Session, now: int)
    requires WellFormed(w.ledger) && Suspended(w, c, {AwaitProvider}) && w.calls[c].kind == StartCall
    requires w.calls[c].cancelled || !Live(w, w.calls[c].task)
    ensures Step(w, ProviderReady(c, Some(session), now)) ==
              w.(startingTasks := w.startingTasks - {w.calls[c].task}, calls := w.calls - {c})
  {
  }

  /** A continuation whose task has ended meanwhile changes nothing when its provider answers with the
      session, and gives its hold back and drops the map entry when it fails. */
  lemma LateContinuation(w: World, e: Event)
    requires WellFormed(w.ledger) && Accounted(w) && e.ProviderReady? && Suspended(w, e.c, {AwaitProvider})
    requires w.calls[e.c].kind == ContinueCall
    requires var t := w.calls[e.c].task; t in w.db.tasks && Terminal(w.db.tasks[t].status) && t in w.db.results
    ensures var t, call := w.calls[e.c].task, w.calls[e.c];
            Step(w, e) ==
              if e.started == call.session && e.started.Some?
              then w.(startingTasks := w.startingTasks - {t}, calls := w.calls - {e.c})
              else w.(startingTasks := w.startingTasks - {t}, calls := w.calls - {e.c}, ledger := GivenBack(w.ledger, call.hold),
                      activeReservations := if call.hold.Some? then w.activeReservations - {t} else w.activeReservations)
  {
    var w1 := w.(startingTasks := w.startingTasks - {w.calls[e.c].task});
    if !(e.started == w.calls[e.c].session && e.started.Some?) {
      assert Step(w, e) == FailStarting(w1, e.c, e.now);
      assert FailStarting(w1, e.c, e.now) == Settled(w1, e.c, w.calls[e.c].provider, TurnUsage(None, 0, true));
    }
  }

  /** A start that fails after its task was cancelled gives its hold back; the map entry is left. */
  lemma LateFailure(w: World, c: CallId, now: int)
    requires WellFormed(w.ledger) && Suspended(w, c, {AwaitProvider}) && w.calls[c].kind == StartCall
    requires var t := w.calls[c].task; t in w.db.tasks && Terminal(w.db.tasks[t].status) && t in w.db.results
    ensures Step(w, ProviderReady(c, None, now)) ==
              w.(startingTasks := w.startingTasks - {w.calls[c].task}, calls := w.calls - {c}, ledger := GivenBack(w.ledger, w.calls[c].hold))
  {
    var w1 := w.(startingTasks := w.startingTasks - {w.calls[c].task});
    assert FailStarting(w1, c, now) == Settled(w1, c, w.calls[c].provider, TurnUsage(None, 0, true));
  }

  /** A provider that answers in time: a new session is attached, or the old one confirmed, and the turn runs. */
  lemma AnswerRuns(w: World, c: CallId, session: Session, now: int)
    requires WellFormed(w.ledger) && Accounted(w) && Suspended(w, c, {AwaitProvider}) && !w.calls[c].cancelled
    requires var t := w.calls[c].task; t in w.db.tasks && w.db.tasks[t].status == Starting
    requires if w.calls[c].kind == StartCall then AttachProviderSession(w.db, w.calls[c].task, session).Ok?
             else w.calls[c].session == Some(session)
    ensures var t := w.calls[c].task;
            var w' := Step(w, ProviderReady(c, Some(session), now));
            && w'.db.tasks == w.db.tasks[t := Moved(w.db.tasks[t], Running, now)]
            && w'.db.sessions == (if w.calls[c].kind == StartCall then w.db.sessions[t := session] else w.db.sessions)
            && w'.db.results == w.db.results && w'.db.worktrees == w.db.worktrees
            && w'.calls == w.calls[c := w.calls[c].(point := AwaitRunningCard)] && w'.ledger == w.ledger
            && w'.activeReservations == w.activeReservations && w'.startingTasks == w.startingTasks - {t}
  {
    assert CallFits(w, c);
    TransitionTable(Starting, Running);
    var w1 := w.(startingTasks := w.startingTasks - {w.calls[c].task});
    if w.calls[c].kind == StartCall {
      AttachExactly(w.db, w.calls[c].task, session);
      var db := AttachProviderSession(w.db, w.calls[c].task, session).value;
      assert Step(w, ProviderReady(c, Some(session), now)) == NowRunning(w1.(db := db), c, now);
    } else {
      assert Step(w, ProviderReady(c, Some(session), now)) == NowRunning(w1, c, now);
    }
  }

  /** A completion of a live task whose outcome is legal from there, by the task's provider, ends the turn. */
  lemma CompletedExactly(w: World, c: CallId, outcome: Outcome, usage: TurnUsage, now: int)
    requires WellFormed(w.ledger) && Consistent(w.db) && Suspended(w, c, {AwaitCompletion}) && Live(w, w.calls[c].task)
    requires outcome in LegalTransitions(w.db.tasks[w.calls[c].task].status)
    ensures EndsWith(w, Step(w, TurnCompleted(c, outcome, w.db.tasks[w.calls[c].task].provider, usage, now)), c, outcome, usage, now)
  {
    assert TaskConsistent(w.db, w.calls[c].task);
    EndTurnExactly(w, c, outcome, w.db.tasks[w.calls[c].task].provider, usage, now);
  }

  /** A completion for which a result is stored already only makes the coordinator forget the task's
      renderer and map entry. */
  lemma DiscardedExactly(w: World, c: CallId, outcome: Outcome, provider: Provider, usage: TurnUsage, now: int)
    requires WellFormed(w.ledger) && Suspended(w, c, {AwaitCompletion})
    requires w.calls[c].task in w.db.tasks && w.calls[c].task in w.db.results
    ensures var t := w.calls[c].task;
            Step(w, TurnCompleted(c, outcome, provider, usage, now)) ==
              w.(calls := w.calls - {c}, activeRenderers := w.activeRenderers - {t}, activeReservations := w.activeReservations - {t})
  {
  }

  /** A completion for a task that has ended without a result stores the status it finds, not the outcome it
      brings, and pays for its hold. */
  lemma EndedWithoutResult(w: World, c: CallId, outcome: Outcome, usage: TurnUsage, now: int)
    requires WellFormed(w.ledger) && Suspended(w, c, {AwaitCompletion})
    requires var t := w.calls[c].task; t in w.db.tasks && Terminal(w.db.tasks[t].status) && t !in w.db.results
    ensures var t := w.calls[c].task;
            var status := w.db.tasks[t].status;
            Step(w, TurnCompleted(c, outcome, w.db.tasks[t].provider, usage, now)) ==
              w.(db := w.db.(results := w.db.results[t := status]), calls := w.calls[c := w.calls[c].(point := AwaitClosing)],
                 ledger := Paid(w.ledger, w.calls[c].hold, usage.(failed := status == Failed)),
                 activeReservations := w.activeReservations - {t})
  {
  }

  /** A completion that is refused, because its outcome is not legal from the row's status, gives its hold
      back and changes no row. */
  lemma RefusedCompletion(w: World, c: CallId, outcome: Outcome, provider: Provider, usage: TurnUsage, now: int)
    requires WellFormed(w.ledger) && Consistent(w.db) && Suspended(w, c, {AwaitCompletion}) && Live(w, w.calls[c].task)
    requires outcome !in LegalTransitions(w.db.tasks[w.calls[c].task].status)
    ensures var call := w.calls[c];
            Step(w, TurnCompleted(c, outcome, provider, usage, now)) ==
              w.(calls := w.calls - {c}, ledger := GivenBack(w.ledger, call.hold),
                 activeReservations := if call.kind == ContinueCall && call.hold.Some? then w.activeReservations - {call.task} else w.activeReservations)
  {
    assert TaskConsistent(w.db, w.calls[c].task);
  }

  // ---------------------------------------------------------------- a continuation

  /** A continuation begins exactly for an ended task with a session and a worktree that is still there. */
  lemma ContinueExactly(w: World, c: CallId, task: TaskId)
    requires WellFormed(w.ledger) && c !in w.calls
    ensures var w' := Step(w, ContinueTask(c, task));
            && (c in w'.calls <==>
                  && task in w.db.tasks && w.db.tasks[task].status in {Completed, Failed, Cancelled, Interrupted}
                  && task in w.db.sessions && task in w.db.worktrees && w.db.worktrees[task].removedAt.None?)
            && (c in w'.calls ==>
                  w' == w.(calls := w.calls[c := Call(ContinueCall, task, w.db.tasks[task].provider, w.db.tasks[task].threadId,
                                                      None, Some(w.db.sessions[task]), AwaitAvailability, false)]))
            && (c !in w'.calls ==> w' == w)
  {
    if task in w.db.tasks {
      TransitionTable(w.db.tasks[task].status, Starting);
    }
  }

  /** It reserves when its provider is available, and is gone when it is not or when it is not admitted. */
  lemma AvailabilityExactly(w: World, c: CallId, ok: bool, taskClass: TaskClass, hold: HoldId)
    requires WellFormed(w.ledger) && Suspended(w, c, {AwaitAvailability})
    ensures var w' := Step(w, AvailabilityChecked(c, ok, taskClass, hold));
            var call := w.calls[c].(point := AwaitReservation);
            if !ok then w' == w.(calls := w.calls - {c})
            else
              match w.capacity
              case None => w' == w.(calls := w.calls[c := call])
              case Some(capacity) =>
                match Reserve(w.ledger, capacity, call.provider, taskClass, hold)
                case Err(_) => w' == w.(calls := w.calls - {c})
                case Ok(l) => w' == w.(ledger := l, calls := w.calls[c := call.(hold := Some(hold))])
  {
  }

  /** The reopening: the row starts again without its result, the hold is attached and registered; if the
      task cannot be reopened any more the hold is given back and the task's map entry dropped. */
  lemma ReopenedExactly(w: World, c: CallId, now: int)
    requires WellFormed(w.ledger) && Accounted(w) && Suspended(w, c, {AwaitReservation})
    ensures var call := w.calls[c];
            var t := call.task;
            var w' := Step(w, Resume(c, now));
            match ReopenForContinuation(w.db, t, now)
            case Ok(db) =>
              && w'.db == db && w'.calls == w.calls[c := call.(point := AwaitResumedRenderer)]
              && w'.activeRenderers == w.activeRenderers[t := c] && w'.startingTasks == w.startingTasks
              && (if call.hold.Some? then
                    && w'.ledger == AttachedLedger(w.ledger, call.hold.value, t)
                    && w'.activeReservations == w.activeReservations[t := call.hold.value]
                  else w'.ledger == w.ledger && w'.activeReservations == w.activeReservations)
            case Err(_) =>
              w' == w.(ledger := GivenBack(w.ledger, call.hold), calls := w.calls - {c},
                       activeReservations := if call.hold.Some? then w.activeReservations - {t} else w.activeReservations)
  {
    assert CallFits(w, c);
    var r := ReopenForContinuation(w.db, w.calls[c].task, now);
    AttachNeverFails(w, c);
    if r.Ok? {
      assert Attached(w.(db := r.value), c).Some?;
    }
  }

  // ---------------------------------------------------------------- cancellations and the rest

  /** Row and result of a live task are cancelled. */
  function CancelledTables(db: Tables, t: TaskId, now: int): Tables
    requires t in db.tasks
  {
    db.(tasks := db.tasks[t := Moved(db.tasks[t], Cancelled, now)], results := db.results[t := Cancelled])
  }

  /** The call of a start under way for the task is told; no other call changes. */
  function Told(w: World, t: TaskId): map<CallId, Call> {
    map d | d in w.calls :: if Lookup(w.startingTasks, t) == Some(d) then w.calls[d].(cancelled := true) else w.calls[d]
  }

  lemma FlaggedIsTold(w: World, t: TaskId)
    ensures Flagged(w, t) == w.(calls := Told(w, t))
  {
    assert Flagged(w, t).calls == Told(w, t);
  }

  /** A cancellation of a live task cancels row and result at once, tells a start under way, and waits for
      the card. */
  lemma CancelWaitsExactly(w: World, k: CallId, t: TaskId, now: int)
    requires WellFormed(w.ledger) && Consistent(w.db) && k !in w.calls && Live(w, t) && t in w.activeRenderers
    ensures Step(w, CancelTask(k, t, now)) ==
              w.(db := CancelledTables(w.db, t, now),
                 calls := Told(w, t)[k := Call(CancelCall, t, w.db.tasks[t].provider, w.db.tasks[t].threadId,
                                               None, None, AwaitCancelClosing, false)])
  {
    FlaggedIsTold(w, t);
    CancelMoves(w.db, t, now);
    CancelSegment(w, k, t, now);
  }

  /** Without a renderer it releases what is registered at once; an ended task is left alone. */
  lemma CancelAtOnceExactly(w: World, k: CallId, t: TaskId, now: int)
    requires WellFormed(w.ledger) && Consistent(w.db) && k !in w.calls
    ensures Live(w, t) && t !in w.activeRenderers ==>
              Step(w, CancelTask(k, t, now)) ==
                w.(db := CancelledTables(w.db, t, now), calls := Told(w, t),
                   ledger := GivenBack(w.ledger, Lookup(w.activeReservations, t)), activeReservations := w.activeReservations - {t})
    ensures !Live(w, t) ==> Step(w, CancelTask(k, t, now)) == w
  {
    if Live(w, t) && t !in w.activeRenderers {
      FlaggedIsTold(w, t);
      CancelMoves(w.db, t, now);
      var moved := Transition(w.db, t, {w.db.tasks[t].status}, Cancelled, now).value;
      assert SaveResult(moved, t, w.db.tasks[t].provider, Cancelled) == Ok(CancelledTables(w.db, t, now));
      if t !in w.activeReservations {
        assert w.activeReservations - {t} == w.activeReservations;
      }
    }
  }

  /** The end of a cancellation: the renderer is forgotten and what is registered for the task released. */
  lemma CancelClosedExactly(w: World, k: CallId, now: int)
    requires WellFormed(w.ledger) && Suspended(w, k, {AwaitCancelClosing})
    ensures var t := w.calls[k].task;
            Step(w, Resume(k, now)) ==
              w.(calls := w.calls - {k}, activeRenderers := w.activeRenderers - {t},
                 ledger := GivenBack(w.ledger, Lookup(w.activeReservations, t)), activeReservations := w.activeReservations - {t})
  {
    var t := w.calls[k].task;
    if t !in w.activeReservations {
      assert w.activeReservations - {t} == w.activeReservations;
    }
  }

  /** Decisions move a running task to waiting and back; closing marks a worktree removed once. */
  lemma DecisionsExactly(w: World, t: TaskId, now: int)
    requires WellFormed(w.ledger)
    ensures Step(w, DecisionOpened(t, now)) ==
              if t in w.db.tasks && w.db.tasks[t].status == Running
              then w.(db := w.db.(tasks := w.db.tasks[t := Moved(w.db.tasks[t], WaitingForUser, now)])) else w
    ensures Step(w, DecisionClosed(t, now)) ==
              if t in w.db.tasks && w.db.tasks[t].status == WaitingForUser
              then w.(db := w.db.(tasks := w.db.tasks[t := Moved(w.db.tasks[t], Running, now)])) else w
    ensures Step(w, WorktreeClosed(t, now)) ==
              if t in w.db.worktrees && w.db.worktrees[t].removedAt.None?
              then w.(db := w.db.(worktrees := w.db.worktrees[t := w.db.worktrees[t].(removedAt := Some(now))])) else w
    ensures Step(w, Shutdown) == w.(activeRenderers := map[])
  {
    TransitionTable(Running, WaitingForUser);
    TransitionTable(WaitingForUser, Running);
  }

  /** A restart keeps the tables and interrupts exactly the started tasks it comes to. */
  lemma RestartedTasks(w: World, tasks: set<TaskId>, visited: set<HoldId>, now: int, t: TaskId)
    requires WellFormed(w.ledger)
    ensures var w' := Step(w, CrashedRestart(tasks, visited, now));
            && w'.calls == map[] && w'.activeReservations == map[] && w'.activeRenderers == map[] && w'.startingTasks == map[]
            && w'.capacity == w.capacity && w'.ledger.observations == w.ledger.observations
            && w'.db == w.db.(tasks := w'.db.tasks)
            && Lookup(w'.db.tasks, t) ==
                 if t !in w.db.tasks then None
                 else if t in tasks && w.db.tasks[t].status in {Starting, Running, WaitingForUser}
                 then Some(Moved(w.db.tasks[t], Interrupted, now)) else Some(w.db.tasks[t])
  {
  }

  predicate Started(s: Status) { s in {Starting, Running, WaitingForUser} }

  /** The hold belongs to no task, or to one that has ended. */
  predicate Free(db: Tables, h: Hold) {
    h.taskId.None? || h.taskId.value !in db.tasks
    || db.tasks[h.taskId.value].status in {Completed, Failed, Cancelled, Interrupted}
  }

  /** It releases exactly the holds it comes to that no task will settle, and none while a task is still
      started; a complete one comes to every task and every hold. */
  lemma RestartedHolds(w: World, tasks: set<TaskId>, visited: set<HoldId>, now: int, h: HoldId)
    requires WellFormed(w.ledger)
    ensures var w' := Step(w, CrashedRestart(tasks, visited, now));
            Lookup(w'.ledger.holds, h) ==
              if h !in w.ledger.holds then None
              else if h in visited && w.ledger.holds[h].status == HoldActive && Free(w'.db, w.ledger.holds[h])
                      && forall u :: u in w'.db.tasks ==> !Started(w'.db.tasks[u].status)
              then Some(w.ledger.holds[h].(status := HoldReleased, actualCost := None)) else Some(w.ledger.holds[h])
  {
    var db := RecoverTasks(w.db, tasks, now);
    assert AllRecovered(db) <==> forall u :: u in db.tasks ==> !Started(db.tasks[u].status) by {
      forall u | u in db.tasks ensures Recoverable(db.tasks[u].status) <==> Started(db.tasks[u].status) {
      }
    }
  }

  lemma RestartComplete(w: World, now: int)
    requires WellFormed(w.ledger)
    ensures Step(w, Restart(now)) == Step(w, CrashedRestart(w.db.tasks.Keys, w.ledger.holds.Keys, now))
  {
    assert AllRecovered(RecoverTasks(w.db, w.db.tasks.Keys, now));
  }
}
