/**
 Following one attached hold through a run: what a segment of one call can reach of the rows, holds and
 map entries of other tasks, how a task's registered hold can change, and which events pass a task by.
 */
module HoldTracing {
  import opened Common
  import opened TaskStore
  import opened Usage
  import opened Coordinator
  import opened CoordinatorSafety
  import opened HoldConservation
  import opened HoldAccounting

  // ---------------------------------------------------------------- the reach of one segment

  /** A segment of call `c` reaches the row, result and map entry of its own task, and its own hold; the
      end of a cancellation reaches the hold registered for its task instead. */
  ghost predicate Confined(w: World, w': World, c: CallId)
    requires c in w.calls
  {
    var call := w.calls[c];
    && (forall d :: d != c ==> Lookup(w'.calls, d) == Lookup(w.calls, d))
    && (c in w'.calls ==>
          && w'.calls[c].task == call.task && w'.calls[c].kind == call.kind
          && (w'.calls[c].hold == call.hold || (w'.calls[c].hold.Some? && w'.calls[c].hold.value !in w.ledger.holds)))
    && (forall u :: u != call.task ==>
          && Lookup(w'.db.tasks, u) == Lookup(w.db.tasks, u)
          && Lookup(w'.db.results, u) == Lookup(w.db.results, u)
          && Lookup(w'.activeReservations, u) == Lookup(w.activeReservations, u))
    && (forall h :: h in w.ledger.holds && !Reaches(w, call, h) ==> Lookup(w'.ledger.holds, h) == Lookup(w.ledger.holds, h))
  }

  predicate Reaches(w: World, call: Call, h: HoldId) {
    call.hold == Some(h) || (call.point == AwaitCancelClosing && Lookup(w.activeReservations, call.task) == Some(h))
  }

  lemma CatchConfined(w: World, c: CallId)
    requires c in w.calls
    ensures Confined(w, Catch(w, c), c)
  {
  }

  lemma SettledConfined(w: World, c: CallId, provider: Provider, usage: TurnUsage)
    requires c in w.calls && w.calls[c].task in w.db.tasks && WellFormed(w.ledger)
    ensures Confined(w, Settled(w, c, provider, usage), c)
  {
    CatchConfined(w, c);
  }

  lemma ConfinedAfter(w: World, w1: World, w': World, c: CallId)
    requires c in w.calls && w1.calls == w.calls && w1.ledger == w.ledger && w1.activeReservations == w.activeReservations
    requires forall u :: u != w.calls[c].task ==>
               Lookup(w1.db.tasks, u) == Lookup(w.db.tasks, u) && Lookup(w1.db.results, u) == Lookup(w.db.results, u)
    requires Confined(w1, w', c)
    ensures Confined(w, w', c)
  {
  }

  lemma TransitionConfined(w: World, c: CallId, expected: set<Status>, next: Status, now: int)
    requires c in w.calls
    ensures var r := Transition(w.db, w.calls[c].task, expected, next, now);
            r.Ok? ==> r.value.results == w.db.results
                      && forall u :: u != w.calls[c].task ==> Lookup(r.value.tasks, u) == Lookup(w.db.tasks, u)
  {
  }

  lemma EndTurnConfined(w: World, c: CallId, outcome: Outcome, provider: Provider, usage: TurnUsage, now: int)
    requires c in w.calls && WellFormed(w.ledger)
    ensures Confined(w, EndTurn(w, c, outcome, provider, usage, now), c)
  {
    var t := w.calls[c].task;
    CatchConfined(w, c);
    if t in w.db.tasks {
      var s := w.db.tasks[t].status;
      if Terminal(s) {
        SettledConfined(w, c, provider, usage);
      } else {
        var moved := Transition(w.db, t, {s}, outcome, now);
        TransitionConfined(w, c, {s}, outcome, now);
        if moved.Ok? {
          var w1 := w.(db := moved.value);
          SettledConfined(w1, c, provider, usage);
          ConfinedAfter(w, w1, Settled(w1, c, provider, usage), c);
        }
      }
    }
  }

  lemma NowRunningConfined(w: World, c: CallId, now: int)
    requires c in w.calls
    ensures Confined(w, NowRunning(w, c, now), c)
  {
    CatchConfined(w, c);
    TransitionConfined(w, c, {Starting}, Running, now);
  }

  lemma ProviderStartedConfined(w: World, c: CallId, session: Session, now: int)
    requires c in w.calls && WellFormed(w.ledger)
    ensures Confined(w, ProviderStarted(w, c, session, now), c)
  {
    var call := w.calls[c];
    if call.kind == StartCall {
      CatchConfined(w, c);
      var attached := AttachProviderSession(w.db, call.task, session);
      if attached.Ok? {
        var w1 := w.(db := attached.value);
        NowRunningConfined(w1, c, now);
        ConfinedAfter(w, w1, NowRunning(w1, c, now), c);
      }
    } else if call.session != Some(session) {
      EndTurnConfined(w, c, Failed, call.provider, TurnUsage(None, 0, true), now);
    } else {
      NowRunningConfined(w, c, now);
    }
  }

  lemma ProviderReadyConfined(w: World, c: CallId, started: Option<Session>, now: int)
    requires Suspended(w, c, {AwaitProvider}) && WellFormed(w.ledger)
    ensures Confined(w, Step(w, ProviderReady(c, started, now)), c)
  {
    var w1 := w.(startingTasks := w.startingTasks - {w.calls[c].task});
    if started.None? {
      EndTurnConfined(w1, c, Failed, w.calls[c].provider, TurnUsage(None, 0, true), now);
    } else {
      ProviderStartedConfined(w1, c, started.value, now);
    }
    ConfinedAfter(w, w1, Step(w, ProviderReady(c, started, now)), c);
  }

  lemma AttachesConfined(w: World, w': World, c: CallId, point: Point)
    requires c in w.calls && Attaches(w, w', c, point)
    requires forall u :: u != w.calls[c].task ==>
               Lookup(w'.db.tasks, u) == Lookup(w.db.tasks, u) && Lookup(w'.db.results, u) == Lookup(w.db.results, u)
    ensures Confined(w, w', c)
  {
  }

  lemma WorktreeCreatedConfined(w: World, c: CallId, worktree: Worktree, projectActive: bool, now: int)
    requires Accounted(w) && Suspended(w, c, {AwaitWorktree})
    ensures Confined(w, WorktreeCreated(w, c, worktree, projectActive, now), c)
  {
    var call := w.calls[c];
    var r := CreateWithWorktree(w.db, call.task, projectActive, call.provider, call.threadId, worktree, now);
    if r.Ok? {
      AttachNeverFails(w, c);
      assert Attached(w.(db := r.value), c).Some?;
      AttachesConfined(w, WorktreeCreated(w, c, worktree, projectActive, now), c, AwaitRenderer);
    }
  }

  lemma ReopenedConfined(w: World, c: CallId, now: int)
    requires Accounted(w) && Suspended(w, c, {AwaitReservation})
    ensures Confined(w, Reopened(w, c, now), c)
  {
    CatchConfined(w, c);
    var r := ReopenForContinuation(w.db, w.calls[c].task, now);
    if r.Ok? {
      AttachNeverFails(w, c);
      assert Attached(w.(db := r.value), c).Some?;
      AttachesConfined(w, Reopened(w, c, now), c, AwaitResumedRenderer);
    }
  }

  lemma StartingConfined(w: World, c: CallId, now: int)
    requires Suspended(w, c, {AwaitRenderer})
    ensures Confined(w, Resumed(w, c, now), c)
  {
    CatchConfined(w, c);
    TransitionConfined(w, c, {Created}, Starting, now);
  }

  lemma ClosingConfined(w: World, c: CallId, now: int)
    requires Suspended(w, c, {AwaitClosing, AwaitCancelClosing})
    ensures Confined(w, Resumed(w, c, now), c)
  {
  }

  lemma ResumedConfined(w: World, c: CallId, now: int)
    requires Accounted(w) && c in w.calls
    ensures Confined(w, Resumed(w, c, now), c)
  {
    match w.calls[c].point
    case AwaitReservation => ReopenedConfined(w, c, now);
    case AwaitRenderer => StartingConfined(w, c, now);
    case AwaitClosing => ClosingConfined(w, c, now);
    case AwaitCancelClosing => ClosingConfined(w, c, now);
    case AwaitWorktreeRemoval => CatchConfined(w, c);
    case _ =>
  }

  /** The events that resume one call in flight. */
  predicate Resumes(w: World, e: Event) {
    && (e.ThreadReady? || e.WorktreeReady? || e.AvailabilityChecked? || e.ProviderReady? || e.TurnCompleted? || e.Resume?)
    && e.c in w.calls
  }

  lemma AvailabilityConfined(w: World, c: CallId, ok: bool, taskClass: TaskClass, hold: HoldId)
    requires WellFormed(w.ledger) && Suspended(w, c, {AwaitAvailability})
    ensures Confined(w, Step(w, AvailabilityChecked(c, ok, taskClass, hold)), c)
  {
    if ok && w.capacity.Some? {
      ReserveAdds(w.ledger, w.capacity.value, w.calls[c].provider, taskClass, hold);
    }
  }

  lemma UnmovedConfined(w: World, c: CallId)
    requires c in w.calls
    ensures Confined(w, w, c) && forall p :: Confined(w, At(w, c, p), c)
  {
  }

  lemma CreateConfined(w: World, e: Event)
    requires Accounted(w) && Resumes(w, e) && WellFormed(w.ledger) && (e.ThreadReady? || e.WorktreeReady?)
    ensures Confined(w, Step(w, e), e.c)
  {
    UnmovedConfined(w, e.c);
    match e
    case ThreadReady(c, ok) => CatchConfined(w, c);
    case WorktreeReady(c, created, projectActive, now) =>
      if Suspended(w, c, {AwaitWorktree}) {
        if created.Some? { WorktreeCreatedConfined(w, c, created.value, projectActive, now); } else { CatchConfined(w, c); }
      }
  }

  lemma TurnCompletedConfined(w: World, c: CallId, outcome: Outcome, provider: Provider, usage: TurnUsage, now: int)
    requires c in w.calls && WellFormed(w.ledger)
    ensures Confined(w, Finalize(w, c, outcome, provider, usage, now), c)
  {
    EndTurnConfined(w, c, outcome, provider, usage, now);
  }

  lemma StepConfined(w: World, e: Event)
    requires Accounted(w) && WellFormed(w.ledger) && Resumes(w, e)
    ensures Confined(w, Step(w, e), e.c)
  {
    UnmovedConfined(w, e.c);
    match e
    case ThreadReady(_, _) => CreateConfined(w, e);
    case WorktreeReady(_, _, _, _) => CreateConfined(w, e);
    case AvailabilityChecked(c, ok, taskClass, hold) =>
      if Suspended(w, c, {AwaitAvailability}) { AvailabilityConfined(w, c, ok, taskClass, hold); }
    case ProviderReady(c, started, now) =>
      if Suspended(w, c, {AwaitProvider}) { ProviderReadyConfined(w, c, started, now); }
    case TurnCompleted(c, outcome, provider, usage, now) =>
      if Suspended(w, c, {AwaitCompletion}) { TurnCompletedConfined(w, c, outcome, provider, usage, now); }
    case Resume(c, now) => ResumedConfined(w, c, now);
  }

  // ---------------------------------------------------------------- which hold is registered for a task

  /** The segment that registers hold `h` for task `t`: its call persists the new task or reopens it. */
  predicate Registers(w: World, e: Event, t: TaskId, h: HoldId) {
    && (|| (e.WorktreeReady? && Suspended(w, e.c, {AwaitWorktree}) && t !in w.db.tasks)
        || (e.Resume? && Suspended(w, e.c, {AwaitReservation})))
    && w.calls[e.c].task == t && w.calls[e.c].hold == Some(h)
  }

  /** At most the entry of task `t` is dropped. */
  predicate Drops(w: World, w': World, t: TaskId) {
    w'.activeReservations == w.activeReservations || w'.activeReservations == w.activeReservations - {t}
  }

  lemma SettledDrops(w: World, c: CallId, provider: Provider, usage: TurnUsage)
    requires c in w.calls && w.calls[c].task in w.db.tasks && WellFormed(w.ledger)
    ensures Drops(w, Settled(w, c, provider, usage), w.calls[c].task)
  {
  }

  lemma EndTurnDrops(w: World, c: CallId, outcome: Outcome, provider: Provider, usage: TurnUsage, now: int)
    requires c in w.calls && WellFormed(w.ledger)
    ensures Drops(w, EndTurn(w, c, outcome, provider, usage, now), w.calls[c].task)
  {
    var t := w.calls[c].task;
    if t in w.db.tasks {
      SettledDrops(w, c, provider, usage);
      var moved := Transition(w.db, t, {w.db.tasks[t].status}, outcome, now);
      if moved.Ok? {
        SettledDrops(w.(db := moved.value), c, provider, usage);
      }
    }
  }

  lemma NowRunningDrops(w: World, c: CallId, now: int)
    requires c in w.calls
    ensures Drops(w, NowRunning(w, c, now), w.calls[c].task)
  {
  }

  lemma ProviderReadyDrops(w: World, c: CallId, started: Option<Session>, now: int)
    requires Suspended(w, c, {AwaitProvider}) && WellFormed(w.ledger)
    ensures Drops(w, Step(w, ProviderReady(c, started, now)), w.calls[c].task)
  {
    var w1 := w.(startingTasks := w.startingTasks - {w.calls[c].task});
    EndTurnDrops(w1, c, Failed, w.calls[c].provider, TurnUsage(None, 0, true), now);
    if started.Some? {
      var attached := AttachProviderSession(w1.db, w.calls[c].task, started.value);
      NowRunningDrops(w1, c, now);
      if attached.Ok? {
        NowRunningDrops(w1.(db := attached.value), c, now);
      }
    }
  }

  lemma CancellingDrops(w: World, k: CallId, t: TaskId, now: int)
    ensures Drops(w, Cancelling(w, k, t, now), t)
  {
  }

  lemma ResumedRegisters(w: World, c: CallId, now: int, t: TaskId)
    requires Accounted(w) && c in w.calls
    ensures var r := Lookup(Resumed(w, c, now).activeReservations, t);
            r.None? || r == Lookup(w.activeReservations, t) || Registers(w, Resume(c, now), t, r.value)
  {
    if w.calls[c].point == AwaitReservation {
      var r := ReopenForContinuation(w.db, w.calls[c].task, now);
      if r.Ok? {
        AttachNeverFails(w, c);
        assert Attached(w.(db := r.value), c).Some?;
      }
    }
  }

  lemma WorktreeRegisters(w: World, c: CallId, worktree: Worktree, projectActive: bool, now: int, t: TaskId)
    requires Accounted(w) && Suspended(w, c, {AwaitWorktree})
    ensures var r := Lookup(WorktreeCreated(w, c, worktree, projectActive, now).activeReservations, t);
            r.None? || r == Lookup(w.activeReservations, t)
            || (t !in w.db.tasks && w.calls[c].task == t && w.calls[c].hold == r)
  {
    var call := w.calls[c];
    var r := CreateWithWorktree(w.db, call.task, projectActive, call.provider, call.threadId, worktree, now);
    if r.Ok? {
      AttachNeverFails(w, c);
      assert Attached(w.(db := r.value), c).Some?;
    }
  }

  /** The events that register nothing. */
  predicate LeavesRegistered(e: Event) { !e.WorktreeReady? && !e.Resume? }

  lemma StepDrops(w: World, e: Event, t: TaskId)
    requires WellFormed(w.ledger) && LeavesRegistered(e)
    ensures var r := Lookup(Step(w, e).activeReservations, t); r.None? || r == Lookup(w.activeReservations, t)
  {
    match e
    case ProviderReady(c, started, now) =>
      if Suspended(w, c, {AwaitProvider}) { ProviderReadyDrops(w, c, started, now); }
    case TurnCompleted(c, outcome, provider, usage, now) =>
      if Suspended(w, c, {AwaitCompletion}) { EndTurnDrops(w, c, outcome, provider, usage, now); }
    case CancelTask(k, task, now) => CancellingDrops(w, k, task, now);
    case _ =>
  }

  /** A task's registered hold is what it was, or gone, or just registered by a call of that task. */
  lemma StepRegisters(w: World, e: Event, t: TaskId)
    requires Accounted(w) && WellFormed(w.ledger)
    ensures var r := Lookup(Step(w, e).activeReservations, t);
            r.None? || r == Lookup(w.activeReservations, t) || Registers(w, e, t, r.value)
  {
    if LeavesRegistered(e) {
      StepDrops(w, e, t);
    } else if e.Resume? {
      if e.c in w.calls { ResumedRegisters(w, e.c, e.now, t); }
    } else if Suspended(w, e.c, {AwaitWorktree}) && e.created.Some? {
      WorktreeRegisters(w, e.c, e.created.value, e.projectActive, e.now, t);
    }
  }

  lemma NotRegisteredTwice(w: World, e: Event, t: TaskId, h: HoldId)
    requires Accounted(w) && h in w.ledger.holds && w.ledger.holds[h].taskId.Some?
    ensures !Registers(w, e, t, h)
  {
    if (e.WorktreeReady? || e.Resume?) && e.c in w.calls {
      assert CallFits(w, e.c);
    }
  }

  /** A hold that has been attached is never attached again, so once it is not registered for a task it
      never is again. */
  lemma {:induction false} NeverRegisteredAgain(w: World, es: seq<Event>, t: TaskId, h: HoldId)
    requires Balanced(w.ledger) && Accounted(w) && h in w.ledger.holds && w.ledger.holds[h].taskId.Some?
    requires Lookup(w.activeReservations, t) != Some(h)
    ensures Lookup(Run(w, es).activeReservations, t) != Some(h)
    decreases |es|
  {
    if es != [] {
      StepBalanced(w, es[0]);
      StepAccounted(w, es[0]);
      StepRegisters(w, es[0], t);
      StepFrozen(w, es[0]);
      NotRegisteredTwice(w, es[0], t, h);
      NeverRegisteredAgain(Step(w, es[0]), es[1..], t, h);
    }
  }

  // ---------------------------------------------------------------- the usage service stays configured

  lemma SettledCapacity(w: World, c: CallId, provider: Provider, usage: TurnUsage)
    requires c in w.calls && w.calls[c].task in w.db.tasks && WellFormed(w.ledger)
    ensures Settled(w, c, provider, usage).capacity == w.capacity
  {
  }

  lemma EndTurnCapacity(w: World, c: CallId, outcome: Outcome, provider: Provider, usage: TurnUsage, now: int)
    requires c in w.calls && WellFormed(w.ledger)
    ensures EndTurn(w, c, outcome, provider, usage, now).capacity == w.capacity
  {
    var t := w.calls[c].task;
    if t in w.db.tasks {
      SettledCapacity(w, c, provider, usage);
      var moved := Transition(w.db, t, {w.db.tasks[t].status}, outcome, now);
      if moved.Ok? {
        SettledCapacity(w.(db := moved.value), c, provider, usage);
      }
    }
  }

  lemma ProviderReadyCapacity(w: World, c: CallId, started: Option<Session>, now: int)
    requires Suspended(w, c, {AwaitProvider}) && WellFormed(w.ledger)
    ensures Step(w, ProviderReady(c, started, now)).capacity == w.capacity
  {
    var w1 := w.(startingTasks := w.startingTasks - {w.calls[c].task});
    EndTurnCapacity(w1, c, Failed, w.calls[c].provider, TurnUsage(None, 0, true), now);
  }

  lemma ResumedCapacity(w: World, c: CallId, now: int)
    requires c in w.calls
    ensures Resumed(w, c, now).capacity == w.capacity
  {
  }

  lemma WorktreeCreatedCapacity(w: World, c: CallId, worktree: Worktree, projectActive: bool, now: int)
    requires c in w.calls
    ensures WorktreeCreated(w, c, worktree, projectActive, now).capacity == w.capacity
  {
  }

  lemma CancellingCapacity(w: World, k: CallId, t: TaskId, now: int)
    ensures Cancelling(w, k, t, now).capacity == w.capacity
  {
  }

  lemma StepCapacity(w: World, e: Event)
    requires WellFormed(w.ledger)
    ensures Step(w, e).capacity == w.capacity
  {
    match e
    case ProviderReady(c, started, now) =>
      if Suspended(w, c, {AwaitProvider}) { ProviderReadyCapacity(w, c, started, now); }
    case TurnCompleted(c, outcome, provider, usage, now) =>
      if Suspended(w, c, {AwaitCompletion}) { EndTurnCapacity(w, c, outcome, provider, usage, now); }
    case Resume(c, now) => if c in w.calls { ResumedCapacity(w, c, now); }
    case WorktreeReady(c, created, projectActive, now) =>
      if c in w.calls && created.Some? { WorktreeCreatedCapacity(w, c, created.value, projectActive, now); }
    case CancelTask(k, t, now) => CancellingCapacity(w, k, t, now);
    case _ =>
  }

  // ---------------------------------------------------------------- events that pass a task by

  /** The call is in the middle of a turn of the task, or cancelling it. */
  predicate OnDuty(call: Call, t: TaskId) {
    call.task == t && (Driving(call) || call.point == AwaitCancelClosing)
  }

  /** A continuation that has reserved tries to reopen the task. */
  predicate ReopensTask(w: World, e: Event, t: TaskId) {
    e.Resume? && Suspended(w, e.c, {AwaitReservation}) && w.calls[e.c].task == t
  }

  /** Nothing about the task, its hold, its map entry or the calls on duty for it has changed. */
  ghost predicate PassesBy(w: World, w': World, t: TaskId, h: HoldId) {
    && Lookup(w'.db.tasks, t) == Lookup(w.db.tasks, t)
    && Lookup(w'.db.results, t) == Lookup(w.db.results, t)
    && Lookup(w'.ledger.holds, h) == Lookup(w.ledger.holds, h)
    && Lookup(w'.activeReservations, t) == Lookup(w.activeReservations, t)
    && (forall d :: (d in w.calls && OnDuty(w.calls[d], t)) || (d in w'.calls && OnDuty(w'.calls[d], t)) ==>
          Lookup(w'.calls, d) == Lookup(w.calls, d))
  }

  ghost predicate AttachedTo(w: World, t: TaskId, h: HoldId) {
    h in w.ledger.holds && w.ledger.holds[h].taskId == Some(t)
  }

  lemma OthersPassBy(w: World, e: Event, t: TaskId, h: HoldId)
    requires Accounted(w) && WellFormed(w.ledger) && AttachedTo(w, t, h)
    requires Resumes(w, e) && w.calls[e.c].task != t
    ensures PassesBy(w, Step(w, e), t, h)
  {
    StepConfined(w, e);
    assert CallFits(w, e.c);
    if w.calls[e.c].task in w.activeReservations {
      assert Registered(w, w.calls[e.c].task);
    }
    assert !Reaches(w, w.calls[e.c], h);
    forall d | (d in w.calls && OnDuty(w.calls[d], t)) || (d in Step(w, e).calls && OnDuty(Step(w, e).calls[d], t))
      ensures d != e.c
    {
    }
  }

  lemma IdleMovePassesBy(w: World, c: CallId, t: TaskId, h: HoldId)
    requires Accounted(w) && AttachedTo(w, t, h)
    requires c in w.calls && w.calls[c].task == t && !OnDuty(w.calls[c], t)
    ensures PassesBy(w, w, t, h) && PassesBy(w, Ended(w, c), t, h)
    ensures forall p :: !OnDuty(w.calls[c].(point := p), t) ==> PassesBy(w, At(w, c, p), t, h)
    ensures w.calls[c].kind == StartCall && Pending(w.calls[c].point) ==> PassesBy(w, Catch(w, c), t, h)
  {
    assert CallFits(w, c);
  }

  /** Reserving gives the call a new hold, or ends it. */
  lemma ReservedPassesBy(w: World, c: CallId, call: Call, taskClass: TaskClass, hold: HoldId, t: TaskId, h: HoldId)
    requires AttachedTo(w, t, h) && !OnDuty(call, t) && (c in w.calls ==> !OnDuty(w.calls[c], t))
    ensures PassesBy(w, Reserved(w, call, c, taskClass, hold), t, h)
  {
    if w.capacity.Some? {
      ReserveAdds(w.ledger, w.capacity.value, call.provider, taskClass, hold);
      assert !OnDuty(call.(hold := Some(hold)), t);
    }
  }

  lemma IdleReservedPassesBy(w: World, c: CallId, ok: bool, taskClass: TaskClass, hold: HoldId, t: TaskId, h: HoldId)
    requires Accounted(w) && WellFormed(w.ledger) && AttachedTo(w, t, h) && Suspended(w, c, {AwaitAvailability}) && w.calls[c].task == t
    ensures PassesBy(w, Step(w, AvailabilityChecked(c, ok, taskClass, hold)), t, h)
  {
    var call := w.calls[c].(point := AwaitReservation);
    ReservedPassesBy(w, c, call, taskClass, hold, t, h);
    IdleMovePassesBy(w, c, t, h);
    assert Step(w, AvailabilityChecked(c, ok, taskClass, hold)) == if ok then Reserved(w, call, c, taskClass, hold) else Ended(w, c);
  }

  lemma ExistingNotCreated(w: World, c: CallId, worktree: Worktree, projectActive: bool, now: int)
    requires c in w.calls && w.calls[c].task in w.db.tasks
    ensures WorktreeCreated(w, c, worktree, projectActive, now) == At(w, c, AwaitWorktreeRemoval)
  {
  }

  lemma IdleWorktreePassesBy(w: World, e: Event, t: TaskId, h: HoldId)
    requires Accounted(w) && WellFormed(w.ledger) && AttachedTo(w, t, h) && t in w.db.tasks
    requires e.WorktreeReady? && Suspended(w, e.c, {AwaitWorktree}) && w.calls[e.c].task == t
    ensures PassesBy(w, Step(w, e), t, h)
  {
    IdleMovePassesBy(w, e.c, t, h);
    if e.created.None? {
      assert CallFits(w, e.c);
    } else {
      ExistingNotCreated(w, e.c, e.created.value, e.projectActive, e.now);
    }
  }

  lemma IdleResumePassesBy(w: World, e: Event, t: TaskId, h: HoldId)
    requires Accounted(w) && WellFormed(w.ledger) && AttachedTo(w, t, h)
    requires e.Resume? && e.c in w.calls && w.calls[e.c].task == t && !OnDuty(w.calls[e.c], t)
    requires w.calls[e.c].point != AwaitReservation
    ensures PassesBy(w, Step(w, e), t, h)
  {
    IdleMovePassesBy(w, e.c, t, h);
    assert CallFits(w, e.c);
    if w.calls[e.c].point == AwaitClosing {
      assert Step(w, e) == Ended(w.(activeRenderers := w.activeRenderers - {t}), e.c);
    } else {
      assert Step(w, e) == w || Step(w, e) == Catch(w, e.c);
    }
  }

  lemma IdleThreadPassesBy(w: World, e: Event, t: TaskId, h: HoldId)
    requires Accounted(w) && WellFormed(w.ledger) && AttachedTo(w, t, h)
    requires e.ThreadReady? && Suspended(w, e.c, {AwaitThread}) && w.calls[e.c].task == t
    ensures PassesBy(w, Step(w, e), t, h)
  {
    IdleMovePassesBy(w, e.c, t, h);
    assert CallFits(w, e.c);
    assert Step(w, e) == Catch(w, e.c) || Step(w, e) == At(w, e.c, AwaitWorktree);
  }

  /** A call of the task itself that is neither in a turn nor about to reopen it. */
  lemma IdlePassesBy(w: World, e: Event, t: TaskId, h: HoldId)
    requires Accounted(w) && WellFormed(w.ledger) && AttachedTo(w, t, h) && t in w.db.tasks
    requires Resumes(w, e) && w.calls[e.c].task == t && !OnDuty(w.calls[e.c], t)
    requires !(e.Resume? && w.calls[e.c].point == AwaitReservation)
    ensures PassesBy(w, Step(w, e), t, h)
  {
    if e.ThreadReady? && Suspended(w, e.c, {AwaitThread}) {
      IdleThreadPassesBy(w, e, t, h);
    } else if e.WorktreeReady? && Suspended(w, e.c, {AwaitWorktree}) {
      IdleWorktreePassesBy(w, e, t, h);
    } else if e.AvailabilityChecked? && Suspended(w, e.c, {AwaitAvailability}) {
      IdleReservedPassesBy(w, e.c, e.ok, e.taskClass, e.hold, t, h);
    } else if e.Resume? {
      IdleResumePassesBy(w, e, t, h);
    } else {
      assert Step(w, e) == w;
    }
  }

  lemma NewcomerPassesBy(w: World, e: Event, t: TaskId, h: HoldId)
    requires Accounted(w) && WellFormed(w.ledger) && AttachedTo(w, t, h) && (e.StartTask? || e.ContinueTask?)
    ensures PassesBy(w, Step(w, e), t, h)
  {
    if e.c in w.calls {
      assert Step(w, e) == w;
    } else if e.StartTask? {
      var call := Call(StartCall, e.task, e.provider, e.threadId, None, None, AwaitThread, false);
      ReservedPassesBy(w, e.c, call, e.taskClass, e.hold, t, h);
    } else {
      var w' := Step(w, e);
      assert w' == w || (w' == w.(calls := w.calls[e.c := w'.calls[e.c]]) && w'.calls[e.c].point == AwaitAvailability);
    }
  }

  /** What a cancellation of another task changes: that task, its registered hold, and the calls of a
      start under way for it and of the cancellation itself. */
  lemma CancellingTouches(w: World, k: CallId, u: TaskId, now: int)
    ensures var w' := Cancelling(w, k, u, now);
            && (forall v :: v != u ==>
                  Lookup(w'.db.tasks, v) == Lookup(w.db.tasks, v) && Lookup(w'.db.results, v) == Lookup(w.db.results, v)
                  && Lookup(w'.activeReservations, v) == Lookup(w.activeReservations, v))
            && (w'.ledger == w.ledger
                || (u in w.activeReservations && w'.ledger == TryRelease(w.ledger, Some(w.activeReservations[u]))))
  {
  }

  lemma CancellingCalls(w: World, k: CallId, u: TaskId, now: int, d: CallId)
    requires Accounted(w)
    ensures var w' := Cancelling(w, k, u, now);
            || Lookup(w'.calls, d) == Lookup(w.calls, d)
            || (&& d in w'.calls && w'.calls[d].task == u
                && (d in w.calls ==> w.calls[d].task == u)
                && w'.calls[d].hold == if d in w.calls then w.calls[d].hold else None)
  {
    if u in w.startingTasks {
      assert Starts(w, u);
    }
    CancellingShape(w, k, u, now);
  }

  lemma CancelPassesBy(w: World, e: Event, t: TaskId, h: HoldId)
    requires Accounted(w) && WellFormed(w.ledger) && AttachedTo(w, t, h) && e.CancelTask? && e.task != t
    ensures PassesBy(w, Step(w, e), t, h)
  {
    CancellingTouches(w, e.c, e.task, e.now);
    if e.task in w.activeReservations {
      assert Registered(w, e.task);
    }
    forall d ensures Lookup(Cancelling(w, e.c, e.task, e.now).calls, d) == Lookup(w.calls, d)
                     || (d in Cancelling(w, e.c, e.task, e.now).calls && Cancelling(w, e.c, e.task, e.now).calls[d].task == e.task
                         && (d in w.calls ==> w.calls[d].task == e.task)) {
      CancellingCalls(w, e.c, e.task, e.now, d);
    }
  }

  /** Opening and closing a decision moves only a running or waiting task. */
  lemma TablesPassBy(w: World, e: Event, t: TaskId, h: HoldId)
    requires WellFormed(w.ledger) && t in w.db.tasks
    requires e.DecisionOpened? || e.DecisionClosed? || e.WorktreeClosed?
    requires w.db.tasks[t].status !in {Running, WaitingForUser} || e.WorktreeClosed? || e.task != t
    ensures PassesBy(w, Step(w, e), t, h)
  {
    TablesOnly(w, e);
  }

  /** No event but a restart, a cancellation or a reopening of the task, or one of a call on duty for it,
      concerns a task whose turn is not running. */
  lemma EventPassesBy(w: World, e: Event, t: TaskId, h: HoldId)
    requires Accounted(w) && WellFormed(w.ledger) && AttachedTo(w, t, h) && t in w.db.tasks
    requires w.db.tasks[t].status !in {Running, WaitingForUser}
    requires !e.Restart? && !e.CrashedRestart? && !(e.CancelTask? && e.task == t)
    requires Resumes(w, e) ==> !OnDuty(w.calls[e.c], t) && !ReopensTask(w, e, t)
    ensures PassesBy(w, Step(w, e), t, h)
  {
    if Resumes(w, e) {
      if w.calls[e.c].task == t { IdlePassesBy(w, e, t, h); } else { OthersPassBy(w, e, t, h); }
    } else if e.StartTask? || e.ContinueTask? {
      NewcomerPassesBy(w, e, t, h);
    } else if e.CancelTask? {
      CancelPassesBy(w, e, t, h);
    } else if e.DecisionOpened? || e.DecisionClosed? || e.WorktreeClosed? {
      TablesPassBy(w, e, t, h);
    } else if !e.Shutdown? {
      assert Step(w, e) == w;
    }
  }
}
