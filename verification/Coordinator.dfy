/**
 The task coordinator as a state machine. Every call on the coordinator is a sequence of segments
 separated by awaits; each segment runs without interruption, and the segments of any number of
 calls interleave. A `World` holds the shared tables, the coordinator's in-memory maps and, for every
 call in flight, the await it is suspended at. An `Event` resumes one call with the outcome of that await.
 */
module Coordinator {
  import opened Common
  import opened TaskStore
  import opened Usage

  type CallId = nat

  datatype Kind = StartCall | ContinueCall | CancelCall

  /** The await a call is suspended at. */
  datatype Point =
    | AwaitThread
    | AwaitWorktree
    | AwaitWorktreeRemoval
    | AwaitRenderer
    | AwaitStartingCard
    | AwaitAvailability
    | AwaitReservation
    | AwaitResumedRenderer
    | AwaitProvider
    | AwaitRunningCard
    | AwaitCompletion
    | AwaitClosing
    | AwaitCancelClosing

  datatype Call = Call(
    kind: Kind, task: TaskId, provider: Provider, threadId: ThreadId,
    hold: Option<HoldId>, session: Option<Session>, point: Point, cancelled: bool)

  datatype World = World(
    db: Tables,
    ledger: Ledger,
    capacity: Option<Capacity>,
    calls: map<CallId, Call>,
    activeReservations: map<TaskId, HoldId>,
    activeRenderers: map<TaskId, CallId>,
    startingTasks: map<TaskId, CallId>)

  datatype Event =
    | StartTask(c: CallId, task: TaskId, provider: Provider, threadId: ThreadId,
                taskClass: TaskClass, hold: HoldId)
    | ThreadReady(c: CallId, ok: bool)
    | WorktreeReady(c: CallId, created: Option<Worktree>, projectActive: bool, now: int)
    | ContinueTask(c: CallId, task: TaskId)
    | AvailabilityChecked(c: CallId, ok: bool, taskClass: TaskClass, hold: HoldId)
    | ProviderReady(c: CallId, started: Option<Session>, now: int)
    | TurnCompleted(c: CallId, outcome: Outcome, provider: Provider, usage: TurnUsage, now: int)
    | Resume(c: CallId, now: int)
    | CancelTask(c: CallId, task: TaskId, now: int)
    | DecisionOpened(task: TaskId, now: int)
    | DecisionClosed(task: TaskId, now: int)
    | WorktreeClosed(task: TaskId, now: int)
    | Shutdown
    | Restart(now: int)
    | CrashedRestart(tasks: set<TaskId>, released: set<HoldId>, now: int)

  // ---------------------------------------------------------------- shared pieces of segments

  predicate Suspended(w: World, c: CallId, points: set<Point>) {
    c in w.calls && w.calls[c].point in points
  }

  function At(w: World, c: CallId, point: Point): World
    requires c in w.calls
  {
    w.(calls := w.calls[c := w.calls[c].(point := point)])
  }

  function Ended(w: World, c: CallId): World { w.(calls := w.calls - {c}) }

  /** The catch clause around a call: a start releases its hold; a continuation also drops the map entry. */
  function Catch(w: World, c: CallId): World
    requires c in w.calls
  {
    var call := w.calls[c];
    Ended(w.(ledger := TryRelease(w.ledger, call.hold),
             activeReservations :=
               if call.kind == ContinueCall && call.hold.Some? then w.activeReservations - {call.task}
               else w.activeReservations), c)
  }

  /** Reserving before a turn; an admission error leaves no call behind. */
  ghost function Reserved(w: World, call: Call, c: CallId, taskClass: TaskClass, hold: HoldId): World {
    match w.capacity
    case None => w.(calls := w.calls[c := call])
    case Some(capacity) =>
      match Reserve(w.ledger, capacity, call.provider, taskClass, hold)
      case Err(_) => Ended(w, c)
      case Ok(ledger) => w.(ledger := ledger, calls := w.calls[c := call.(hold := Some(hold))])
  }

  /** Attaching the hold and registering it; nothing to do without a usage service. */
  function Attached(w: World, c: CallId): Option<World>
    requires c in w.calls
  {
    var call := w.calls[c];
    match call.hold
    case None => Some(w)
    case Some(h) =>
      match AttachTask(w.ledger, h, call.task)
      case Err(_) => None
      case Ok(ledger) =>
        Some(w.(ledger := ledger, activeReservations := w.activeReservations[call.task := h]))
  }

  /** Saving the result of a turn that has ended and settling its hold. */
  function Settled(w: World, c: CallId, provider: Provider, usage: TurnUsage): World
    requires c in w.calls && w.calls[c].task in w.db.tasks && WellFormed(w.ledger)
  {
    var call := w.calls[c];
    var status := w.db.tasks[call.task].status;
    if !Terminal(status) then Catch(w, c)
    else
      match SaveResult(w.db, call.task, provider, status)
      case Err(_) => Catch(w, c)
      case Ok(db) =>
        var ledger := if call.hold.Some? then Complete(w.ledger, call.hold.value, usage.(failed := status == Failed))
                      else w.ledger;
        At(w.(db := db, ledger := ledger, activeReservations := w.activeReservations - {call.task}), c, AwaitClosing)
  }

  /** Moving a live task to a terminal status before settling; a terminal task keeps its status. */
  function EndTurn(w: World, c: CallId, outcome: Outcome, provider: Provider, usage: TurnUsage, now: int): World
    requires c in w.calls && WellFormed(w.ledger)
  {
    var t := w.calls[c].task;
    if t !in w.db.tasks then Catch(w, c)
    else if Terminal(w.db.tasks[t].status) then Settled(w, c, provider, usage)
    else
      match Transition(w.db, t, {w.db.tasks[t].status}, outcome, now)
      case Err(_) => Catch(w, c)
      case Ok(db) => Settled(w.(db := db), c, provider, usage)
  }

  function FailStarting(w: World, c: CallId, now: int): World
    requires c in w.calls && WellFormed(w.ledger)
  {
    EndTurn(w, c, Failed, w.calls[c].provider, TurnUsage(None, 0, true), now)
  }

  function Finalize(w: World, c: CallId, outcome: Outcome, provider: Provider, usage: TurnUsage, now: int): World
    requires c in w.calls && WellFormed(w.ledger)
  {
    var t := w.calls[c].task;
    if t in w.db.tasks && t in w.db.results then
      Ended(w.(activeRenderers := w.activeRenderers - {t}, activeReservations := w.activeReservations - {t}), c)
    else EndTurn(w, c, outcome, provider, usage, now)
  }

  // ---------------------------------------------------------------- segments

  /** The worktree exists: persist the task, attach the hold, start the renderer. */
  function WorktreeCreated(w: World, c: CallId, worktree: Worktree, projectActive: bool, now: int): World
    requires c in w.calls
  {
    var call := w.calls[c];
    match CreateWithWorktree(w.db, call.task, projectActive, call.provider, call.threadId, worktree, now)
    case Err(_) => At(w, c, AwaitWorktreeRemoval)
    case Ok(db) =>
      var w' := w.(db := db);
      match Attached(w', c)
      case Some(a) => At(a.(activeRenderers := a.activeRenderers[call.task := c]), c, AwaitRenderer)
      case None =>
        match Transition(db, call.task, {Created}, Failed, now)
        case Err(_) => Catch(w', c)
        case Ok(failed) => Catch(w'.(db := failed), c)
  }

  /** The provider answered: check for cancellation, attach or compare the session, start running. */
  function ProviderStarted(w: World, c: CallId, session: Session, now: int): World
    requires c in w.calls && WellFormed(w.ledger)
  {
    var call := w.calls[c];
    var t := call.task;
    if call.kind == StartCall && call.cancelled then Ended(w, c)
    else if call.kind == StartCall && (t !in w.db.tasks || Terminal(w.db.tasks[t].status)) then Ended(w, c)
    else if call.kind == StartCall then
      match AttachProviderSession(w.db, t, session)
      case Err(_) => Catch(w, c)
      case Ok(db) => NowRunning(w.(db := db), c, now)
    else if call.session != Some(session) then FailStarting(w, c, now)
    else NowRunning(w, c, now)
  }

  function NowRunning(w: World, c: CallId, now: int): World
    requires c in w.calls
  {
    var t := w.calls[c].task;
    if t !in w.db.tasks || Terminal(w.db.tasks[t].status) then Ended(w, c)
    else
      match Transition(w.db, t, {Starting}, Running, now)
      case Err(_) => Catch(w, c)
      case Ok(db) => At(w.(db := db), c, AwaitRunningCard)
  }

  /** Reopening a terminal task for another turn. */
  function Reopened(w: World, c: CallId, now: int): World
    requires c in w.calls
  {
    var call := w.calls[c];
    match ReopenForContinuation(w.db, call.task, now)
    case Err(_) => Catch(w, c)
    case Ok(db) =>
      var w' := w.(db := db);
      match Attached(w', c)
      case None => Catch(w', c)
      case Some(a) => At(a.(activeRenderers := a.activeRenderers[call.task := c]), c, AwaitResumedRenderer)
  }

  /** The tail of a cancellation: the hold released is whichever is registered for the task now. */
  function CancelReleased(w: World, t: TaskId): World {
    if t in w.activeReservations
    then w.(ledger := TryRelease(w.ledger, Some(w.activeReservations[t])),
            activeReservations := w.activeReservations - {t})
    else w
  }

  function Cancelling(w: World, c: CallId, t: TaskId, now: int): World {
    if t !in w.db.tasks || Terminal(w.db.tasks[t].status) || c in w.calls then w
    else
      var flagged :=
        if t in w.startingTasks && w.startingTasks[t] in w.calls
        then w.(calls := w.calls[w.startingTasks[t] := w.calls[w.startingTasks[t]].(cancelled := true)])
        else w;
      match Transition(w.db, t, {w.db.tasks[t].status}, Cancelled, now)
      case Err(_) => flagged
      case Ok(db) =>
        var w' := flagged.(db := db);
        match SaveResult(db, t, w.db.tasks[t].provider, Cancelled)
        case Err(_) => w'
        case Ok(saved) =>
          var w'' := w'.(db := saved);
          if t in w.activeRenderers then
            w''.(calls := w''.calls[c := Call(CancelCall, t, w.db.tasks[t].provider, w.db.tasks[t].threadId,
                                              None, None, AwaitCancelClosing, false)])
          else CancelReleased(w'', t)
  }

  /** Restart recovery of some of the started tasks. */
  function RecoverTasks(db: Tables, ids: set<TaskId>, now: int): Tables {
    db.(tasks := map t | t in db.tasks ::
      if t in ids && Recoverable(db.tasks[t].status) then Moved(db.tasks[t], Interrupted, now) else db.tasks[t])
  }

  /** The holds restart recovery releases: without a task, or with one that is now terminal. */
  predicate Releasable(db: Tables, h: Hold) {
    h.taskId.None? || h.taskId.value !in db.tasks || Terminal(db.tasks[h.taskId.value].status)
  }

  /** Restart recovery of some of the active holds. */
  function RecoverHolds(l: Ledger, db: Tables, ids: set<HoldId>): Ledger {
    l.(holds := map id | id in l.holds ::
      if id in ids && l.holds[id].status == HoldActive && Releasable(db, l.holds[id])
      then l.holds[id].(status := HoldReleased, actualCost := None) else l.holds[id])
  }

  /** A process that stops keeps only its tables. */
  function Stopped(w: World): World {
    w.(calls := map[], activeReservations := map[], activeRenderers := map[], startingTasks := map[])
  }

  function Recovered(w: World, now: int): World {
    var db := RecoverTasks(w.db, w.db.tasks.Keys, now);
    Stopped(w).(db := db, ledger := RecoverHolds(w.ledger, db, w.ledger.holds.Keys))
  }

  predicate AllRecovered(db: Tables) { forall t :: t in db.tasks ==> !Recoverable(db.tasks[t].status) }

  /** Restart recovery that is itself cut short: in the task loop, so that no hold has been released yet,
      or after it in the release loop. */
  function PartlyRecovered(w: World, tasks: set<TaskId>, released: set<HoldId>, now: int): World {
    var db := RecoverTasks(w.db, tasks, now);
    Stopped(w).(db := db, ledger := if AllRecovered(db) then RecoverHolds(w.ledger, db, released) else w.ledger)
  }

  /** Resuming a call whose await has no outcome worth telling apart. */
  function Resumed(w: World, c: CallId, now: int): World
    requires c in w.calls
  {
    var call := w.calls[c];
    match call.point
    case AwaitWorktreeRemoval => Catch(w, c)
    case AwaitRenderer =>
      (match Transition(w.db, call.task, {Created}, Starting, now)
       case Err(_) => Catch(w, c)
       case Ok(db) => At(w.(db := db), c, AwaitStartingCard))
    case AwaitStartingCard =>
      w.(startingTasks := w.startingTasks[call.task := c],
         calls := w.calls[c := call.(point := AwaitProvider, cancelled := false)])
    case AwaitReservation => Reopened(w, c, now)
    case AwaitResumedRenderer => At(w, c, AwaitProvider)
    case AwaitRunningCard => At(w, c, AwaitCompletion)
    case AwaitClosing => Ended(w.(activeRenderers := w.activeRenderers - {call.task}), c)
    case AwaitCancelClosing =>
      CancelReleased(Ended(w.(activeRenderers := w.activeRenderers - {call.task}), c), call.task)
    case _ => w
  }

  ghost function Step(w: World, e: Event): World
    requires WellFormed(w.ledger)
  {
    match e
    case StartTask(c, task, provider, threadId, taskClass, hold) =>
      if c in w.calls then w
      else Reserved(w, Call(StartCall, task, provider, threadId, None, None, AwaitThread, false), c, taskClass, hold)
    case ThreadReady(c, ok) =>
      if !Suspended(w, c, {AwaitThread}) then w
      else if ok then At(w, c, AwaitWorktree) else Catch(w, c)
    case WorktreeReady(c, created, projectActive, now) =>
      if !Suspended(w, c, {AwaitWorktree}) then w
      else if created.None? then Catch(w, c)
      else WorktreeCreated(w, c, created.value, projectActive, now)
    case ContinueTask(c, task) =>
      if c in w.calls || task !in w.db.tasks || !Terminal(w.db.tasks[task].status) then w
      else if task !in w.db.sessions || task !in w.db.worktrees || w.db.worktrees[task].removedAt.Some? then w
      else
        w.(calls := w.calls[c := Call(ContinueCall, task, w.db.tasks[task].provider, w.db.tasks[task].threadId,
                                      None, Some(w.db.sessions[task]), AwaitAvailability, false)])
    case AvailabilityChecked(c, ok, taskClass, hold) =>
      if !Suspended(w, c, {AwaitAvailability}) then w
      else if !ok then Ended(w, c)
      else Reserved(w, w.calls[c].(point := AwaitReservation), c, taskClass, hold)
    case ProviderReady(c, started, now) =>
      if !Suspended(w, c, {AwaitProvider}) then w
      else
        var w' := w.(startingTasks := w.startingTasks - {w.calls[c].task});
        if started.None? then FailStarting(w', c, now) else ProviderStarted(w', c, started.value, now)
    case TurnCompleted(c, outcome, provider, usage, now) =>
      if !Suspended(w, c, {AwaitCompletion}) then w
      else Finalize(w, c, outcome, provider, usage, now)
    case Resume(c, now) => if c in w.calls then Resumed(w, c, now) else w
    case CancelTask(c, task, now) => Cancelling(w, c, task, now)
    case DecisionOpened(task, now) =>
      (match Transition(w.db, task, {Running}, WaitingForUser, now) case Ok(db) => w.(db := db) case Err(_) => w)
    case DecisionClosed(task, now) =>
      (match Transition(w.db, task, {WaitingForUser}, Running, now) case Ok(db) => w.(db := db) case Err(_) => w)
    case WorktreeClosed(task, now) =>
      (match MarkWorktreeRemoved(w.db, task, now) case Ok(db) => w.(db := db) case Err(_) => w)
    case Shutdown => w.(activeRenderers := map[])
    case Restart(now) => Recovered(w, now)
    case CrashedRestart(tasks, released, now) => PartlyRecovered(w, tasks, released, now)
  }

  // ---------------------------------------------------------------- the ledger over one event

  lemma TryReleaseBalanced(l: Ledger, id: Option<HoldId>)
    requires Balanced(l)
    ensures Balanced(TryRelease(l, id))
  {
    if id.Some? {
      ReleaseBalanced(l, id.value);
    }
  }

  lemma CatchBalanced(w: World, c: CallId)
    requires c in w.calls && Balanced(w.ledger)
    ensures Balanced(Catch(w, c).ledger)
  {
    TryReleaseBalanced(w.ledger, w.calls[c].hold);
  }

  lemma ReservedBalanced(w: World, call: Call, c: CallId, taskClass: TaskClass, hold: HoldId)
    requires Balanced(w.ledger)
    ensures Balanced(Reserved(w, call, c, taskClass, hold).ledger)
  {
    if w.capacity.Some? {
      var e := EstimateFor(taskClass, RecentCosts(w.ledger.observations, call.provider, taskClass, 50));
      CreateBalanced(w.ledger, hold, call.provider, taskClass, e.low, e.high);
    }
  }

  lemma AttachedBalanced(w: World, c: CallId)
    requires c in w.calls && Balanced(w.ledger)
    ensures Attached(w, c).Some? ==> Balanced(Attached(w, c).value.ledger) && c in Attached(w, c).value.calls
  {
    if w.calls[c].hold.Some? {
      AttachBalanced(w.ledger, w.calls[c].hold.value, w.calls[c].task);
    }
  }

  lemma SettledBalanced(w: World, c: CallId, provider: Provider, usage: TurnUsage)
    requires c in w.calls && w.calls[c].task in w.db.tasks && Balanced(w.ledger)
    ensures Balanced(Settled(w, c, provider, usage).ledger)
  {
    CatchBalanced(w, c);
    if w.calls[c].hold.Some? {
      var failed := w.db.tasks[w.calls[c].task].status == Failed;
      CompleteBalanced(w.ledger, w.calls[c].hold.value, usage.(failed := failed));
    }
  }

  lemma EndTurnBalanced(w: World, c: CallId, outcome: Outcome, provider: Provider, usage: TurnUsage, now: int)
    requires c in w.calls && Balanced(w.ledger)
    ensures Balanced(EndTurn(w, c, outcome, provider, usage, now).ledger)
  {
    CatchBalanced(w, c);
    var t := w.calls[c].task;
    if t in w.db.tasks {
      if Terminal(w.db.tasks[t].status) {
        SettledBalanced(w, c, provider, usage);
      } else {
        var moved := Transition(w.db, t, {w.db.tasks[t].status}, outcome, now);
        if moved.Ok? {
          SettledBalanced(w.(db := moved.value), c, provider, usage);
        }
      }
    }
  }

  lemma WorktreeCreatedBalanced(w: World, c: CallId, worktree: Worktree, projectActive: bool, now: int)
    requires c in w.calls && Balanced(w.ledger)
    ensures Balanced(WorktreeCreated(w, c, worktree, projectActive, now).ledger)
  {
    CatchBalanced(w, c);
    AttachedBalanced(w, c);
  }

  lemma NowRunningLedger(w: World, c: CallId, now: int)
    requires c in w.calls
    ensures var l := NowRunning(w, c, now).ledger;
            l == w.ledger || l == TryRelease(w.ledger, w.calls[c].hold)
  {
  }

  /** What a provider's answer does to the ledger: nothing, the catch clause's release, or a failed turn. */
  lemma ProviderStartedLedger(w: World, c: CallId, session: Session, now: int)
    requires c in w.calls && WellFormed(w.ledger)
    ensures var l := ProviderStarted(w, c, session, now).ledger;
            l == w.ledger || l == TryRelease(w.ledger, w.calls[c].hold) || l == FailStarting(w, c, now).ledger
  {
    NowRunningLedger(w, c, now);
    if w.calls[c].kind == StartCall {
      var attached := AttachProviderSession(w.db, w.calls[c].task, session);
      if attached.Ok? {
        NowRunningLedger(w.(db := attached.value), c, now);
      }
    } else if w.calls[c].session != Some(session) {
      assert ProviderStarted(w, c, session, now) == FailStarting(w, c, now);
    }
  }

  lemma ProviderStartedBalanced(w: World, c: CallId, session: Session, now: int)
    requires c in w.calls && Balanced(w.ledger)
    ensures Balanced(ProviderStarted(w, c, session, now).ledger)
  {
    ProviderStartedLedger(w, c, session, now);
    TryReleaseBalanced(w.ledger, w.calls[c].hold);
    EndTurnBalanced(w, c, Failed, w.calls[c].provider, TurnUsage(None, 0, true), now);
  }

  lemma CancelReleasedBalanced(w: World, t: TaskId)
    requires Balanced(w.ledger)
    ensures Balanced(CancelReleased(w, t).ledger)
  {
    if t in w.activeReservations {
      TryReleaseBalanced(w.ledger, Some(w.activeReservations[t]));
    }
  }

  lemma CancellingBalanced(w: World, c: CallId, t: TaskId, now: int)
    requires Balanced(w.ledger)
    ensures Balanced(Cancelling(w, c, t, now).ledger)
  {
    if t in w.activeReservations {
      TryReleaseBalanced(w.ledger, Some(w.activeReservations[t]));
    }
  }

  lemma ResumedBalanced(w: World, c: CallId, now: int)
    requires c in w.calls && Balanced(w.ledger)
    ensures Balanced(Resumed(w, c, now).ledger)
  {
    CatchBalanced(w, c);
    AttachedBalanced(w, c);
    CancelReleasedBalanced(Ended(w.(activeRenderers := w.activeRenderers - {w.calls[c].task}), c), w.calls[c].task);
  }

  lemma {:induction false} RecoverHoldsBalanced(l: Ledger, db: Tables, ids: set<HoldId>)
    requires Balanced(l)
    ensures Balanced(RecoverHolds(l, db, ids))
  {
    forall o: Observation ensures ConsumedCount(RecoverHolds(l, db, ids).holds, o) == ConsumedCount(l.holds, o) {
      RecoverHoldsCount(l.holds, db, ids, o);
      assert RecoverHolds(l, db, ids).holds == RecoverHolds(Ledger(l.holds, []), db, ids).holds;
    }
  }

  lemma {:induction false} RecoverHoldsCount(holds: map<HoldId, Hold>, db: Tables, ids: set<HoldId>, o: Observation)
    ensures ConsumedCount(RecoverHolds(Ledger(holds, []), db, ids).holds, o) == ConsumedCount(holds, o)
    decreases |holds|
  {
    var released := RecoverHolds(Ledger(holds, []), db, ids).holds;
    if holds == map[] {
      assert released == map[];
    } else {
      var k :| k in holds;
      ConsumedCountSplit(holds, o, k);
      ConsumedCountSplit(released, o, k);
      assert released - {k} == RecoverHolds(Ledger(holds - {k}, []), db, ids).holds;
      RecoverHoldsCount(holds - {k}, db, ids, o);
    }
  }

  /** Over every event, each consumed hold stands for exactly one observation and no observation is lost. */
  lemma StepBalanced(w: World, e: Event)
    requires Balanced(w.ledger)
    ensures Balanced(Step(w, e).ledger)
  {
    match e
    case StartTask(c, task, provider, threadId, taskClass, hold) =>
      ReservedBalanced(w, Call(StartCall, task, provider, threadId, None, None, AwaitThread, false), c, taskClass, hold);
    case AvailabilityChecked(c, ok, taskClass, hold) =>
      if c in w.calls {
        ReservedBalanced(w, w.calls[c].(point := AwaitReservation), c, taskClass, hold);
      }
    case ThreadReady(c, ok) =>
      if c in w.calls { CatchBalanced(w, c); }
    case WorktreeReady(c, created, projectActive, now) =>
      if c in w.calls {
        if created.Some? { WorktreeCreatedBalanced(w, c, created.value, projectActive, now); } else { CatchBalanced(w, c); }
      }
    case ProviderReady(c, started, now) =>
      if c in w.calls {
        var w' := w.(startingTasks := w.startingTasks - {w.calls[c].task});
        if started.Some? { ProviderStartedBalanced(w', c, started.value, now); }
        else { EndTurnBalanced(w', c, Failed, w.calls[c].provider, TurnUsage(None, 0, true), now); }
      }
    case TurnCompleted(c, outcome, provider, usage, now) =>
      if c in w.calls { EndTurnBalanced(w, c, outcome, provider, usage, now); }
    case Resume(c, now) =>
      if c in w.calls { ResumedBalanced(w, c, now); }
    case CancelTask(c, task, now) => CancellingBalanced(w, c, task, now);
    case Restart(now) => RecoverHoldsBalanced(w.ledger, RecoverTasks(w.db, w.db.tasks.Keys, now), w.ledger.holds.Keys);
    case CrashedRestart(tasks, released, now) => RecoverHoldsBalanced(w.ledger, RecoverTasks(w.db, tasks, now), released);
    case ContinueTask(_, _) =>
    case DecisionOpened(_, _) =>
    case DecisionClosed(_, _) =>
    case WorktreeClosed(_, _) =>
    case Shutdown =>
  }

  ghost function Run(w: World, es: seq<Event>): World
    requires Balanced(w.ledger)
    decreases |es|
  {
    if es == [] then w
    else
      StepBalanced(w, es[0]);
      Run(Step(w, es[0]), es[1..])
  }

  // ---------------------------------------------------------------- runs in pieces

  lemma RunOne(w: World, e: Event)
    requires Balanced(w.ledger)
    ensures Balanced(Step(w, e).ledger) && Run(w, [e]) == Step(w, e)
  {
    StepBalanced(w, e);
    assert Run(Step(w, e), []) == Step(w, e);
  }

  lemma RunStep(w: World, es: seq<Event>)
    requires Balanced(w.ledger) && es != []
    ensures Balanced(Step(w, es[0]).ledger) && Run(w, es) == Run(Step(w, es[0]), es[1..])
  {
    StepBalanced(w, es[0]);
  }

  lemma {:induction false} RunBalanced(w: World, es: seq<Event>)
    requires Balanced(w.ledger)
    ensures Balanced(Run(w, es).ledger)
    decreases |es|
  {
    if es != [] {
      StepBalanced(w, es[0]);
      RunBalanced(Step(w, es[0]), es[1..]);
    }
  }

  lemma {:induction false} RunAppend(w: World, a: seq<Event>, b: seq<Event>)
    requires Balanced(w.ledger)
    ensures Balanced(Run(w, a).ledger) && Run(w, a + b) == Run(Run(w, a), b)
    decreases |a|
  {
    RunBalanced(w, a);
    if a == [] {
      assert a + b == b;
    } else {
      RunStep(w, a);
      RunStep(w, a + b);
      assert (a + b)[1..] == a[1..] + b;
      RunAppend(Step(w, a[0]), a[1..], b);
    }
  }

  lemma RunSnoc(w: World, a: seq<Event>, e: Event)
    requires Balanced(w.ledger)
    ensures Balanced(Run(w, a).ledger) && Run(w, a + [e]) == Step(Run(w, a), e) && Balanced(Run(w, a + [e]).ledger)
  {
    RunAppend(w, a, [e]);
    RunOne(Run(w, a), e);
  }
}
