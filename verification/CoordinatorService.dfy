/**
 The coordinator's own code: the maps it updates in place between awaits and the repositories it calls.
 Every method is one uninterrupted segment and is proved to take the world exactly one `Step`.
 */
module CoordinatorService {
  import opened Common
  import opened TaskStore
  import opened Usage
  import opened Coordinator

  class TaskCoordinator {
    const tasks: TaskRepository
    const usage: UsageAdmission
    const usageEnabled: bool
    var calls: map<CallId, Call>
    var activeReservations: map<TaskId, HoldId>
    var activeRenderers: map<TaskId, CallId>
    var startingTasks: map<TaskId, CallId>

    ghost function View(): World
      reads this, tasks, usage
    {
      World(tasks.View(), usage.View(), if usageEnabled then Some(usage.capacity) else None,
            calls, activeReservations, activeRenderers, startingTasks)
    }

    constructor (tasks: TaskRepository, usage: UsageAdmission, usageEnabled: bool)
      ensures this.tasks == tasks && this.usage == usage && this.usageEnabled == usageEnabled
      ensures View() == Stopped(View())
    {
      this.tasks := tasks;
      this.usage := usage;
      this.usageEnabled := usageEnabled;
      calls, activeReservations, activeRenderers, startingTasks := map[], map[], map[], map[];
    }

    // -------------------------------------------------------------- shared pieces

    method CatchCall(c: CallId)
      requires c in calls
      modifies this, usage`holds
      ensures View() == Catch(old(View()), c)
    {
      var call := calls[c];
      if call.hold.Some? {
        var _ := usage.ReleaseHold(call.hold.value);
        if call.kind == ContinueCall {
          activeReservations := activeReservations - {call.task};
        }
      }
      calls := calls - {c};
    }

    method ReserveHold(call: Call, c: CallId, taskClass: TaskClass, hold: HoldId)
      modifies this`calls, usage`holds
      ensures View() == Reserved(old(View()), call, c, taskClass, hold)
    {
      if !usageEnabled {
        calls := calls[c := call];
        return;
      }
      var reserved := usage.ReserveHold(call.provider, taskClass, hold);
      match reserved {
        case Ok(_) => calls := calls[c := call.(hold := Some(hold))];
        case Err(_) => calls := calls - {c};
      }
    }

    method AttachHold(c: CallId) returns (ok: bool)
      requires c in calls
      modifies this`activeReservations, usage`holds
      ensures ok <==> Attached(old(View()), c).Some?
      ensures View() == if ok then Attached(old(View()), c).value else old(View())
    {
      var call := calls[c];
      if call.hold.None? {
        return true;
      }
      var attached := usage.AttachHold(call.hold.value, call.task);
      if attached.Err? {
        return false;
      }
      activeReservations := activeReservations[call.task := call.hold.value];
      return true;
    }

    method SettleTurn(c: CallId, provider: Provider, turn: TurnUsage)
      requires c in calls && calls[c].task in tasks.tasks && WellFormed(usage.View())
      modifies this, tasks`results, usage`holds, usage`observations
      ensures View() == Settled(old(View()), c, provider, turn)
    {
      var call := calls[c];
      var status := tasks.tasks[call.task].status;
      if !Terminal(status) {
        CatchCall(c);
        return;
      }
      var saved := tasks.Save(call.task, provider, status);
      if saved.Err? {
        CatchCall(c);
        return;
      }
      if call.hold.Some? {
        usage.CompleteHold(call.hold.value, turn.(failed := status == Failed));
      }
      activeReservations := activeReservations - {call.task};
      calls := calls[c := call.(point := AwaitClosing)];
    }

    method EndTurnOf(c: CallId, outcome: Outcome, provider: Provider, turn: TurnUsage, now: int)
      requires c in calls && WellFormed(usage.View())
      modifies this, tasks`tasks, tasks`results, usage`holds, usage`observations
      ensures View() == EndTurn(old(View()), c, outcome, provider, turn, now)
    {
      var t := calls[c].task;
      if t !in tasks.tasks {
        CatchCall(c);
        return;
      }
      var current := tasks.tasks[t].status;
      if !Terminal(current) {
        var moved := tasks.Move(t, {current}, outcome, now);
        if moved.Err? {
          CatchCall(c);
          return;
        }
      }
      SettleTurn(c, provider, turn);
    }

    method FailStartingTask(c: CallId, now: int)
      requires c in calls && WellFormed(usage.View())
      modifies this, tasks`tasks, tasks`results, usage`holds, usage`observations
      ensures View() == FailStarting(old(View()), c, now)
    {
      EndTurnOf(c, Failed, calls[c].provider, TurnUsage(None, 0, true), now);
    }

    method FinalizeTask(c: CallId, outcome: Outcome, provider: Provider, turn: TurnUsage, now: int)
      requires c in calls && WellFormed(usage.View())
      modifies this, tasks`tasks, tasks`results, usage`holds, usage`observations
      ensures View() == Finalize(old(View()), c, outcome, provider, turn, now)
    {
      var t := calls[c].task;
      if t in tasks.tasks && t in tasks.results {
        activeRenderers := activeRenderers - {t};
        activeReservations := activeReservations - {t};
        calls := calls - {c};
        return;
      }
      EndTurnOf(c, outcome, provider, turn, now);
    }

    // -------------------------------------------------------------- starting

    method StartNewTask(c: CallId, task: TaskId, provider: Provider, threadId: ThreadId, taskClass: TaskClass, hold: HoldId)
      requires WellFormed(usage.View())
      modifies this`calls, usage`holds
      ensures View() == Step(old(View()), StartTask(c, task, provider, threadId, taskClass, hold))
    {
      if c in calls {
        return;
      }
      ReserveHold(Call(StartCall, task, provider, threadId, None, None, AwaitThread, false), c, taskClass, hold);
    }

    method ThreadStarted(c: CallId, ok: bool)
      requires WellFormed(usage.View())
      modifies this, usage`holds
      ensures View() == Step(old(View()), ThreadReady(c, ok))
    {
      if c !in calls || calls[c].point != AwaitThread {
        return;
      }
      if !ok {
        CatchCall(c);
        return;
      }
      calls := calls[c := calls[c].(point := AwaitWorktree)];
    }

    method PersistTask(c: CallId, worktree: Worktree, projectActive: bool, now: int)
      requires c in calls
      modifies this, tasks, usage`holds
      ensures View() == Coordinator.WorktreeCreated(old(View()), c, worktree, projectActive, now)
    {
      var call := calls[c];
      var created := tasks.Create(call.task, projectActive, call.provider, call.threadId, worktree, now);
      if created.Err? {
        calls := calls[c := call.(point := AwaitWorktreeRemoval)];
        return;
      }
      var attached := AttachHold(c);
      if !attached {
        var _ := tasks.Move(call.task, {Created}, Failed, now);
        CatchCall(c);
        return;
      }
      activeRenderers := activeRenderers[call.task := c];
      calls := calls[c := call.(point := AwaitRenderer)];
    }

    method WorktreeAnswered(c: CallId, created: Option<Worktree>, projectActive: bool, now: int)
      requires WellFormed(usage.View())
      modifies this, tasks, usage`holds
      ensures View() == Step(old(View()), WorktreeReady(c, created, projectActive, now))
    {
      if c !in calls || calls[c].point != AwaitWorktree {
        return;
      }
      match created {
        case None => CatchCall(c);
        case Some(worktree) => PersistTask(c, worktree, projectActive, now);
      }
    }

    // -------------------------------------------------------------- continuing

    method ContinueInThread(c: CallId, task: TaskId)
      requires WellFormed(usage.View())
      modifies this`calls
      ensures View() == Step(old(View()), ContinueTask(c, task))
    {
      if c in calls || task !in tasks.tasks || !Terminal(tasks.tasks[task].status) {
        return;
      }
      if task !in tasks.sessions || task !in tasks.worktrees || tasks.worktrees[task].removedAt.Some? {
        return;
      }
      var row := tasks.tasks[task];
      calls := calls[c := Call(ContinueCall, task, row.provider, row.threadId, None, Some(tasks.sessions[task]),
                               AwaitAvailability, false)];
    }

    method ReserveContinuation(c: CallId, ok: bool, taskClass: TaskClass, hold: HoldId)
      requires WellFormed(usage.View())
      modifies this`calls, usage`holds
      ensures View() == Step(old(View()), AvailabilityChecked(c, ok, taskClass, hold))
    {
      if c !in calls || calls[c].point != AwaitAvailability {
        return;
      }
      if !ok {
        calls := calls - {c};
        return;
      }
      ReserveHold(calls[c].(point := AwaitReservation), c, taskClass, hold);
    }

    method ReopenTask(c: CallId, now: int)
      requires c in calls
      modifies this, tasks`tasks, tasks`results, usage`holds
      ensures View() == Reopened(old(View()), c, now)
    {
      var call := calls[c];
      var reopened := tasks.Reopen(call.task, now);
      if reopened.Err? {
        CatchCall(c);
        return;
      }
      var attached := AttachHold(c);
      if !attached {
        CatchCall(c);
        return;
      }
      activeRenderers := activeRenderers[call.task := c];
      calls := calls[c := call.(point := AwaitResumedRenderer)];
    }

    // -------------------------------------------------------------- the provider turn

    method BeginRunning(c: CallId, now: int)
      requires c in calls
      modifies this, tasks`tasks, usage`holds
      ensures View() == NowRunning(old(View()), c, now)
    {
      var t := calls[c].task;
      if t !in tasks.tasks || Terminal(tasks.tasks[t].status) {
        calls := calls - {c};
        return;
      }
      var moved := tasks.Move(t, {Starting}, Running, now);
      if moved.Err? {
        CatchCall(c);
        return;
      }
      calls := calls[c := calls[c].(point := AwaitRunningCard)];
    }

    method SessionStarted(c: CallId, session: Session, now: int)
      requires c in calls && WellFormed(usage.View())
      modifies this, tasks, usage`holds, usage`observations
      ensures View() == ProviderStarted(old(View()), c, session, now)
    {
      var call := calls[c];
      if call.kind != StartCall {
        if call.session != Some(session) {
          FailStartingTask(c, now);
        } else {
          BeginRunning(c, now);
        }
        return;
      }
      if call.cancelled || call.task !in tasks.tasks || Terminal(tasks.tasks[call.task].status) {
        calls := calls - {c};
        return;
      }
      var attached := tasks.Attach(call.task, session);
      if attached.Err? {
        CatchCall(c);
        return;
      }
      BeginRunning(c, now);
    }

    method ProviderAnswered(c: CallId, started: Option<Session>, now: int)
      requires WellFormed(usage.View())
      modifies this, tasks, usage`holds, usage`observations
      ensures View() == Step(old(View()), ProviderReady(c, started, now))
    {
      if c !in calls || calls[c].point != AwaitProvider {
        return;
      }
      startingTasks := startingTasks - {calls[c].task};
      match started {
        case None => FailStartingTask(c, now);
        case Some(session) => SessionStarted(c, session, now);
      }
    }

    method CompletionArrived(c: CallId, outcome: Outcome, provider: Provider, turn: TurnUsage, now: int)
      requires WellFormed(usage.View())
      modifies this, tasks`tasks, tasks`results, usage`holds, usage`observations
      ensures View() == Step(old(View()), TurnCompleted(c, outcome, provider, turn, now))
    {
      if c !in calls || calls[c].point != AwaitCompletion {
        return;
      }
      FinalizeTask(c, outcome, provider, turn, now);
    }

    /** The awaits whose outcome does not matter: rendering, card updates, cleanup. */
    method ResumeCall(c: CallId, now: int)
      requires WellFormed(usage.View())
      modifies this, tasks`tasks, tasks`results, usage`holds
      ensures View() == Step(old(View()), Resume(c, now))
    {
      if c !in calls {
        return;
      }
      var call := calls[c];
      match call.point {
        case AwaitWorktreeRemoval => CatchCall(c);
        case AwaitRenderer =>
          var moved := tasks.Move(call.task, {Created}, Starting, now);
          if moved.Err? {
            CatchCall(c);
          } else {
            calls := calls[c := call.(point := AwaitStartingCard)];
          }
        case AwaitStartingCard =>
          startingTasks := startingTasks[call.task := c];
          calls := calls[c := call.(point := AwaitProvider, cancelled := false)];
        case AwaitReservation => ReopenTask(c, now);
        case AwaitResumedRenderer => calls := calls[c := call.(point := AwaitProvider)];
        case AwaitRunningCard => calls := calls[c := call.(point := AwaitCompletion)];
        case AwaitClosing =>
          activeRenderers := activeRenderers - {call.task};
          calls := calls - {c};
        case AwaitCancelClosing =>
          activeRenderers := activeRenderers - {call.task};
          calls := calls - {c};
          ReleaseRegistered(call.task);
        case _ =>
      }
    }

    // -------------------------------------------------------------- cancelling and user decisions

    method ReleaseRegistered(t: TaskId)
      modifies this`activeReservations, usage`holds
      ensures View() == CancelReleased(old(View()), t)
    {
      if t in activeReservations {
        var _ := usage.ReleaseHold(activeReservations[t]);
        activeReservations := activeReservations - {t};
      }
    }

    method CancelByThread(c: CallId, t: TaskId, now: int)
      requires WellFormed(usage.View())
      modifies this, tasks`tasks, tasks`results, usage`holds
      ensures View() == Step(old(View()), CancelTask(c, t, now))
    {
      if t !in tasks.tasks || Terminal(tasks.tasks[t].status) || c in calls {
        return;
      }
      var task := tasks.tasks[t];
      if t in startingTasks && startingTasks[t] in calls {
        var s := startingTasks[t];
        calls := calls[s := calls[s].(cancelled := true)];
      }
      var moved := tasks.Move(t, {task.status}, Cancelled, now);
      if moved.Err? {
        return;
      }
      var saved := tasks.Save(t, task.provider, Cancelled);
      if saved.Err? {
        return;
      }
      if t in activeRenderers {
        calls := calls[c := Call(CancelCall, t, task.provider, task.threadId, None, None, AwaitCancelClosing, false)];
        return;
      }
      ReleaseRegistered(t);
    }

    /** Asking the user for a decision, and having it. */
    method WaitForDecision(t: TaskId, now: int)
      requires WellFormed(usage.View())
      modifies tasks`tasks
      ensures View() == Step(old(View()), DecisionOpened(t, now))
    {
      var _ := tasks.Move(t, {Running}, WaitingForUser, now);
    }

    method DecisionMade(t: TaskId, now: int)
      requires WellFormed(usage.View())
      modifies tasks`tasks
      ensures View() == Step(old(View()), DecisionClosed(t, now))
    {
      if t in tasks.tasks && tasks.tasks[t].status == WaitingForUser {
        var _ := tasks.Move(t, {WaitingForUser}, Running, now);
      }
    }

    /** Forgetting the renderers; calls in flight go on. */
    method ShutDown()
      requires WellFormed(usage.View())
      modifies this`activeRenderers
      ensures View() == Step(old(View()), Shutdown)
    {
      activeRenderers := map[];
    }

    // -------------------------------------------------------------- recovery at start-up

    /** Interrupts every started task it finds, one at a time; the process may stop part way. */
    method RecoverInterruptedTasks(now: int) returns (recovered: seq<TaskId>, finished: bool)
      modifies tasks`tasks
      ensures tasks.View() == RecoverTasks(old(tasks.View()), (set t | t in recovered), now)
      ensures finished ==> tasks.View() == RecoverTasks(old(tasks.View()), old(tasks.tasks).Keys, now)
      ensures forall t :: t in recovered ==> t in tasks.tasks && tasks.tasks[t].status == Interrupted
    {
      var found := tasks.ListRecoverable();
      ghost var before := tasks.tasks;
      recovered, finished := [], true;
      while |recovered| < |found|
        invariant |recovered| <= |found| && recovered == found[..|recovered|]
        invariant tasks.worktrees == old(tasks.worktrees) && tasks.sessions == old(tasks.sessions) && tasks.results == old(tasks.results)
        invariant tasks.tasks.Keys == before.Keys
        invariant forall t :: t in before ==>
                    tasks.tasks[t] == if t in recovered then Moved(before[t], Interrupted, now) else before[t]
        decreases |found| - |recovered|
      {
        if * {
          finished := false;
          break;
        }
        var id := found[|recovered|];
        assert id !in recovered;
        var moved := tasks.Move(id, {tasks.tasks[id].status}, Interrupted, now);
        assert moved.Ok?;
        recovered := recovered + [id];
      }
      assert finished ==> recovered == found;
    }

    /** One round of the release loop. */
    method ReleaseOne(id: HoldId, recovered: set<TaskId>)
      requires id in usage.holds && usage.holds[id].status == HoldActive
      requires forall t :: t in recovered ==> t in tasks.tasks && Terminal(tasks.tasks[t].status)
      modifies usage`holds
      ensures usage.View() == RecoverHolds(old(usage.View()), tasks.View(), {id})
    {
      var taskId := usage.holds[id].taskId;
      if taskId.None? || taskId.value !in tasks.tasks || taskId.value in recovered
         || Terminal(tasks.tasks[taskId.value].status)
      {
        var _ := usage.ReleaseHold(id);
      }
    }

    /** Releases the holds no task can settle any more; the process may stop part way here too. */
    method ReleaseRecovered(recovered: set<TaskId>) returns (ghost visited: set<HoldId>, finished: bool)
      requires forall t :: t in recovered ==> t in tasks.tasks && Terminal(tasks.tasks[t].status)
      modifies usage`holds
      ensures usage.View() == RecoverHolds(old(usage.View()), tasks.View(), visited)
      ensures finished ==> usage.View() == RecoverHolds(old(usage.View()), tasks.View(), old(usage.holds).Keys)
    {
      var active := usage.Reservations();
      ghost var before := usage.View();
      assert forall id :: id in active <==> IsActive(before, id);
      var i := 0;
      visited, finished := {}, true;
      NoHoldRecovered(before, tasks.View());
      while i < |active|
        invariant 0 <= i <= |active|
        invariant forall id :: id in visited <==> id in active[..i]
        invariant usage.View() == RecoverHolds(before, tasks.View(), visited)
        decreases |active| - i
      {
        if * {
          finished := false;
          break;
        }
        assert active[i] in active && active[i] !in active[..i];
        ReleaseOne(active[i], recovered);
        RecoverOneMore(before, tasks.View(), visited, active[i]);
        visited := visited + {active[i]};
        i := i + 1;
      }
      if finished {
        assert active[..i] == active;
        OnlyActiveMatters(before, tasks.View(), visited);
      }
    }

    /** Start-up after a stop: a fresh process with the same tables. */
    method RecoverRuntime(now: int) returns (ghost event: Event)
      requires WellFormed(usage.View())
      modifies this, tasks`tasks, usage`holds
      ensures event == Restart(now) || (event.CrashedRestart? && event.now == now)
      ensures View() == Step(old(View()), event)
    {
      calls, activeReservations, activeRenderers, startingTasks := map[], map[], map[], map[];
      var finished;
      ghost var ids, visited;
      ids, visited, finished := RecoverTables(now);
      event := if finished then Restart(now) else CrashedRestart(ids, visited, now);
    }

    /** The two loops of restart recovery, as far as they get. */
    method RecoverTables(now: int) returns (ghost ids: set<TaskId>, ghost visited: set<HoldId>, finished: bool)
      requires View() == Stopped(View())
      modifies tasks`tasks, usage`holds
      ensures View() == PartlyRecovered(old(View()), ids, visited, now)
      ensures finished ==> View() == Recovered(old(View()), now)
    {
      var recovered;
      recovered, finished := RecoverInterruptedTasks(now);
      ids, visited := (set t | t in recovered), {};
      if !finished {
        NoHoldRecovered(usage.View(), tasks.View());
        return;
      }
      ids := old(tasks.tasks).Keys;
      EveryTaskRecovered(old(tasks.View()), now);
      visited, finished := ReleaseRecovered(set t | t in recovered);
    }
  }

  lemma NoHoldRecovered(l: Ledger, db: Tables)
    ensures RecoverHolds(l, db, {}) == l
  {
    assert RecoverHolds(l, db, {}).holds == l.holds;
  }

  lemma RecoverOneMore(l: Ledger, db: Tables, ids: set<HoldId>, id: HoldId)
    ensures RecoverHolds(RecoverHolds(l, db, ids), db, {id}) == RecoverHolds(l, db, ids + {id})
  {
    assert RecoverHolds(RecoverHolds(l, db, ids), db, {id}).holds == RecoverHolds(l, db, ids + {id}).holds;
  }

  lemma OnlyActiveMatters(l: Ledger, db: Tables, ids: set<HoldId>)
    requires forall id :: IsActive(l, id) ==> id in ids
    ensures RecoverHolds(l, db, ids) == RecoverHolds(l, db, l.holds.Keys)
  {
    assert RecoverHolds(l, db, ids).holds == RecoverHolds(l, db, l.holds.Keys).holds;
  }

  lemma EveryTaskRecovered(db: Tables, now: int)
    ensures AllRecovered(RecoverTasks(db, db.tasks.Keys, now))
  {
  }
}
