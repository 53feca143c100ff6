/**
 The scheduled-loop service's own code over the loop repository: the runtime map, the timers and the
 segments of `runNow`. Every method is proved to take the machine's state to the matching next state.
 */
module LoopService {
  import opened Common
  import opened LoopStore
  import opened LoopMachine

  class ScheduledLoopService {
    const repository: LoopRepository
    const presents: bool
    var runtimes: map<LoopId, Runtime>
    var pending: map<TimerId, LoopId>
    var calls: map<CallId, InFlight>
    var mode: Mode
    ghost var acquired: seq<Numbered>
    ghost var executed: seq<Numbered>

    ghost function View(): State
      reads this, repository
    {
      State(repository.rows, runtimes, pending, calls, mode, presents, acquired, executed)
    }

    constructor (repository: LoopRepository, presents: bool)
      ensures this.repository == repository && this.presents == presents
      ensures View() == Crashed(View()) && acquired == [] && executed == []
    {
      this.repository := repository;
      this.presents := presents;
      runtimes, pending, calls, mode := map[], map[], map[], Down;
      acquired, executed := [], [];
    }

    method DetachLoop(id: LoopId)
      modifies this`runtimes, this`pending
      ensures View() == Detach(old(View()), id)
    {
      if id !in runtimes {
        return;
      }
      var timer := runtimes[id].timer;
      if timer.Some? {
        pending := pending - {timer.value};
      }
      runtimes := runtimes - {id};
    }

    method RegisterLoop(id: LoopId)
      modifies this`runtimes
      ensures View() == Register(old(View()), id)
    {
      if id !in runtimes {
        runtimes := runtimes[id := Runtime(None, false)];
      }
    }

    method ClearSchedule(id: LoopId)
      modifies this`runtimes, this`pending
      ensures View() == ClearTimer(old(View()), id)
    {
      if id in runtimes && runtimes[id].timer.Some? {
        pending := pending - {runtimes[id].timer.value};
        runtimes := runtimes[id := runtimes[id].(timer := None)];
      }
    }

    method ScheduleRuntime(id: LoopId, timer: TimerId)
      modifies this`runtimes, this`pending
      ensures View() == ScheduleTimer(old(View()), id, timer)
    {
      ClearSchedule(id);
      pending := pending[timer := id];
      if id in runtimes {
        runtimes := runtimes[id := runtimes[id].(timer := Some(timer))];
      }
    }

    method TerminalizeById(id: LoopId, reason: string, now: int)
      modifies repository
      ensures View() == Terminalized(old(View()), id, reason, now)
    {
      var _ := repository.Close(id, Ended, reason, now);
    }

    /** `runNow` up to the call of the iteration. */
    method StartRun(id: LoopId, now: int, call: CallId)
      modifies this, repository
      ensures View() == RunNow(old(View()), id, now, call)
    {
      if id !in runtimes || runtimes[id].executing {
        return;
      }
      ClearSchedule(id);
      var ok := repository.Acquire(id, now);
      if !ok {
        DetachLoop(id);
        return;
      }
      var iteration := repository.rows[id].iteration;
      runtimes := runtimes[id := Runtime(None, true)];
      calls := calls[call := InFlight(id, iteration, Executing)];
      acquired := acquired + [Numbered(id, iteration)];
      executed := executed + [Numbered(id, iteration)];
    }

    method Rearm(id: LoopId, timer: TimerId)
      modifies this`runtimes, this`pending
      ensures View() == Rearmed(old(View()), id, timer)
    {
      if id !in repository.rows || repository.rows[id].status != Active {
        DetachLoop(id);
      } else {
        ScheduleRuntime(id, timer);
      }
    }

    method IterationAnswered(call: CallId, answer: Answer, now: int, timer: TimerId)
      modifies this, repository
      ensures View() == Step(old(View()), Event.Executed(call, answer, now, timer))
    {
      if call !in calls || calls[call].point != Executing || timer in pending {
        return;
      }
      var inFlight := calls[call];
      var id := inFlight.loop;
      if id in runtimes {
        runtimes := runtimes[id := runtimes[id].(executing := false)];
      }
      calls := calls - {call};
      var reason := ClosingReason(answer, inFlight.iteration == 1);
      if reason.Some? {
        TerminalizeById(id, reason.value, now);
        DetachLoop(id);
        return;
      }
      if id !in repository.rows || repository.rows[id].status != Running {
        DetachLoop(id);
        return;
      }
      WaitForNext(call, inFlight, now, timer);
    }

    /** Writes the next run and presents the waiting state, or rearms at once. */
    method WaitForNext(call: CallId, inFlight: InFlight, now: int, timer: TimerId)
      requires inFlight.loop in repository.rows && repository.rows[inFlight.loop].status == Running && call !in calls
      modifies this`calls, this`runtimes, this`pending, repository
      ensures var s := old(View());
              var nextRunAt := now + s.rows[inFlight.loop].interval;
              var s1 := s.(rows := ScheduleNext(s.rows, inFlight.loop, nextRunAt, now).value);
              View() == if presents then s1.(calls := s.calls[call := inFlight.(point := Presenting(nextRunAt))])
                        else Rearmed(s1, inFlight.loop, timer)
    {
      var nextRunAt := now + repository.rows[inFlight.loop].interval;
      var ok := repository.SetNext(inFlight.loop, nextRunAt, now);
      if presents {
        calls := calls[call := inFlight.(point := Presenting(nextRunAt))];
        return;
      }
      Rearm(inFlight.loop, timer);
    }

    method WaitingPresented(call: CallId, answer: Answer, now: int, timer: TimerId)
      modifies this, repository
      ensures View() == Step(old(View()), Event.Presented(call, answer, now, timer))
    {
      if call !in calls || !calls[call].point.Presenting? || timer in pending {
        return;
      }
      var id := calls[call].loop;
      calls := calls - {call};
      var reason := ClosingReason(answer, false);
      if reason.Some? {
        TerminalizeById(id, reason.value, now);
        DetachLoop(id);
        return;
      }
      Rearm(id, timer);
    }

    method TimerFired(timer: TimerId, now: int, call: CallId)
      modifies this, repository
      ensures View() == Step(old(View()), Fire(timer, now, call))
    {
      if timer !in pending || call in calls {
        return;
      }
      var id := pending[timer];
      pending := pending - {timer};
      ClearSchedule(id);
      StartRun(id, now, call);
    }

    method CreateLoop(id: LoopId, projectActive: bool, project: string, channel: string, thread: string,
                      interval: int, now: int, call: CallId)
      modifies this, repository
      ensures View() == Step(old(View()), CreateAndStart(id, projectActive, project, channel, thread, interval, now, call))
    {
      if mode != Serving || call in calls {
        return;
      }
      var created := repository.Insert(id, projectActive, project, channel, thread, interval, now);
      if created.Err? {
        return;
      }
      RegisterLoop(id);
      StartRun(id, now, call);
    }

    /** `stopByChannel`, `terminalizeByChannel` and `terminalizeByThread`. */
    method CloseLoop(selector: Selector, status: LoopStatus, reason: string, now: int)
      requires OneLivePerChannel(repository.rows) && OnePerThread(repository.rows)
      requires status == Stopped || status == Ended
      modifies this, repository
      ensures View() == Step(old(View()), Close(selector, status, reason, now))
    {
      if mode != Serving {
        return;
      }
      var found: Option<LoopId>;
      match selector {
        case ByChannel(channel) => found := repository.FindActiveByChannelId(channel);
        case ByThread(thread) => found := repository.FindActiveByThreadId(thread);
      }
      if found.None? {
        return;
      }
      var ok := repository.Close(found.value, status, reason, now);
      if ok {
        DetachLoop(found.value);
      }
    }

    /** Each runtime's timer is pending for it, and each pending timer is its runtime's. */
    ghost predicate TimersMatch()
      reads this
    {
      forall id, t :: id in runtimes && runtimes[id].timer == Some(t) <==> t in pending && pending[t] == id
    }

    method DetachAll(ids: set<LoopId>)
      requires TimersMatch()
      modifies this`runtimes, this`pending
      ensures runtimes == old(runtimes) - ids && pending == PendingWithout(old(pending), ids)
    {
      var rest := ids;
      assert PendingWithout(pending, {}) == pending;
      while rest != {}
        invariant rest <= ids && TimersMatch()
        invariant runtimes == old(runtimes) - (ids - rest)
        invariant pending == PendingWithout(old(pending), ids - rest)
        decreases |rest|
      {
        var id :| id in rest;
        label before:
        DetachLoop(id);
        DetachedTimers@before(id);
        PendingTwice(old(pending), ids - rest, id);
        assert ids - (rest - {id}) == (ids - rest) + {id};
        rest := rest - {id};
      }
      assert ids - rest == ids;
    }

    static function PendingWithout(pending: map<TimerId, LoopId>, ids: set<LoopId>): map<TimerId, LoopId> {
      map t | t in pending && pending[t] !in ids :: pending[t]
    }

    static lemma PendingTwice(pending: map<TimerId, LoopId>, ids: set<LoopId>, id: LoopId)
      ensures PendingWithout(PendingWithout(pending, ids), {id}) == PendingWithout(pending, ids + {id})
    {
    }

    /** Detaching a loop takes away exactly its own timer. */
    twostate lemma DetachedTimers(id: LoopId)
      requires old(TimersMatch()) && View() == Detach(old(View()), id)
      ensures TimersMatch()
      ensures runtimes == old(runtimes) - {id} && pending == PendingWithout(old(pending), {id})
    {
    }

    method TerminalizeByProject(project: string, reason: string, now: int)
      requires TimersMatch()
      modifies this, repository
      ensures View() == Step(old(View()), CloseAll(project, reason, now))
    {
      if mode != Serving {
        return;
      }
      var closed := repository.TerminalizeByProject(project, reason, now);
      DetachAll(closed);
    }

    // -------------------------------------------------------------- reconciliation

    /** Lists the live rows, in any order, and starts reconciling. */
    method Begin(order: seq<LoopId>)
      requires mode == Down && Lists(repository.rows, order)
      modifies this`mode
      ensures View() == Step(old(View()), Boot(order))
    {
      if order == [] {
        mode := Serving;
        return;
      }
      var todo: seq<Listed> := [];
      while |todo| < |order|
        invariant |todo| <= |order|
        invariant forall i :: 0 <= i < |todo| ==> order[i] in repository.rows && todo[i] == Listed(order[i], repository.rows[order[i]])
      {
        var id := order[|todo|];
        assert id in order;
        todo := todo + [Listed(id, repository.rows[id])];
      }
      assert todo == Snapshot(repository.rows, order);
      mode := Reconciling(todo, false);
    }

    method Skip()
      requires mode.Reconciling? && mode.todo != []
      modifies this`mode
      ensures View() == Skipped(old(View()))
    {
      mode := if |mode.todo| == 1 then Serving else Reconciling(mode.todo[1..], false);
    }

    /** `reconcileOne` up to the fetch of the thread. */
    method ReconcileOne(projectFound: bool, now: int)
      requires mode.Reconciling? && mode.todo != [] && !mode.fetching
      modifies this, repository
      ensures View() == Step(old(View()), ReconcileNext(projectFound, now))
    {
      var id := mode.todo[0].id;
      if id in runtimes {
        Skip();
        return;
      }
      if !projectFound {
        TerminalizeById(id, ProjectGone(mode.todo[0].row), now);
        Skip();
        return;
      }
      mode := mode.(fetching := true);
    }

    method ThreadAnswered(found: bool, now: int, timer: TimerId)
      requires mode.Reconciling? && mode.todo != [] && mode.fetching && timer !in pending
      modifies this, repository
      ensures View() == Step(old(View()), ThreadFetched(found, now, timer))
    {
      var loop := mode.todo[0];
      if !found {
        TerminalizeById(loop.id, ThreadGone(loop.row), now);
        Skip();
        return;
      }
      if loop.row.status == Running {
        var deferred := repository.SetNext(loop.id, now + loop.row.interval, now);
        if !deferred {
          Skip();
          return;
        }
      }
      RegisterLoop(loop.id);
      ScheduleRuntime(loop.id, timer);
      Skip();
    }
  }
}
