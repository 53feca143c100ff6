/**
 What each event of the scheduled-loop service does to the loop it concerns, exactly, in every reachable
 state: which answers end a loop and which keep it going, and with what row, runtime and timer.
 */
module LoopLaws {
  import opened Common
  import opened LoopStore
  import opened LoopMachine
  import opened LoopSafety

  // ---------------------------------------------------------------- single statements

  /** The fields a loop keeps for life. */
  predicate SameLoop(r: LoopRow, r': LoopRow) {
    && r'.project == r.project && r'.channel == r.channel && r'.thread == r.thread && r'.interval == r.interval
    && r'.startedAt == r.startedAt
  }

  /** Creating needs a positive safe interval, a channel without a live loop, a live project, an unused id
      and an unused thread. */
  lemma CreateExactly(rows: Rows, id: LoopId, projectActive: bool, project: string, channel: string, thread: string, interval: int, now: int)
    ensures var r := Create(rows, id, projectActive, project, channel, thread, interval, now);
            && (r.Ok? <==>
                  && 1 <= interval <= 9007199254740991 && projectActive && id !in rows
                  && (forall k :: k in rows && rows[k].channel == channel ==> rows[k].status in {Stopped, Ended})
                  && (forall k :: k in rows ==> rows[k].thread != thread))
            && (r.Ok? ==> r.value == rows[id := LoopRow(project, channel, thread, interval, 0, None, Active, now, now, None, None)])
            && (r == Err(BadInterval) <==> interval <= 0 || interval > 9007199254740991)
            && (r == Err(ChannelBusy) ==> exists k :: k in rows && rows[k].channel == channel && rows[k].status in {Active, Running})
            && (r == Err(ProjectMissing) ==> !projectActive)
  {
  }

  lemma StatementsExactly(rows: Rows, id: LoopId, next: int, status: LoopStatus, reason: string, now: int)
    ensures AcquireIteration(rows, id, now) ==
              if id in rows && rows[id].status == Active
              then Some(rows[id := rows[id].(status := Running, iteration := rows[id].iteration + 1, nextRunAt := None, updatedAt := now)])
              else None
    ensures ScheduleNext(rows, id, next, now) ==
              if id in rows && rows[id].status == Running
              then Some(rows[id := rows[id].(status := Active, nextRunAt := Some(next), updatedAt := now)]) else None
    ensures CloseOne(rows, id, status, reason, now) ==
              if id in rows && rows[id].status in {Active, Running}
              then Some(rows[id := rows[id].(status := status, nextRunAt := None, stoppedAt := Some(now), reason := Some(reason), updatedAt := now)])
              else None
  {
  }

  // ---------------------------------------------------------------- the answers of an iteration

  /** The loop is over: its row says when and why, and the service keeps nothing of it. */
  ghost predicate Over(s: State, s': State, id: LoopId, status: LoopStatus, reason: string, now: int) {
    && id in s.rows && id in s'.rows && SameLoop(s.rows[id], s'.rows[id]) && s'.rows[id].iteration == s.rows[id].iteration
    && s'.rows[id].status == status && s'.rows[id].stoppedAt == Some(now) && s'.rows[id].reason == Some(reason)
    && s'.rows[id].nextRunAt == None
    && id !in s'.runtimes && forall t :: Lookup(s'.pending, t) != Some(id)
  }

  /** The loop waits: its row is active, its runtime is registered and this timer is its only one. */
  ghost predicate WaitsFor(s: State, id: LoopId, timer: TimerId) {
    && id in s.rows && s.rows[id].status == Active
    && id in s.runtimes && s.runtimes[id].timer == Some(timer) && !s.runtimes[id].executing
    && forall t :: Lookup(s.pending, t) == Some(id) <==> t == timer
  }

  ghost predicate OtherRows(s: State, s': State, id: LoopId) {
    forall other :: other != id ==> Lookup(s'.rows, other) == Lookup(s.rows, other)
  }

  /** An answer that ends a loop: a nonempty terminal reason. */
  predicate GivesReason(a: Answer) { a.Returned? && a.terminalReason.Some? && a.terminalReason.value != "" }

  lemma ClosedIsOver(s: State, done: State, id: LoopId, reason: string, now: int)
    requires LoopOk(s, id) && id in s.rows && Live(s.rows[id]) && id in s.runtimes
    requires done.rows == s.rows && done.pending == s.pending && done.runtimes.Keys == s.runtimes.Keys
    requires done.runtimes[id].timer == s.runtimes[id].timer
    ensures Over(s, Detach(Terminalized(done, id, reason, now), id), id, Ended, reason, now)
    ensures OtherRows(s, Detach(Terminalized(done, id, reason, now), id), id)
  {
    var s' := Detach(Terminalized(done, id, reason, now), id);
    forall t ensures Lookup(s'.pending, t) != Some(id) {
      assert TimerOk(s, t, id);
    }
  }

  lemma RearmedWaits(s: State, id: LoopId, timer: TimerId)
    requires id in s.rows && s.rows[id].status == Active && id in s.runtimes && !s.runtimes[id].executing
    requires s.runtimes[id].timer.None? && timer !in s.pending && forall t :: Lookup(s.pending, t) != Some(id)
    ensures WaitsFor(Rearmed(s, id, timer), id, timer) && Rearmed(s, id, timer).rows == s.rows
    ensures Rearmed(s, id, timer).calls == s.calls
  {
    forall t ensures Lookup(Rearmed(s, id, timer).pending, t) == Some(id) <==> t == timer {
      assert Lookup(s.pending, t) != Some(id);
    }
  }

  lemma NoTimerPending(s: State, id: LoopId)
    requires LoopOk(s, id) && (id in s.runtimes ==> s.runtimes[id].timer.None?)
    ensures forall t :: Lookup(s.pending, t) != Some(id)
  {
    forall t ensures Lookup(s.pending, t) != Some(id) {
      assert TimerOk(s, t, id);
    }
  }

  /** The iteration the call executes is the loop's current one. */
  lemma ExecutesCurrent(s: State, call: CallId)
    requires Safe(s) && call in s.calls && s.calls[call].point == Executing
    requires var id := s.calls[call].loop; id in s.rows && s.rows[id].status == Running
    ensures var id := s.calls[call].loop;
            && s.calls[call].iteration == s.rows[id].iteration && id in s.runtimes && s.runtimes[id].timer.None?
            && LoopOk(s, id)
  {
    var id := s.calls[call].loop;
    assert LoopOk(s, id) && CallOf(s, call, id) && CallOk(s, call, id);
  }

  /** The answers that end a running loop, and why. */
  function Verdict(answer: Answer, iteration: nat): Option<string> {
    if GivesReason(answer) then answer.terminalReason
    else if answer.Threw? && iteration == 1
    then Some("Initial scheduled-loop iteration failed before a durable continuation was established")
    else None
  }

  lemma VerdictCloses(answer: Answer, iteration: nat)
    ensures ClosingReason(answer, iteration == 1) == Verdict(answer, iteration)
    ensures ClosingReason(answer, false).Some? <==> GivesReason(answer)
    ensures GivesReason(answer) ==> ClosingReason(answer, false) == answer.terminalReason
  {
  }

  lemma ExecutedEnds(s: State, call: CallId, answer: Answer, now: int, timer: TimerId)
    requires Safe(s) && call in s.calls && s.calls[call].point == Executing && timer !in s.pending
    requires var id := s.calls[call].loop; id in s.rows && s.rows[id].status == Running && Verdict(answer, s.rows[id].iteration).Some?
    ensures var id := s.calls[call].loop;
            var s' := AfterIteration(s, call, answer, now, timer);
            && Over(s, s', id, Ended, Verdict(answer, s.rows[id].iteration).value, now) && OtherRows(s, s', id) && s'.calls == s.calls - {call}
  {
    ExecutesCurrent(s, call);
    var id := s.calls[call].loop;
    VerdictCloses(answer, s.rows[id].iteration);
    ClosedIsOver(s, CallEnded(Unblocked(s, id), call), id, Verdict(answer, s.rows[id].iteration).value, now);
  }

  /** A running loop that goes on. */
  ghost predicate GoesOn(s: State, s': State, call: CallId, now: int, timer: TimerId)
    requires call in s.calls && s.calls[call].loop in s.rows
  {
    var id := s.calls[call].loop;
    var row := s.rows[id];
    && OtherRows(s, s', id)
    && id in s'.rows && s'.rows[id] == row.(status := Active, nextRunAt := Some(now + row.interval), updatedAt := now)
    && id in s'.runtimes && !s'.runtimes[id].executing
    && (if s.presents then s'.calls == s.calls[call := InFlight(id, row.iteration, Presenting(now + row.interval))]
        else s'.calls == s.calls - {call} && WaitsFor(s', id, timer))
  }

  lemma ExecutedGoesOn(s: State, call: CallId, answer: Answer, now: int, timer: TimerId)
    requires Safe(s) && call in s.calls && s.calls[call].point == Executing && timer !in s.pending
    requires var id := s.calls[call].loop; id in s.rows && s.rows[id].status == Running && Verdict(answer, s.rows[id].iteration).None?
    ensures GoesOn(s, AfterIteration(s, call, answer, now, timer), call, now, timer)
  {
    ExecutesCurrent(s, call);
    var id := s.calls[call].loop;
    VerdictCloses(answer, s.rows[id].iteration);
    NoTimerPending(s, id);
    RescheduledGoesOn(s, call, answer, now, timer);
  }

  lemma RescheduledGoesOn(s: State, call: CallId, answer: Answer, now: int, timer: TimerId)
    requires call in s.calls && s.calls[call].point == Executing && timer !in s.pending
    requires var id := s.calls[call].loop;
             && id in s.rows && s.rows[id].status == Running && s.calls[call].iteration == s.rows[id].iteration
             && id in s.runtimes && s.runtimes[id].timer.None? && forall t :: Lookup(s.pending, t) != Some(id)
    requires ClosingReason(answer, s.calls[call].iteration == 1).None?
    ensures GoesOn(s, AfterIteration(s, call, answer, now, timer), call, now, timer)
  {
    var id := s.calls[call].loop;
    var rows := s.rows[id := s.rows[id].(status := Active, nextRunAt := Some(now + s.rows[id].interval), updatedAt := now)];
    assert ScheduleNext(s.rows, id, now + s.rows[id].interval, now) == Some(rows);
    RearmedWaits(CallEnded(Unblocked(s, id), call).(rows := rows), id, timer);
  }

  /** After an iteration of a running loop: the loop ends exactly when the answer gives a reason or the very
      first iteration threw; otherwise it is active again in the same iteration, due one interval from now,
      and waits for its card or its timer. */
  lemma ExecutedExactly(s: State, call: CallId, answer: Answer, now: int, timer: TimerId)
    requires Safe(s) && call in s.calls && s.calls[call].point == Executing && timer !in s.pending
    requires var id := s.calls[call].loop; id in s.rows && s.rows[id].status == Running
    ensures var id := s.calls[call].loop;
            var s' := Step(s, Executed(call, answer, now, timer));
            var row := s.rows[id];
            && OtherRows(s, s', id) && id in s'.rows
            && (s'.rows[id].status == Ended <==> GivesReason(answer) || (answer.Threw? && row.iteration == 1))
            && (s'.rows[id].status == Ended ==> Over(s, s', id, Ended, Verdict(answer, row.iteration).value, now) && s'.calls == s.calls - {call})
            && (s'.rows[id].status != Ended ==> GoesOn(s, s', call, now, timer))
  {
    if Verdict(answer, s.rows[s.calls[call].loop].iteration).Some? {
      ExecutedEnds(s, call, answer, now, timer);
    } else {
      ExecutedGoesOn(s, call, answer, now, timer);
    }
  }

  /** After the waiting card of an active loop: only a nonempty reason ends it, and a card that throws does
      not; otherwise its row stays and it waits for its timer. */
  lemma PresentedExactly(s: State, call: CallId, answer: Answer, now: int, timer: TimerId)
    requires Safe(s) && call in s.calls && s.calls[call].point.Presenting? && timer !in s.pending
    requires var id := s.calls[call].loop; id in s.rows && s.rows[id].status == Active
    ensures var id := s.calls[call].loop;
            var s' := Step(s, Presented(call, answer, now, timer));
            && OtherRows(s, s', id) && s'.calls == s.calls - {call}
            && (GivesReason(answer) ==> Over(s, s', id, Ended, answer.terminalReason.value, now))
            && (!GivesReason(answer) ==> s'.rows == s.rows && WaitsFor(s', id, timer))
  {
    var id := s.calls[call].loop;
    assert LoopOk(s, id) && CallOf(s, call, id) && CallOk(s, call, id);
    VerdictCloses(answer, 0);
    if GivesReason(answer) {
      ClosedIsOver(s, CallEnded(s, call), id, answer.terminalReason.value, now);
    } else {
      NoTimerPending(s, id);
      RearmedWaits(CallEnded(s, call), id, timer);
    }
  }

  /** A loop that was closed while its call was away stays closed as it is, whatever the call answers. */
  lemma ClosedMeanwhile(s: State, call: CallId, answer: Answer, now: int, timer: TimerId)
    requires Safe(s) && call in s.calls && timer !in s.pending
    requires var id := s.calls[call].loop; id in s.rows && !Live(s.rows[id])
    ensures var s' := if s.calls[call].point == Executing then Step(s, Executed(call, answer, now, timer))
                      else Step(s, Presented(call, answer, now, timer));
            s'.rows == s.rows && s'.runtimes == s.runtimes && s'.pending == s.pending && s'.calls == s.calls - {call}
  {
    var id := s.calls[call].loop;
    assert LoopOk(s, id) && CallOf(s, call, id) && CallOk(s, call, id);
    if s.calls[call].point == Executing {
      ClosedLeft(CallEnded(Unblocked(s, id), call), id, now);
    } else {
      ClosedLeft(CallEnded(s, call), id, now);
    }
  }

  lemma ClosedLeft(s: State, id: LoopId, now: int)
    requires id in s.rows && !Live(s.rows[id]) && id !in s.runtimes
    ensures forall reason :: Detach(Terminalized(s, id, reason, now), id) == s
    ensures Detach(s, id) == s && forall timer :: Rearmed(s, id, timer) == s
  {
  }

  // ---------------------------------------------------------------- starting to run

  /** A run that starts: the next iteration of the loop, executed by this call. */
  ghost predicate StartsRun(s: State, s': State, id: LoopId, iteration: nat, now: int, call: CallId) {
    && id in s'.rows && s'.rows[id].status == Running && s'.rows[id].iteration == iteration
    && s'.rows[id].nextRunAt == None && s'.rows[id].updatedAt == now
    && Lookup(s'.calls, call) == Some(InFlight(id, iteration, Executing))
    && (forall c :: c != call ==> Lookup(s'.calls, c) == Lookup(s.calls, c))
    && id in s'.runtimes && s'.runtimes[id] == Runtime(None, true)
    && s'.acquired == s.acquired + [Numbered(id, iteration)] && s'.executed == s.executed + [Numbered(id, iteration)]
  }

  /** A timer that fires starts the next iteration of its loop, and is gone. */
  lemma FiredExactly(s: State, timer: TimerId, now: int, call: CallId)
    requires Safe(s) && timer in s.pending && call !in s.calls
    ensures var id := s.pending[timer];
            var s' := Step(s, Fire(timer, now, call));
            && id in s.rows && StartsRun(s, s', id, s.rows[id].iteration + 1, now, call) && SameLoop(s.rows[id], s'.rows[id])
            && OtherRows(s, s', id) && s'.pending == s.pending - {timer}
  {
    var id := s.pending[timer];
    assert LoopOk(s, id) && TimerOk(s, timer, id);
  }

  /** Creating a loop inserts its row and starts its first iteration at once. */
  lemma StartedExactly(s: State, e: Event)
    requires Safe(s) && e.CreateAndStart? && s.mode == Serving && e.call !in s.calls
    ensures var r := Create(s.rows, e.id, e.projectActive, e.project, e.channel, e.thread, e.interval, e.now);
            && (r.Err? ==> Step(s, e) == s)
            && (r.Ok? ==>
                  && StartsRun(s, Step(s, e), e.id, 1, e.now, e.call) && OtherRows(s, Step(s, e), e.id)
                  && SameLoop(r.value[e.id], Step(s, e).rows[e.id]) && Step(s, e).pending == s.pending)
  {
    assert LoopOk(s, e.id);
    if e.id in s.runtimes {
      assert e.id in s.rows;
    }
  }

  // ---------------------------------------------------------------- closing and reconciling

  /** Stopping or ending a loop by its channel or thread closes the one live loop there, if any. */
  lemma CloseExactly(s: State, selector: Selector, status: LoopStatus, reason: string, now: int, id: LoopId)
    requires Safe(s) && s.mode == Serving && status in {Stopped, Ended}
    requires id in s.rows && s.rows[id].status in {Active, Running}
    requires match selector case ByChannel(channel) => s.rows[id].channel == channel case ByThread(thread) => s.rows[id].thread == thread
    ensures var s' := Step(s, Close(selector, status, reason, now));
            Over(s, s', id, status, reason, now) && OtherRows(s, s', id) && s'.calls == s.calls
  {
    assert LoopOk(s, id);
    SelectsTheOne(s.rows, selector, id);
    ClosedAndGone(s, id, status, reason, now);
  }

  lemma SelectsTheOne(rows: Rows, selector: Selector, id: LoopId)
    requires TableOk(rows) && id in rows && rows[id].status in {Active, Running}
    requires match selector case ByChannel(channel) => rows[id].channel == channel case ByThread(thread) => rows[id].thread == thread
    ensures Selected(rows, selector) == Some(id)
  {
  }

  lemma ClosedAndGone(s: State, id: LoopId, status: LoopStatus, reason: string, now: int)
    requires LoopOk(s, id) && id in s.rows && Live(s.rows[id])
    ensures var s' := ClosedAndDetached(s, id, status, reason, now);
            Over(s, s', id, status, reason, now) && OtherRows(s, s', id) && s'.calls == s.calls
  {
    forall t ensures Lookup(ClosedAndDetached(s, id, status, reason, now).pending, t) != Some(id) {
      assert TimerOk(s, t, id);
    }
  }

  lemma CloseNothing(s: State, selector: Selector, status: LoopStatus, reason: string, now: int)
    requires forall id :: id in s.rows && s.rows[id].status in {Active, Running} ==>
               match selector case ByChannel(channel) => s.rows[id].channel != channel case ByThread(thread) => s.rows[id].thread != thread
    ensures Step(s, Close(selector, status, reason, now)) == s
  {
  }

  /** Ending a project's loops closes every live one of them and no other. */
  lemma CloseAllExactly(s: State, project: string, reason: string, now: int, id: LoopId)
    requires Safe(s) && s.mode == Serving && id in s.rows
    ensures var s' := Step(s, CloseAll(project, reason, now));
            && s'.calls == s.calls
            && (s.rows[id].project == project && s.rows[id].status in {Active, Running} ==> Over(s, s', id, Ended, reason, now))
            && (s.rows[id].project != project || s.rows[id].status in {Stopped, Ended} ==>
                  && Lookup(s'.rows, id) == Some(s.rows[id]) && Lookup(s'.runtimes, id) == Lookup(s.runtimes, id)
                  && forall t :: Lookup(s'.pending, t) == Some(id) <==> Lookup(s.pending, t) == Some(id))
  {
    assert LoopOk(s, id);
  }

  /** Reconciling a loop whose project is gone ends it; otherwise its thread is fetched. */
  lemma ReconcileExactly(s: State, projectFound: bool, now: int)
    requires Safe(s) && s.mode.Reconciling? && s.mode.todo != [] && !s.mode.fetching
    ensures var head := s.mode.todo[0];
            var s' := Step(s, ReconcileNext(projectFound, now));
            && (projectFound ==> s' == s.(mode := Reconciling(s.mode.todo, true)))
            && (!projectFound ==>
                  && Over(s, s', head.id, Ended, "Project \"" + head.row.project + "\" is unavailable or archived", now)
                  && OtherRows(s, s', head.id) && NextInLine(s, s'))
  {
    HeadRow(s);
    assert LoopOk(s, s.mode.todo[0].id) && Todo(s.mode, s.mode.todo[0].id);
    NoTimerPending(s, s.mode.todo[0].id);
  }

  predicate NextInLine(s: State, s': State)
    requires s.mode.Reconciling? && s.mode.todo != []
  {
    s'.mode == if |s.mode.todo| == 1 then Serving else Reconciling(s.mode.todo[1..], false)
  }

  /** A loop whose thread is gone ends. */
  lemma ThreadMissing(s: State, now: int, timer: TimerId)
    requires Safe(s) && s.mode.Reconciling? && s.mode.todo != [] && s.mode.fetching && timer !in s.pending
    ensures var head := s.mode.todo[0];
            var s' := Step(s, ThreadFetched(false, now, timer));
            && OtherRows(s, s', head.id) && NextInLine(s, s') && s'.executed == s.executed
            && Over(s, s', head.id, Ended, "Discord thread " + head.row.thread + " is unavailable", now)
  {
    HeadRow(s);
    assert LoopOk(s, s.mode.todo[0].id) && Todo(s.mode, s.mode.todo[0].id);
    NoTimerPending(s, s.mode.todo[0].id);
  }

  lemma RejoinedWaits(s: State, id: LoopId, timer: TimerId)
    requires s.mode.Reconciling? && s.mode.todo != [] && timer !in s.pending
    requires id in s.rows && s.rows[id].status == Active && id !in s.runtimes && forall t :: Lookup(s.pending, t) != Some(id)
    ensures var s' := Rejoined(s, id, timer);
            WaitsFor(s', id, timer) && s'.rows == s.rows && NextInLine(s, s') && s'.executed == s.executed
  {
    forall t ensures Lookup(Rejoined(s, id, timer).pending, t) == Some(id) <==> t == timer {
      assert Lookup(s.pending, t) != Some(id);
    }
  }

  /** A loop whose thread is there waits for a new timer: an interrupted one is due one interval from now in
      the iteration it was in, which is not executed again; an active one as before. */
  lemma ThreadFound(s: State, now: int, timer: TimerId)
    requires Safe(s) && s.mode.Reconciling? && s.mode.todo != [] && s.mode.fetching && timer !in s.pending
    ensures var id := s.mode.todo[0].id;
            var s' := Step(s, ThreadFetched(true, now, timer));
            && OtherRows(s, s', id) && NextInLine(s, s') && s'.executed == s.executed
            && WaitsFor(s', id, timer) && id in s.rows
            && s'.rows[id] == if s.rows[id].status == Running
                              then s.rows[id].(status := Active, nextRunAt := Some(now + s.rows[id].interval), updatedAt := now)
                              else s.rows[id]
  {
    HeadRow(s);
    var head := s.mode.todo[0];
    assert LoopOk(s, head.id) && Todo(s.mode, head.id);
    NoTimerPending(s, head.id);
    var rows := DeferInterrupted(s.rows, head, now).value;
    RejoinedWaits(s.(rows := rows), head.id, timer);
  }

  /** A stop of the process keeps the rows and nothing else; the next start takes up every live loop. */
  lemma StopsAndStarts(s: State, order: seq<LoopId>)
    ensures var s' := Step(s, Crash);
            s'.rows == s.rows && s'.runtimes == map[] && s'.pending == map[] && s'.calls == map[] && s'.mode == Down
    ensures s.mode == Down && Lists(s.rows, order) ==>
              var s' := Step(s, Boot(order));
              && s' == s.(mode := s'.mode)
              && (order == [] ==> s'.mode == Serving)
              && (order != [] ==>
                    && s'.mode.Reconciling? && !s'.mode.fetching && |s'.mode.todo| == |order|
                    && forall i :: 0 <= i < |order| ==> order[i] in s.rows && s'.mode.todo[i] == Listed(order[i], s.rows[order[i]]))
  {
  }

  /** The stops in the middle of a segment: after a row was inserted, and after an iteration was acquired
      but before it was executed. */
  lemma StopsInBetween(s: State, e: Event)
    ensures e.CreateThenCrash? && s.mode == Serving ==>
              match Create(s.rows, e.id, e.projectActive, e.project, e.channel, e.thread, e.interval, e.now)
              case Err(_) => Step(s, e) == s
              case Ok(rows) =>
                && Step(s, e).executed == s.executed
                && Step(s, e).acquired == (if e.acquired then s.acquired + [Numbered(e.id, 1)] else s.acquired)
                && Step(s, e) == Crashed(s).(acquired := Step(s, e).acquired,
                                             rows := if e.acquired then rows[e.id := rows[e.id].(status := Running, iteration := 1, updatedAt := e.now)]
                                                     else rows)
    ensures e.AcquireThenCrash? && e.id in s.runtimes ==>
              && Step(s, e).executed == s.executed
              && Step(s, e) == Crashed(s).(acquired := Step(s, e).acquired, rows := Step(s, e).rows)
              && if e.id in s.rows && s.rows[e.id].status == Active then
                   && Step(s, e).acquired == s.acquired + [Numbered(e.id, s.rows[e.id].iteration + 1)]
                   && Step(s, e).rows == s.rows[e.id := s.rows[e.id].(status := Running, iteration := s.rows[e.id].iteration + 1,
                                                                      nextRunAt := None, updatedAt := e.now)]
                 else Step(s, e).acquired == s.acquired && Step(s, e).rows == s.rows
  {
  }

  lemma RunSteps(s: State, es: seq<Event>, e: Event)
    ensures Run(s, []) == s && Run(s, es + [e]) == Step(Run(s, es), e)
  {
    assert (es + [e])[..|es + [e]| - 1] == es;
  }
}
