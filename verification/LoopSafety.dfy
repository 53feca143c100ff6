/**
 What every interleaving of timers, iterations, stops, stops of the process and reconciliation keeps:
 no live loop is orphaned, and no loop ever has two iterations in flight.
 */
module LoopSafety {
  import opened Common
  import opened LoopStore
  import opened LoopMachine

  ghost predicate CallOf(s: State, c: CallId, id: LoopId) { c in s.calls && s.calls[c].loop == id }

  predicate Todo(m: Mode, id: LoopId) {
    m.Reconciling? && exists i :: 0 <= i < |m.todo| && m.todo[i].id == id
  }

  /** The state of a live loop that a `runNow` call is working on. */
  predicate InFlightOk(f: InFlight, row: LoopRow, runtime: Runtime) {
    && runtime.timer.None?
    && (match f.point
        case Executing => row.status == Running && runtime.executing && row.iteration == f.iteration
        case Presenting(nextRunAt) => row.status == Active && !runtime.executing && row.nextRunAt == Some(nextRunAt))
  }

  ghost predicate CallOk(s: State, c: CallId, id: LoopId) {
    CallOf(s, c, id) ==>
      && id in s.rows
      && (Live(s.rows[id]) <==> id in s.runtimes)
      && (id in s.runtimes ==> InFlightOk(s.calls[c], s.rows[id], s.runtimes[id]))
  }

  ghost predicate TimerOk(s: State, t: TimerId, id: LoopId) {
    Lookup(s.pending, t) == Some(id) <==> id in s.runtimes && s.runtimes[id].timer == Some(t)
  }

  /** Everything the service keeps about one loop. */
  ghost predicate LoopOk(s: State, id: LoopId) {
    && (id in s.runtimes ==>
          && id in s.rows && Live(s.rows[id])
          && (s.runtimes[id].timer.Some? ==> s.rows[id].status == Active && !s.runtimes[id].executing)
          && (s.runtimes[id].timer.Some? || exists c :: CallOf(s, c, id)))
    && (forall t :: TimerOk(s, t, id))
    && (forall c :: CallOk(s, c, id))
    && (forall c, d :: CallOf(s, c, id) && CallOf(s, d, id) ==> c == d)
    && (id in s.rows && Live(s.rows[id]) ==> id in s.runtimes || Todo(s.mode, id) || s.mode == Down)
    && (Todo(s.mode, id) ==> id !in s.runtimes && forall c :: !CallOf(s, c, id))
  }

  ghost predicate TodoOk(s: State) {
    s.mode.Reconciling? ==>
      && s.mode.todo != []
      && (forall i :: 0 <= i < |s.mode.todo| ==>
            && s.mode.todo[i].id in s.rows && s.rows[s.mode.todo[i].id] == s.mode.todo[i].row && Live(s.mode.todo[i].row))
      && (forall i, j :: 0 <= i < j < |s.mode.todo| ==> s.mode.todo[i].id != s.mode.todo[j].id)
  }

  ghost predicate Safe(s: State) {
    && TableOk(s.rows) && TodoOk(s)
    && (s.mode == Down ==> s.runtimes == map[] && s.pending == map[] && s.calls == map[])
    && forall id :: LoopOk(s, id)
  }

  // ---------------------------------------------------------------- events about a single loop

  /** Nothing about any other loop changes. */
  ghost predicate OnlyLoop(s: State, s': State, id: LoopId) {
    && (forall other :: other != id ==> Lookup(s'.rows, other) == Lookup(s.rows, other))
    && (forall other :: other != id ==> Lookup(s'.runtimes, other) == Lookup(s.runtimes, other))
    && (forall t, other :: other != id ==> (Lookup(s'.pending, t) == Some(other) <==> Lookup(s.pending, t) == Some(other)))
    && (forall c :: (c in s.calls && s.calls[c].loop != id) || (c in s'.calls && s'.calls[c].loop != id) ==>
          Lookup(s'.calls, c) == Lookup(s.calls, c))
  }

  lemma OthersOk(s: State, s': State, id: LoopId, other: LoopId)
    requires OnlyLoop(s, s', id) && other != id && LoopOk(s, other)
    requires Todo(s'.mode, other) <==> Todo(s.mode, other)
    requires s.mode != Down && s'.mode != Down
    ensures LoopOk(s', other)
  {
    assert Lookup(s'.rows, other) == Lookup(s.rows, other);
    assert Lookup(s'.runtimes, other) == Lookup(s.runtimes, other);
    forall c ensures CallOf(s', c, other) <==> CallOf(s, c, other) {
      assert CallOf(s', c, other) || CallOf(s, c, other) ==> Lookup(s'.calls, c) == Lookup(s.calls, c);
    }
    forall t ensures TimerOk(s', t, other) {
      assert TimerOk(s, t, other);
    }
    forall c ensures CallOk(s', c, other) {
      assert CallOk(s, c, other);
      assert CallOf(s', c, other) ==> Lookup(s'.calls, c) == Lookup(s.calls, c);
    }
    if other in s'.runtimes && s'.runtimes[other].timer.None? {
      var c :| CallOf(s, c, other);
      assert CallOf(s', c, other);
    }
  }

  lemma OnlyLoopTwice(s: State, s1: State, s2: State, id: LoopId)
    requires OnlyLoop(s, s1, id) && OnlyLoop(s1, s2, id)
    ensures OnlyLoop(s, s2, id)
  {
    forall other | other != id ensures Lookup(s2.rows, other) == Lookup(s.rows, other) {
      assert Lookup(s1.rows, other) == Lookup(s.rows, other);
    }
    forall other | other != id ensures Lookup(s2.runtimes, other) == Lookup(s.runtimes, other) {
      assert Lookup(s1.runtimes, other) == Lookup(s.runtimes, other);
    }
    forall t, other | other != id ensures Lookup(s2.pending, t) == Some(other) <==> Lookup(s.pending, t) == Some(other) {
      assert Lookup(s1.pending, t) == Some(other) <==> Lookup(s.pending, t) == Some(other);
    }
    forall c | (c in s.calls && s.calls[c].loop != id) || (c in s2.calls && s2.calls[c].loop != id)
      ensures Lookup(s2.calls, c) == Lookup(s.calls, c)
    {
      assert c in s.calls && s.calls[c].loop != id ==> Lookup(s1.calls, c) == Lookup(s.calls, c);
      assert c in s2.calls && s2.calls[c].loop != id ==> Lookup(s2.calls, c) == Lookup(s1.calls, c);
      assert Lookup(s1.calls, c).Some?;
    }
  }

  /** The rows of other loops, and the two unique indexes, under a change to one row that keeps its keys. */
  lemma TableKept(rows: Rows, rows': Rows, id: LoopId)
    requires TableOk(rows)
    requires forall other :: other != id ==> Lookup(rows', other) == Lookup(rows, other)
    requires id in rows' ==> RowOk(rows'[id])
    requires id in rows' ==> id in rows && Follows(rows[id], rows'[id])
    ensures TableOk(rows')
  {
    forall a | a in rows' ensures a in rows && rows'[a].thread == rows[a].thread && rows'[a].channel == rows[a].channel
                                  && (Live(rows'[a]) ==> Live(rows[a])) {
      assert Lookup(rows', a) == Lookup(rows, a) || a == id;
    }
    forall a | a in rows' ensures RowOk(rows'[a]) {
      assert Lookup(rows', a) == Lookup(rows, a) || a == id;
    }
  }

  lemma LocalSafe(s: State, s': State, id: LoopId)
    requires Safe(s) && OnlyLoop(s, s', id) && s'.mode == s.mode && s.mode != Down
    requires !Todo(s.mode, id)
    requires TableOk(s'.rows)
    requires LoopOk(s', id)
    ensures Safe(s')
  {
    forall other ensures LoopOk(s', other) {
      if other != id {
        OthersOk(s, s', id, other);
      }
    }
    if s.mode.Reconciling? {
      forall i | 0 <= i < |s.mode.todo|
        ensures s.mode.todo[i].id in s'.rows && s'.rows[s.mode.todo[i].id] == s.mode.todo[i].row
      {
        assert Todo(s.mode, s.mode.todo[i].id);
        assert Lookup(s'.rows, s.mode.todo[i].id) == Lookup(s.rows, s.mode.todo[i].id);
      }
    }
  }

  /** One loop between two segments, as the four shapes its memory can have. */
  ghost predicate Idle(s: State, id: LoopId) {
    && id in s.rows && s.rows[id].status == Active && id in s.runtimes && !s.runtimes[id].executing
    && s.runtimes[id].timer.None? && (forall c :: !CallOf(s, c, id)) && (forall t :: Lookup(s.pending, t) != Some(id))
  }

  ghost predicate Gone(s: State, id: LoopId) {
    && id in s.rows && !Live(s.rows[id]) && id !in s.runtimes
    && (forall c :: !CallOf(s, c, id)) && (forall t :: Lookup(s.pending, t) != Some(id))
  }

  /** An active loop with no timer and no call that is rearmed: it gets exactly one pending timer. */
  lemma ScheduledOk(s: State, id: LoopId, timer: TimerId)
    requires Idle(s, id) && timer !in s.pending && !Todo(s.mode, id)
    ensures LoopOk(ScheduleTimer(s, id, timer), id) && OnlyLoop(s, ScheduleTimer(s, id, timer), id)
  {
    var s' := ScheduleTimer(s, id, timer);
    forall t ensures TimerOk(s', t, id) {
      assert Lookup(s.pending, t) != Some(id);
    }
    forall c ensures !CallOf(s', c, id) {
      assert !CallOf(s, c, id);
    }
    forall c ensures CallOk(s', c, id) {
      assert !CallOf(s', c, id);
    }
  }

  /** An active, idle loop that runs: it gets exactly one executing call. */
  lemma RunNowOk(s: State, id: LoopId, now: int, call: CallId)
    requires Idle(s, id) && call !in s.calls && !Todo(s.mode, id)
    ensures LoopOk(RunNow(s, id, now, call), id) && OnlyLoop(s, RunNow(s, id, now, call), id)
    ensures call in RunNow(s, id, now, call).calls
  {
    var s' := RunNow(s, id, now, call);
    assert s'.pending == s.pending;
    assert CallOf(s', call, id);
    forall c ensures CallOf(s', c, id) ==> c == call {
      assert !CallOf(s, c, id);
    }
    forall c ensures CallOk(s', c, id) {
      assert !CallOf(s, c, id);
    }
    forall t ensures TimerOk(s', t, id) {
      assert Lookup(s.pending, t) != Some(id);
    }
  }

  lemma GoneOk(s: State, id: LoopId)
    requires Gone(s, id) && !Todo(s.mode, id)
    ensures LoopOk(s, id)
  {
    forall t ensures TimerOk(s, t, id) {
      assert Lookup(s.pending, t) != Some(id);
    }
    forall c ensures CallOk(s, c, id) {
      assert !CallOf(s, c, id);
    }
  }

  // ---------------------------------------------------------------- the events one by one

  lemma RunningRowKept(s: State, id: LoopId, rows: Rows)
    requires Safe(s) && id in s.rows && id in rows && rows == s.rows[id := rows[id]] && RowOk(rows[id]) && Follows(s.rows[id], rows[id])
    ensures TableOk(rows)
  {
    TableKept(s.rows, rows, id);
  }

  /** A timer that fires leaves its loop idle. */
  lemma FiredIsIdle(s: State, timer: TimerId)
    requires timer in s.pending && LoopOk(s, s.pending[timer])
    ensures var id := s.pending[timer];
            var idle := ClearTimer(s.(pending := s.pending - {timer}), id);
            && Idle(idle, id) && OnlyLoop(s, idle, id) && idle.rows == s.rows && idle.calls == s.calls && idle.mode == s.mode
            && !Todo(s.mode, id)
  {
    var id := s.pending[timer];
    assert TimerOk(s, timer, id);
    var idle := s.(pending := s.pending - {timer}, runtimes := s.runtimes[id := s.runtimes[id].(timer := None)]);
    assert ClearTimer(s.(pending := s.pending - {timer}), id) == idle by {
      assert s.pending - {timer} - {timer} == s.pending - {timer};
    }
    forall t ensures Lookup(idle.pending, t) != Some(id) {
      assert TimerOk(s, t, id);
    }
    forall c ensures !CallOf(idle, c, id) {
      assert CallOk(s, c, id);
    }
  }

  lemma FiredSafe(s: State, timer: TimerId, now: int, call: CallId)
    requires Safe(s) && timer in s.pending && call !in s.calls
    ensures Safe(Fired(s, timer, now, call))
  {
    var id := s.pending[timer];
    var idle := ClearTimer(s.(pending := s.pending - {timer}), id);
    FiredIsIdle(s, timer);
    assert s.mode != Down;
    RunNowOk(idle, id, now, call);
    var s' := RunNow(idle, id, now, call);
    OnlyLoopTwice(s, idle, s', id);
    RunningRowKept(s, id, s'.rows);
    LocalSafe(s, s', id);
  }

  /** The state right after a call's await, with the call gone. */
  function Answered(s: State, call: CallId): State
    requires call in s.calls
  {
    CallEnded(if s.calls[call].point == Executing then Unblocked(s, s.calls[call].loop) else s, call)
  }

  /** In it the loop is idle or gone. */
  lemma AnsweredShape(s: State, call: CallId, s1: State)
    requires Safe(s) && call in s.calls && s1 == Answered(s, call)
    ensures var id := s.calls[call].loop;
            && id in s.rows && OnlyLoop(s, s1, id) && !Todo(s.mode, id) && s.mode != Down
            && (forall c :: !CallOf(s1, c, id)) && (forall t :: Lookup(s1.pending, t) != Some(id))
            && (id in s1.runtimes <==> Live(s.rows[id]))
            && (id in s1.runtimes ==> s1.runtimes[id] == Runtime(None, false))
            && (id in s1.runtimes ==> s.rows[id].status == if s.calls[call].point == Executing then Running else Active)
  {
    var id := s.calls[call].loop;
    assert LoopOk(s, id) && CallOf(s, call, id) && CallOk(s, call, id);
    forall c ensures !CallOf(s1, c, id) {
      assert CallOf(s1, c, id) ==> CallOf(s, c, id);
    }
    forall t ensures Lookup(s1.pending, t) != Some(id) {
      assert TimerOk(s, t, id);
    }
  }

  lemma DetachOnly(s: State, id: LoopId, reason: string, now: int)
    requires id in s.runtimes ==> s.runtimes[id].timer.None?
    ensures OnlyLoop(s, Detach(Terminalized(s, id, reason, now), id), id)
  {
  }

  /** Closing an idle loop's row and detaching it leaves nothing behind. */
  lemma ClosedIsGone(s: State, s1: State, id: LoopId, reason: string, now: int)
    requires s1.rows == s.rows && s1.mode == s.mode && id in s.rows && OnlyLoop(s, s1, id)
    requires (forall c :: !CallOf(s1, c, id)) && (forall t :: Lookup(s1.pending, t) != Some(id))
    requires id in s1.runtimes ==> s1.runtimes[id].timer.None?
    ensures var s' := Detach(Terminalized(s1, id, reason, now), id);
            && Gone(s', id) && OnlyLoop(s, s', id) && s'.mode == s.mode
            && s'.rows == s.rows[id := s'.rows[id]] && Follows(s.rows[id], s'.rows[id])
            && (RowOk(s.rows[id]) ==> RowOk(s'.rows[id]))
  {
    var s' := Detach(Terminalized(s1, id, reason, now), id);
    ClosedFields(s1, id, reason, now);
    forall c ensures !CallOf(s', c, id) {
      assert !CallOf(s1, c, id);
    }
    DetachOnly(s1, id, reason, now);
    OnlyLoopTwice(s, s1, s', id);
  }

  lemma ClosedFields(s1: State, id: LoopId, reason: string, now: int)
    requires id in s1.rows && (id in s1.runtimes ==> s1.runtimes[id].timer.None?)
    ensures var s' := Detach(Terminalized(s1, id, reason, now), id);
            && s'.calls == s1.calls && s'.pending == s1.pending && s'.mode == s1.mode
            && s'.runtimes == s1.runtimes - {id}
            && s'.rows == s1.rows[id := if Live(s1.rows[id]) then Closed(s1.rows[id], Ended, reason, now) else s1.rows[id]]
  {
  }

  lemma ClosedShape(s: State, s1: State, id: LoopId, reason: string, now: int)
    requires Safe(s) && s1.rows == s.rows && s1.mode == s.mode && id in s.rows && OnlyLoop(s, s1, id) && !Todo(s.mode, id) && s.mode != Down
    requires (forall c :: !CallOf(s1, c, id)) && (forall t :: Lookup(s1.pending, t) != Some(id))
    requires id in s1.runtimes ==> s1.runtimes[id].timer.None?
    ensures Safe(Detach(Terminalized(s1, id, reason, now), id))
  {
    var s' := Detach(Terminalized(s1, id, reason, now), id);
    ClosedIsGone(s, s1, id, reason, now);
    GoneOk(s', id);
    RunningRowKept(s, id, s'.rows);
    LocalSafe(s, s', id);
  }

  /** A call that ends with its loop already closed. */
  lemma DetachedShape(s: State, s1: State, id: LoopId)
    requires Safe(s) && s1.rows == s.rows && s1.mode == s.mode && id in s.rows && OnlyLoop(s, s1, id) && !Todo(s.mode, id) && s.mode != Down
    requires (forall c :: !CallOf(s1, c, id)) && (forall t :: Lookup(s1.pending, t) != Some(id))
    requires !Live(s.rows[id]) && id !in s1.runtimes
    ensures Safe(s1) && Detach(s1, id) == s1
  {
    GoneOk(s1, id);
    LocalSafe(s, s1, id);
  }

  lemma RearmedShape(s: State, s1: State, id: LoopId, timer: TimerId)
    requires Safe(s) && s1.mode == s.mode && id in s.rows && OnlyLoop(s, s1, id) && !Todo(s.mode, id) && s.mode != Down
    requires Idle(s1, id) && timer !in s1.pending
    requires id in s1.rows && s1.rows == s.rows[id := s1.rows[id]] && RowOk(s1.rows[id]) && Follows(s.rows[id], s1.rows[id])
    ensures Safe(ScheduleTimer(s1, id, timer))
  {
    var s' := ScheduleTimer(s1, id, timer);
    ScheduledOk(s1, id, timer);
    OnlyLoopTwice(s, s1, s', id);
    RunningRowKept(s, id, s'.rows);
    LocalSafe(s, s', id);
  }

  lemma PresentingShape(s: State, call: CallId, rows: Rows, s': State, nextRunAt: int, now: int)
    requires Safe(s) && call in s.calls && s.calls[call].point == Executing
    requires var id := s.calls[call].loop;
             && id in s.runtimes && ScheduleNext(s.rows, id, nextRunAt, now) == Some(rows)
             && s' == Unblocked(s, id).(rows := rows, calls := s.calls[call := s.calls[call].(point := Presenting(nextRunAt))])
    ensures Safe(s')
  {
    var id := s.calls[call].loop;
    assert LoopOk(s, id) && CallOf(s, call, id) && CallOk(s, call, id) && RowOk(s.rows[id]);
    assert CallOf(s', call, id);
    forall c ensures CallOf(s', c, id) <==> CallOf(s, c, id) {}
    forall t ensures TimerOk(s', t, id) {
      assert TimerOk(s, t, id);
    }
    forall c ensures CallOk(s', c, id) {
      assert CallOf(s', c, id) ==> c == call;
    }
    assert LoopOk(s', id);
    assert OnlyLoop(s, s', id);
    RunningRowKept(s, id, rows);
    LocalSafe(s, s', id);
  }

  lemma IterationClosed(s: State, call: CallId, done: State, reason: string, now: int)
    requires Safe(s) && call in s.calls && s.calls[call].point == Executing
    requires done == Answered(s, call)
    ensures Safe(Detach(Terminalized(done, s.calls[call].loop, reason, now), s.calls[call].loop))
  {
    AnsweredShape(s, call, done);
    ClosedShape(s, done, s.calls[call].loop, reason, now);
  }

  lemma IterationDetached(s: State, call: CallId, done: State)
    requires Safe(s) && call in s.calls && s.calls[call].point == Executing
    requires var id := s.calls[call].loop;
             && done == Answered(s, call)
             && (id !in s.rows || s.rows[id].status != Running)
    ensures Safe(Detach(done, s.calls[call].loop))
  {
    AnsweredShape(s, call, done);
    DetachedShape(s, done, s.calls[call].loop);
  }

  lemma AfterIterationSafe(s: State, call: CallId, answer: Answer, now: int, timer: TimerId)
    requires Safe(s) && call in s.calls && s.calls[call].point == Executing && timer !in s.pending
    ensures Safe(AfterIteration(s, call, answer, now, timer))
  {
    var id := s.calls[call].loop;
    var done := Answered(s, call);
    var reason := ClosingReason(answer, s.calls[call].iteration == 1);
    if reason.Some? {
      IterationClosed(s, call, done, reason.value, now);
    } else if id !in s.rows || s.rows[id].status != Running {
      IterationDetached(s, call, done);
    } else {
      ContinuedSafe(s, call, answer, now, timer);
    }
  }

  /** Writing the next run into an answered loop's row leaves it active and idle. */
  lemma RescheduledIsIdle(s: State, done: State, id: LoopId, rows: Rows, nextRunAt: int, now: int)
    requires OnlyLoop(s, done, id) && done.rows == s.rows && id in s.rows && s.rows[id].status == Running
    requires (forall c :: !CallOf(done, c, id)) && (forall t :: Lookup(done.pending, t) != Some(id))
    requires id in done.runtimes && done.runtimes[id] == Runtime(None, false)
    requires ScheduleNext(s.rows, id, nextRunAt, now) == Some(rows)
    ensures Idle(done.(rows := rows), id) && OnlyLoop(s, done.(rows := rows), id)
    ensures rows == s.rows[id := rows[id]] && Follows(s.rows[id], rows[id]) && (RowOk(s.rows[id]) ==> RowOk(rows[id]))
  {
    var s1 := done.(rows := rows);
    forall c ensures !CallOf(s1, c, id) {
      assert !CallOf(done, c, id);
    }
    assert OnlyLoop(done, s1, id);
    OnlyLoopTwice(s, done, s1, id);
  }

  function NextRows(s: State, id: LoopId, now: int): Rows
    requires id in s.rows && s.rows[id].status == Running
  {
    ScheduleNext(s.rows, id, now + s.rows[id].interval, now).value
  }

  lemma ContinuedRearmed(s: State, call: CallId, now: int, timer: TimerId)
    requires Safe(s) && call in s.calls && s.calls[call].point == Executing && timer !in s.pending
    requires var id := s.calls[call].loop; id in s.runtimes && id in s.rows && s.rows[id].status == Running
    ensures Safe(ScheduleTimer(Answered(s, call).(rows := NextRows(s, s.calls[call].loop, now)), s.calls[call].loop, timer))
  {
    var id := s.calls[call].loop;
    var done := Answered(s, call);
    var rows := NextRows(s, id, now);
    AnsweredShape(s, call, done);
    RescheduledIsIdle(s, done, id, rows, now + s.rows[id].interval, now);
    RearmedShape(s, done.(rows := rows), id, timer);
  }

  lemma RunningHasRuntime(s: State, call: CallId)
    requires Safe(s) && call in s.calls
    ensures var id := s.calls[call].loop; id in s.rows && (Live(s.rows[id]) ==> id in s.runtimes)
  {
    var id := s.calls[call].loop;
    assert LoopOk(s, id) && CallOf(s, call, id);
    assert CallOk(s, call, id);
  }

  lemma ContinuedShape(s: State, call: CallId, answer: Answer, now: int, timer: TimerId)
    requires call in s.calls && s.calls[call].point == Executing && s.calls[call].loop in s.runtimes
    requires ClosingReason(answer, s.calls[call].iteration == 1).None?
    requires s.calls[call].loop in s.rows && s.rows[s.calls[call].loop].status == Running
    ensures var id := s.calls[call].loop;
            && var rows := NextRows(s, id, now);
            AfterIteration(s, call, answer, now, timer) ==
              if s.presents
              then Unblocked(s, id).(rows := rows, calls := s.calls[call := s.calls[call].(point := Presenting(now + s.rows[id].interval))])
              else ScheduleTimer(Answered(s, call).(rows := rows), id, timer)
  {
  }

  lemma ContinuedSafe(s: State, call: CallId, answer: Answer, now: int, timer: TimerId)
    requires Safe(s) && call in s.calls && s.calls[call].point == Executing && timer !in s.pending
    requires ClosingReason(answer, s.calls[call].iteration == 1).None?
    requires s.calls[call].loop in s.rows && s.rows[s.calls[call].loop].status == Running
    ensures Safe(AfterIteration(s, call, answer, now, timer))
  {
    var id := s.calls[call].loop;
    var s' := AfterIteration(s, call, answer, now, timer);
    RunningHasRuntime(s, call);
    ContinuedShape(s, call, answer, now, timer);
    if s.presents {
      PresentingShape(s, call, NextRows(s, id, now), s', now + s.rows[id].interval, now);
    } else {
      ContinuedRearmed(s, call, now, timer);
    }
  }

  lemma AfterPresentingSafe(s: State, call: CallId, answer: Answer, now: int, timer: TimerId)
    requires Safe(s) && call in s.calls && s.calls[call].point.Presenting? && timer !in s.pending
    ensures Safe(AfterPresenting(s, call, answer, now, timer))
  {
    var id := s.calls[call].loop;
    var done := CallEnded(s, call);
    AnsweredShape(s, call, done);
    var reason := ClosingReason(answer, false);
    if reason.Some? {
      ClosedShape(s, done, id, reason.value, now);
    } else if s.rows[id].status != Active {
      DetachedShape(s, done, id);
    } else {
      assert RowOk(s.rows[id]);
      RearmedShape(s, done, id, timer);
    }
  }

  lemma CreatedTable(rows: Rows, id: LoopId, projectActive: bool, project: string, channel: string, thread: string,
                     interval: int, now: int)
    requires TableOk(rows) && Create(rows, id, projectActive, project, channel, thread, interval, now).Ok?
    ensures TableOk(Create(rows, id, projectActive, project, channel, thread, interval, now).value)
  {
  }

  /** Before it runs for the first time, a new loop is active and idle. */
  lemma RegisteredIsIdle(s: State, id: LoopId, rows: Rows)
    requires LoopOk(s, id) && id !in s.rows && id in rows && rows == s.rows[id := rows[id]] && rows[id].status == Active
    ensures var idle := Register(s.(rows := rows), id);
            Idle(idle, id) && OnlyLoop(s, idle, id) && idle.calls == s.calls && idle.mode == s.mode && idle.rows == rows
  {
    var idle := Register(s.(rows := rows), id);
    forall c ensures !CallOf(idle, c, id) {
      assert CallOk(s, c, id);
    }
    forall t ensures Lookup(idle.pending, t) != Some(id) {
      assert TimerOk(s, t, id);
    }
  }

  lemma CreatedSafe(s: State, id: LoopId, projectActive: bool, project: string, channel: string, thread: string,
                    interval: int, now: int, call: CallId)
    requires Safe(s) && s.mode == Serving && call !in s.calls
    requires Create(s.rows, id, projectActive, project, channel, thread, interval, now).Ok?
    ensures Safe(Created(s, Create(s.rows, id, projectActive, project, channel, thread, interval, now).value, id, now, call))
  {
    var rows := Create(s.rows, id, projectActive, project, channel, thread, interval, now).value;
    RegisteredIsIdle(s, id, rows);
    var idle := Register(s.(rows := rows), id);
    RunNowOk(idle, id, now, call);
    var s' := RunNow(idle, id, now, call);
    OnlyLoopTwice(s, idle, s', id);
    CreatedTable(s.rows, id, projectActive, project, channel, thread, interval, now);
    TableKept(rows, s'.rows, id);
    LocalSafe(s, s', id);
  }

  lemma CloseSafe(s: State, id: LoopId, status: LoopStatus, reason: string, now: int)
    requires Safe(s) && s.mode == Serving && (status == Stopped || status == Ended)
    ensures Safe(ClosedAndDetached(s, id, status, reason, now))
  {
    if id in s.rows && Live(s.rows[id]) {
      assert LoopOk(s, id);
      var s' := ClosedAndDetached(s, id, status, reason, now);
      forall t ensures TimerOk(s', t, id) {
        assert TimerOk(s, t, id);
      }
      forall c ensures CallOk(s', c, id) {
        assert CallOk(s, c, id);
      }
      forall c ensures CallOf(s', c, id) <==> CallOf(s, c, id) {}
      assert LoopOk(s', id);
      assert OnlyLoop(s, s', id) by {
        forall t, other | other != id ensures Lookup(s'.pending, t) == Some(other) <==> Lookup(s.pending, t) == Some(other) {
          assert TimerOk(s, t, id);
        }
      }
      RunningRowKept(s, id, s'.rows);
      LocalSafe(s, s', id);
    }
  }

  lemma CloseAllLoopOk(s: State, project: string, reason: string, now: int, id: LoopId)
    requires LoopOk(s, id) && s.mode == Serving
    ensures LoopOk(ClosedProject(s, project, reason, now), id)
  {
    var s' := ClosedProject(s, project, reason, now);
    forall t ensures TimerOk(s', t, id) {
      assert TimerOk(s, t, id);
    }
    forall c ensures CallOk(s', c, id) {
      assert CallOk(s, c, id);
    }
    forall c ensures CallOf(s', c, id) <==> CallOf(s, c, id) {}
  }

  lemma CloseAllSafe(s: State, project: string, reason: string, now: int)
    requires Safe(s) && s.mode == Serving
    ensures Safe(ClosedProject(s, project, reason, now))
  {
    forall id ensures LoopOk(ClosedProject(s, project, reason, now), id) {
      CloseAllLoopOk(s, project, reason, now, id);
    }
  }

  // ---------------------------------------------------------------- reconciliation

  /** The head of the list is dealt with: it is closed, or it has a runtime again. */
  lemma SkippedSafe(s: State, s1: State)
    requires Safe(s) && s.mode.Reconciling? && s.mode.todo != [] && s1.mode == s.mode
    requires var id := s.mode.todo[0].id;
             && OnlyLoop(s, s1, id) && TableOk(s1.rows)
             && LoopOk(s1.(mode := Serving), id)
    ensures Safe(Skipped(s1))
  {
    var id := s.mode.todo[0].id;
    var s' := Skipped(s1);
    var todo := s.mode.todo;
    assert !Todo(s'.mode, id);
    assert LoopOk(s', id) by {
      assert forall t :: TimerOk(s1.(mode := Serving), t, id) ==> TimerOk(s', t, id);
      assert forall c :: CallOf(s', c, id) <==> CallOf(s1.(mode := Serving), c, id);
      assert forall c :: CallOk(s1.(mode := Serving), c, id) ==> CallOk(s', c, id);
    }
    assert OnlyLoop(s, s', id);
    forall other ensures LoopOk(s', other) {
      if other != id {
        assert Todo(s.mode, other) <==> Todo(s'.mode, other) by {
          TailTodo(todo, other);
        }
        OthersOk(s, s', id, other);
      }
    }
    forall i | 1 <= i < |todo| ensures todo[i].id in s'.rows && s'.rows[todo[i].id] == todo[i].row {
      assert Lookup(s'.rows, todo[i].id) == Lookup(s.rows, todo[i].id);
    }
  }

  lemma TailTodo(todo: seq<Listed>, other: LoopId)
    requires todo != [] && todo[0].id != other
    ensures (exists i :: 0 <= i < |todo| && todo[i].id == other) <==> (exists i :: 0 <= i < |todo[1..]| && todo[1..][i].id == other)
  {
    if i :| 0 <= i < |todo| && todo[i].id == other {
      assert todo[1..][i - 1].id == other;
    }
  }

  lemma HeadShape(s: State)
    requires Safe(s) && s.mode.Reconciling? && s.mode.todo != []
    ensures var head := s.mode.todo[0];
            && head.id in s.rows && s.rows[head.id] == head.row && Live(head.row) && RowOk(head.row)
            && head.id !in s.runtimes && (forall c :: !CallOf(s, c, head.id))
            && (forall t :: Lookup(s.pending, t) != Some(head.id))
  {
    var id := s.mode.todo[0].id;
    assert LoopOk(s, id) && Todo(s.mode, id);
    forall t ensures Lookup(s.pending, t) != Some(id) {
      assert TimerOk(s, t, id);
    }
  }

  lemma HeadClosed(s: State, reason: string, now: int)
    requires Safe(s) && s.mode.Reconciling? && s.mode.todo != []
    ensures Safe(Skipped(Terminalized(s, s.mode.todo[0].id, reason, now)))
  {
    var id := s.mode.todo[0].id;
    HeadShape(s);
    var s1 := Terminalized(s, id, reason, now);
    forall c ensures !CallOf(s1.(mode := Serving), c, id) {
      assert !CallOf(s, c, id);
    }
    GoneOk(s1.(mode := Serving), id);
    RunningRowKept(s, id, s1.rows);
    SkippedSafe(s, s1);
  }

  lemma HeadRearmed(s: State, rows: Rows, timer: TimerId)
    requires Safe(s) && s.mode.Reconciling? && s.mode.todo != [] && timer !in s.pending
    requires var id := s.mode.todo[0].id;
             && id in s.rows && id in rows && rows == s.rows[id := rows[id]] && RowOk(rows[id])
             && Follows(s.rows[id], rows[id]) && rows[id].status == Active
    ensures Safe(Rejoined(s.(rows := rows), s.mode.todo[0].id, timer))
  {
    var id := s.mode.todo[0].id;
    HeadShape(s);
    var idle := Register(s.(rows := rows), id);
    var serving := idle.(mode := Serving);
    forall c ensures !CallOf(serving, c, id) {
      assert !CallOf(s, c, id);
    }
    forall t ensures Lookup(serving.pending, t) != Some(id) {
      assert Lookup(s.pending, t) != Some(id);
    }
    ScheduledOk(serving, id, timer);
    var s1 := ScheduleTimer(idle, id, timer);
    assert s1.(mode := Serving) == ScheduleTimer(serving, id, timer);
    assert OnlyLoop(s, serving, id);
    OnlyLoopTwice(s, serving, s1.(mode := Serving), id);
    assert OnlyLoop(s, s1, id);
    RunningRowKept(s, id, rows);
    SkippedSafe(s, s1);
  }

  lemma ReconcileSafe(s: State, projectFound: bool, now: int)
    requires Safe(s) && s.mode.Reconciling? && s.mode.todo != []
    ensures Safe(Reconcile(s, projectFound, now))
  {
    HeadShape(s);
    if !projectFound {
      HeadClosed(s, ProjectGone(s.mode.todo[0].row), now);
    } else {
      var s' := Reconcile(s, projectFound, now);
      forall id ensures LoopOk(s', id) {
        assert LoopOk(s, id);
        assert forall t :: TimerOk(s, t, id) ==> TimerOk(s', t, id);
        assert forall c :: CallOf(s', c, id) <==> CallOf(s, c, id);
        assert forall c :: CallOk(s, c, id) ==> CallOk(s', c, id);
        assert Todo(s'.mode, id) <==> Todo(s.mode, id);
      }
    }
  }

  lemma HeadRow(s: State)
    requires TodoOk(s) && TableOk(s.rows) && s.mode.Reconciling? && s.mode.todo != []
    ensures s.mode.todo[0].id in s.rows && s.rows[s.mode.todo[0].id] == s.mode.todo[0].row && RowOk(s.mode.todo[0].row)
  {
  }

  lemma DeferredRows(s: State, now: int)
    requires TodoOk(s) && TableOk(s.rows) && s.mode.Reconciling? && s.mode.todo != []
    ensures var id := s.mode.todo[0].id;
            var rows := DeferInterrupted(s.rows, s.mode.todo[0], now);
            && rows.Some? && id in s.rows && id in rows.value && rows.value == s.rows[id := rows.value[id]]
            && RowOk(rows.value[id]) && Follows(s.rows[id], rows.value[id]) && rows.value[id].status == Active
  {
    HeadRow(s);
    var head := s.mode.todo[0];
    if head.row.status != Running {
      assert s.rows == s.rows[head.id := s.rows[head.id]];
    }
  }

  lemma ResumedSafe(s: State, found: bool, now: int, timer: TimerId)
    requires Safe(s) && s.mode.Reconciling? && s.mode.todo != [] && timer !in s.pending
    ensures Safe(Resumed(s, found, now, timer))
  {
    if found {
      DeferredRows(s, now);
      HeadRearmed(s, DeferInterrupted(s.rows, s.mode.todo[0], now).value, timer);
    } else {
      HeadClosed(s, ThreadGone(s.mode.todo[0].row), now);
    }
  }

  lemma BootSafe(s: State, order: seq<LoopId>)
    requires Safe(s) && s.mode == Down && Lists(s.rows, order)
    ensures Safe(Step(s, Boot(order)))
  {
    var s' := Step(s, Boot(order));
    forall id ensures LoopOk(s', id) {
      assert LoopOk(s, id);
      assert forall t :: TimerOk(s, t, id) ==> TimerOk(s', t, id);
      assert forall c :: !CallOf(s', c, id);
      assert forall c :: CallOk(s', c, id);
      if id in s.rows && Live(s.rows[id]) {
        assert id in order;
        var i :| 0 <= i < |order| && order[i] == id;
        assert s'.mode.todo[i].id == id;
      }
    }
    forall i | 0 <= i < |order| ensures order[i] in s.rows && Live(s.rows[order[i]]) {
      assert order[i] in order;
    }
  }

  lemma CrashedSafe(s: State)
    requires TableOk(s.rows)
    ensures Safe(Crashed(s))
  {
    var s' := Crashed(s);
    forall id ensures LoopOk(s', id) {
      assert forall t :: TimerOk(s', t, id);
      assert forall c :: !CallOf(s', c, id);
      assert forall c :: CallOk(s', c, id);
    }
  }

  lemma TakenTable(s: State, id: LoopId, now: int)
    requires TableOk(s.rows)
    ensures TableOk(Taken(s, id, now).rows)
  {
    if AcquireIteration(s.rows, id, now).Some? {
      TableKept(s.rows, Taken(s, id, now).rows, id);
    }
  }

  // ---------------------------------------------------------------- every run

  predicate ReconcileEvent(e: Event) { e.Boot? || e.ReconcileNext? || e.ThreadFetched? }

  lemma ReconcileEventSafe(s: State, e: Event)
    requires Safe(s) && ReconcileEvent(e)
    ensures Safe(Step(s, e))
  {
    match e
    case Boot(order) => if s.mode == Down && Lists(s.rows, order) { BootSafe(s, order); }
    case ReconcileNext(projectFound, now) =>
      if s.mode.Reconciling? && s.mode.todo != [] { ReconcileSafe(s, projectFound, now); }
    case ThreadFetched(found, now, timer) =>
      if s.mode.Reconciling? && s.mode.todo != [] && timer !in s.pending { ResumedSafe(s, found, now, timer); }
  }

  predicate CrashEvent(e: Event) { e.Crash? || e.CreateThenCrash? || e.AcquireThenCrash? }

  lemma CrashEventSafe(s: State, e: Event)
    requires Safe(s) && CrashEvent(e)
    ensures Safe(Step(s, e))
  {
    match e
    case Crash => CrashedSafe(s);
    case CreateThenCrash(id, projectActive, project, channel, thread, interval, now, acquired) =>
      var created := Create(s.rows, id, projectActive, project, channel, thread, interval, now);
      if created.Ok? {
        CreatedTable(s.rows, id, projectActive, project, channel, thread, interval, now);
        var s1 := s.(rows := created.value);
        TakenTable(s1, id, now);
        CrashedSafe(s1);
        CrashedSafe(Taken(s1, id, now));
      }
    case AcquireThenCrash(id, now) =>
      TakenTable(s, id, now);
      CrashedSafe(Taken(s, id, now));
  }

  lemma CloseEventSafe(s: State, selector: Selector, status: LoopStatus, reason: string, now: int)
    requires Safe(s)
    ensures Safe(Step(s, Close(selector, status, reason, now)))
  {
    var selected := Selected(s.rows, selector);
    if selected.Some? && s.mode == Serving && (status == Stopped || status == Ended) {
      CloseSafe(s, selected.value, status, reason, now);
    }
  }

  /** Every event keeps the service safe. */
  lemma StepSafe(s: State, e: Event)
    requires Safe(s)
    ensures Safe(Step(s, e))
  {
    if ReconcileEvent(e) {
      ReconcileEventSafe(s, e);
    } else if CrashEvent(e) {
      CrashEventSafe(s, e);
    } else {
      match e
      case CreateAndStart(id, projectActive, project, channel, thread, interval, now, call) =>
        if s.mode == Serving && call !in s.calls && Create(s.rows, id, projectActive, project, channel, thread, interval, now).Ok? {
          CreatedSafe(s, id, projectActive, project, channel, thread, interval, now, call);
        }
      case Fire(timer, now, call) => if timer in s.pending && call !in s.calls { FiredSafe(s, timer, now, call); }
      case Executed(call, answer, now, timer) =>
        if call in s.calls && s.calls[call].point == Executing && timer !in s.pending { AfterIterationSafe(s, call, answer, now, timer); }
      case Presented(call, answer, now, timer) =>
        if call in s.calls && s.calls[call].point.Presenting? && timer !in s.pending { AfterPresentingSafe(s, call, answer, now, timer); }
      case Close(selector, status, reason, now) => CloseEventSafe(s, selector, status, reason, now);
      case CloseAll(project, reason, now) => if s.mode == Serving { CloseAllSafe(s, project, reason, now); }
    }
  }

  lemma {:induction false} RunSafe(s: State, es: seq<Event>)
    requires Safe(s)
    ensures Safe(Run(s, es))
    decreases |es|
  {
    if es != [] {
      RunSafe(s, es[..|es| - 1]);
      StepSafe(Run(s, es[..|es| - 1]), es[|es| - 1]);
    }
  }

  lemma InitialSafe(presents: bool)
    ensures Safe(Initial(presents))
  {
    CrashedSafe(Initial(presents));
    assert Crashed(Initial(presents)) == Initial(presents);
  }

  /** Exactly one pending timer, and no call. */
  ghost predicate WaitsForTimer(s: State, id: LoopId) {
    && (exists t :: Lookup(s.pending, t) == Some(id))
    && (forall t, u :: Lookup(s.pending, t) == Some(id) && Lookup(s.pending, u) == Some(id) ==> t == u)
    && (forall c :: !CallOf(s, c, id))
  }

  /** Exactly one `runNow` call, at the given kind of await, and no timer. */
  ghost predicate HasOneCall(s: State, id: LoopId, executing: bool) {
    && (exists c :: CallOf(s, c, id) && (s.calls[c].point == Executing <==> executing))
    && (forall c, d :: CallOf(s, c, id) && CallOf(s, d, id) ==> c == d)
    && (forall t :: Lookup(s.pending, t) != Some(id))
  }

  /** Once reconciliation is over, every live loop is cared for: a running one by exactly one iteration,
      an active one by exactly one timer or by one call presenting its waiting state. */
  lemma NoOrphans(presents: bool, es: seq<Event>, id: LoopId)
    requires var s := Run(Initial(presents), es); s.mode == Serving && id in s.rows && Live(s.rows[id])
    ensures var s := Run(Initial(presents), es);
            && id in s.runtimes
            && (s.rows[id].status == Running ==> HasOneCall(s, id, true))
            && (s.rows[id].status == Active ==> WaitsForTimer(s, id) || HasOneCall(s, id, false))
  {
    InitialSafe(presents);
    RunSafe(Initial(presents), es);
    var s := Run(Initial(presents), es);
    assert LoopOk(s, id);
    if s.runtimes[id].timer.Some? {
      assert TimerOk(s, s.runtimes[id].timer.value, id);
      forall t, u | Lookup(s.pending, t) == Some(id) && Lookup(s.pending, u) == Some(id) ensures t == u {
        assert TimerOk(s, t, id) && TimerOk(s, u, id);
      }
      forall c ensures !CallOf(s, c, id) {
        assert CallOk(s, c, id);
      }
    } else {
      var c :| CallOf(s, c, id);
      assert CallOk(s, c, id);
      forall t ensures Lookup(s.pending, t) != Some(id) {
        assert TimerOk(s, t, id);
      }
    }
  }

  /** In every state of every run, whatever the mode, a loop has at most one call in flight, and a
      stopped or ended loop has neither a timer nor a runtime. */
  lemma NoDoubleExecution(presents: bool, es: seq<Event>, id: LoopId)
    ensures var s := Run(Initial(presents), es);
            && (forall c, d :: CallOf(s, c, id) && CallOf(s, d, id) ==> c == d)
            && (id in s.rows && !Live(s.rows[id]) ==> id !in s.runtimes && forall t :: Lookup(s.pending, t) != Some(id))
            && OneLivePerChannel(s.rows)
  {
    InitialSafe(presents);
    RunSafe(Initial(presents), es);
    var s := Run(Initial(presents), es);
    assert LoopOk(s, id);
    forall t | id in s.rows && !Live(s.rows[id]) ensures Lookup(s.pending, t) != Some(id) {
      assert TimerOk(s, t, id);
    }
  }
}
