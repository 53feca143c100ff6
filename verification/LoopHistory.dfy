/**
 The history of a loop over its whole life, across stops of the process and reconciliations: iterations
 are acquired one after the other from 1, none is executed twice, and a closed loop stays as it is.
 */
module LoopHistory {
  import opened Common
  import opened LoopStore
  import opened LoopMachine

  function Iteration(rows: Rows, id: LoopId): nat { if id in rows then rows[id].iteration else 0 }

  function Numbers(log: seq<Numbered>, id: LoopId): seq<nat> {
    if log == [] then []
    else
      var rest := Numbers(log[..|log| - 1], id);
      if log[|log| - 1].loop == id then rest + [log[|log| - 1].iteration] else rest
  }

  function Upto(n: nat): seq<nat> { if n == 0 then [] else Upto(n - 1) + [n] }

  predicate Increasing(s: seq<nat>) { forall i, j :: 0 <= i < j < |s| ==> s[i] < s[j] }

  ghost predicate HistoryOf(s: State, id: LoopId) {
    && Numbers(s.acquired, id) == Upto(Iteration(s.rows, id))
    && Increasing(Numbers(s.executed, id))
    && forall n :: n in Numbers(s.executed, id) ==> 1 <= n <= Iteration(s.rows, id)
  }

  /** One event's effect on the rows and the two logs: nothing is acquired, or one active loop is. */
  ghost predicate Quiet(s: State, s': State) {
    && (forall id :: Iteration(s'.rows, id) == Iteration(s.rows, id))
    && s'.acquired == s.acquired && s'.executed == s.executed
  }

  ghost predicate Acquires(s: State, s': State, id: LoopId) {
    && (id in s.rows ==> s.rows[id].status == Active)
    && Iteration(s'.rows, id) == Iteration(s.rows, id) + 1
    && (forall other :: other != id ==> Iteration(s'.rows, other) == Iteration(s.rows, other))
    && s'.acquired == s.acquired + [Numbered(id, Iteration(s'.rows, id))]
    && (s'.executed == s.executed || s'.executed == s.executed + [Numbered(id, Iteration(s'.rows, id))])
  }

  ghost predicate RowsFollow(s: State, s': State) {
    forall id :: id in s.rows ==> id in s'.rows && Follows(s.rows[id], s'.rows[id])
  }

  // ---------------------------------------------------------------- one event

  lemma RunNowHistory(s: State, id: LoopId, now: int, call: CallId)
    ensures RowsFollow(s, RunNow(s, id, now, call))
    ensures Quiet(s, RunNow(s, id, now, call)) || Acquires(s, RunNow(s, id, now, call), id)
  {
  }

  lemma TakenHistory(s: State, id: LoopId, now: int)
    ensures RowsFollow(s, Taken(s, id, now))
    ensures Quiet(s, Taken(s, id, now)) || Acquires(s, Taken(s, id, now), id)
  {
  }

  /** One row at most is rewritten, without moving its iteration on. */
  predicate OneRowQuiet(s: State, s': State, id: LoopId) {
    && s'.acquired == s.acquired && s'.executed == s.executed
    && (s'.rows == s.rows
        || (id in s.rows && id in s'.rows && s'.rows == s.rows[id := s'.rows[id]] && Follows(s.rows[id], s'.rows[id])
            && s'.rows[id].iteration == s.rows[id].iteration))
  }

  lemma OneRowHistory(s: State, s': State, id: LoopId)
    requires OneRowQuiet(s, s', id)
    ensures RowsFollow(s, s') && Quiet(s, s')
  {
  }

  lemma ClosedQuiet(s: State, s1: State, id: LoopId, reason: string, now: int)
    requires s1.rows == s.rows && s1.acquired == s.acquired && s1.executed == s.executed
    ensures OneRowQuiet(s, Terminalized(s1, id, reason, now), id)
    ensures OneRowQuiet(s, Detach(Terminalized(s1, id, reason, now), id), id)
  {
  }

  lemma ScheduledQuiet(s: State, id: LoopId, nextRunAt: int, now: int)
    requires ScheduleNext(s.rows, id, nextRunAt, now).Some?
    ensures OneRowQuiet(s, s.(rows := ScheduleNext(s.rows, id, nextRunAt, now).value), id)
  {
  }

  /** The parts of the state the history does not look at. */
  predicate SameHistory(s: State, s': State) {
    s'.rows == s.rows && s'.acquired == s.acquired && s'.executed == s.executed
  }

  lemma HeadHistory(s: State, projectFound: bool, now: int)
    requires s.mode.Reconciling? && s.mode.todo != []
    ensures OneRowQuiet(s, Reconcile(s, projectFound, now), s.mode.todo[0].id)
  {
    ClosedQuiet(s, s, s.mode.todo[0].id, ProjectGone(s.mode.todo[0].row), now);
  }

  lemma RejoinedHistory(s: State, id: LoopId, timer: TimerId)
    requires s.mode.Reconciling? && s.mode.todo != []
    ensures SameHistory(s, Rejoined(s, id, timer))
  {
  }

  lemma SkippedHistory(s: State, s1: State, id: LoopId)
    requires s1.mode.Reconciling? && s1.mode.todo != [] && OneRowQuiet(s, s1, id)
    ensures OneRowQuiet(s, Skipped(s1), id)
  {
  }

  lemma RejoinedQuiet(s: State, s1: State, id: LoopId, timer: TimerId)
    requires s1.mode.Reconciling? && s1.mode.todo != [] && OneRowQuiet(s, s1, id)
    ensures OneRowQuiet(s, Rejoined(s1, id, timer), id)
  {
    RejoinedHistory(s1, id, timer);
  }

  lemma DeferredQuiet(s: State, listed: Listed, now: int)
    requires DeferInterrupted(s.rows, listed, now).Some?
    ensures OneRowQuiet(s, s.(rows := DeferInterrupted(s.rows, listed, now).value), listed.id)
  {
    if listed.row.status == Running {
      ScheduledQuiet(s, listed.id, now + listed.row.interval, now);
    }
  }

  lemma FetchedHistory(s: State, found: bool, now: int, timer: TimerId)
    requires s.mode.Reconciling? && s.mode.todo != []
    ensures OneRowQuiet(s, Resumed(s, found, now, timer), s.mode.todo[0].id)
  {
    var head := s.mode.todo[0];
    if !found {
      ClosedQuiet(s, s, head.id, ThreadGone(head.row), now);
      SkippedHistory(s, Terminalized(s, head.id, ThreadGone(head.row), now), head.id);
    } else {
      match DeferInterrupted(s.rows, head, now)
      case None => SkippedHistory(s, s, head.id);
      case Some(rows) =>
        DeferredQuiet(s, head, now);
        RejoinedQuiet(s, s.(rows := rows), head.id, timer);
    }
  }

  lemma ReconcileHistory(s: State, e: Event)
    requires e.Boot? || e.ReconcileNext? || e.ThreadFetched?
    ensures RowsFollow(s, Step(s, e)) && Quiet(s, Step(s, e))
  {
    if s.mode.Reconciling? && s.mode.todo != [] {
      var id := s.mode.todo[0].id;
      match e
      case Boot(_) => OneRowHistory(s, Step(s, e), id);
      case ReconcileNext(projectFound, now) =>
        HeadHistory(s, projectFound, now);
        OneRowHistory(s, Step(s, e), id);
      case ThreadFetched(found, now, timer) =>
        FetchedHistory(s, found, now, timer);
        OneRowHistory(s, Step(s, e), id);
    }
  }

  lemma RearmedQuiet(s: State, s1: State, id: LoopId, timer: TimerId)
    requires OneRowQuiet(s, s1, id)
    ensures OneRowQuiet(s, Rearmed(s1, id, timer), id)
  {
  }

  lemma IterationHistory(s: State, call: CallId, answer: Answer, now: int, timer: TimerId)
    requires call in s.calls
    ensures OneRowQuiet(s, AfterIteration(s, call, answer, now, timer), s.calls[call].loop)
  {
    var id := s.calls[call].loop;
    var s' := AfterIteration(s, call, answer, now, timer);
    var idle := Unblocked(s, id);
    var done := CallEnded(idle, call);
    var reason := ClosingReason(answer, s.calls[call].iteration == 1);
    if reason.Some? {
      ClosedQuiet(s, done, id, reason.value, now);
    } else if id in s.rows && s.rows[id].status == Running {
      ScheduledQuiet(s, id, now + s.rows[id].interval, now);
      var rows := ScheduleNext(s.rows, id, now + s.rows[id].interval, now).value;
      if s.presents {
        assert SameHistory(s.(rows := rows), s');
      } else {
        RearmedQuiet(s, done.(rows := rows), id, timer);
        assert s' == Rearmed(done.(rows := rows), id, timer);
      }
    } else {
      assert SameHistory(s, s');
    }
  }

  lemma AnswerHistory(s: State, call: CallId, answer: Answer, now: int, timer: TimerId)
    requires call in s.calls
    ensures RowsFollow(s, AfterIteration(s, call, answer, now, timer)) && Quiet(s, AfterIteration(s, call, answer, now, timer))
    ensures RowsFollow(s, AfterPresenting(s, call, answer, now, timer)) && Quiet(s, AfterPresenting(s, call, answer, now, timer))
  {
    var id := s.calls[call].loop;
    IterationHistory(s, call, answer, now, timer);
    OneRowHistory(s, AfterIteration(s, call, answer, now, timer), id);
    RearmedQuiet(s, CallEnded(s, call), id, timer);
    OneRowHistory(s, AfterPresenting(s, call, answer, now, timer), id);
  }

  lemma CloseHistory(s: State, id: LoopId, status: LoopStatus, reason: string, now: int)
    ensures RowsFollow(s, ClosedAndDetached(s, id, status, reason, now)) && Quiet(s, ClosedAndDetached(s, id, status, reason, now))
  {
    OneRowHistory(s, ClosedAndDetached(s, id, status, reason, now), id);
  }

  lemma CreatedHistory(s: State, s1: State, s': State, id: LoopId)
    requires id !in s.rows && id in s1.rows && s1.rows == s.rows[id := s1.rows[id]] && s1.rows[id].iteration == 0
    requires s1.acquired == s.acquired && s1.executed == s.executed
    requires RowsFollow(s1, s') && (Quiet(s1, s') || Acquires(s1, s', id))
    ensures RowsFollow(s, s') && (Quiet(s, s') || Acquires(s, s', id))
  {
    assert forall other :: Iteration(s1.rows, other) == Iteration(s.rows, other);
    forall other | other in s.rows ensures other in s'.rows && Follows(s.rows[other], s'.rows[other]) {
      assert other in s1.rows && s1.rows[other] == s.rows[other];
    }
  }

  lemma CreateAndStartHistory(s: State, e: Event)
    requires e.CreateAndStart?
    ensures RowsFollow(s, Step(s, e)) && (Quiet(s, Step(s, e)) || Acquires(s, Step(s, e), e.id))
  {
    var created := Create(s.rows, e.id, e.projectActive, e.project, e.channel, e.thread, e.interval, e.now);
    if s.mode == Serving && created.Ok? && e.call !in s.calls {
      var s1 := Register(s.(rows := created.value), e.id);
      RunNowHistory(s1, e.id, e.now, e.call);
      CreatedHistory(s, s1, RunNow(s1, e.id, e.now, e.call), e.id);
    }
  }

  lemma CreateThenCrashHistory(s: State, e: Event)
    requires e.CreateThenCrash?
    ensures RowsFollow(s, Step(s, e)) && (Quiet(s, Step(s, e)) || Acquires(s, Step(s, e), e.id))
  {
    var created := Create(s.rows, e.id, e.projectActive, e.project, e.channel, e.thread, e.interval, e.now);
    if s.mode == Serving && created.Ok? {
      var s1 := s.(rows := created.value);
      TakenHistory(s1, e.id, e.now);
      CreatedHistory(s, s1, Taken(s1, e.id, e.now), e.id);
      CreatedHistory(s, s1, s1, e.id);
    }
  }

  lemma FireHistory(s: State, timer: TimerId, now: int, call: CallId)
    requires timer in s.pending
    ensures RowsFollow(s, Fired(s, timer, now, call))
    ensures Quiet(s, Fired(s, timer, now, call)) || Acquires(s, Fired(s, timer, now, call), s.pending[timer])
  {
    var id := s.pending[timer];
    var s1 := ClearTimer(s.(pending := s.pending - {timer}), id);
    RunNowHistory(s1, id, now, call);
    assert s1.rows == s.rows && s1.acquired == s.acquired && s1.executed == s.executed;
  }

  lemma CloseEventHistory(s: State, e: Event)
    requires e.Close? || e.CloseAll?
    ensures RowsFollow(s, Step(s, e)) && Quiet(s, Step(s, e))
  {
    if e.Close? {
      var selected := Selected(s.rows, e.selector);
      if selected.Some? { CloseHistory(s, selected.value, e.status, e.reason, e.now); }
    }
  }

  lemma AcquireThenCrashHistory(s: State, id: LoopId, now: int)
    ensures var s' := Step(s, AcquireThenCrash(id, now)); RowsFollow(s, s') && (Quiet(s, s') || Acquires(s, s', id))
  {
    TakenHistory(s, id, now);
  }

  /** No event changes a closed row, takes a row away, or acquires more than the next iteration of one active loop. */
  lemma StepHistory(s: State, e: Event)
    ensures RowsFollow(s, Step(s, e))
    ensures Quiet(s, Step(s, e)) || exists id :: Acquires(s, Step(s, e), id)
  {
    match e
    case Boot(_) => ReconcileHistory(s, e);
    case ReconcileNext(_, _) => ReconcileHistory(s, e);
    case ThreadFetched(_, _, _) => ReconcileHistory(s, e);
    case CreateAndStart(_, _, _, _, _, _, _, _) => CreateAndStartHistory(s, e);
    case CreateThenCrash(_, _, _, _, _, _, _, _) => CreateThenCrashHistory(s, e);
    case Fire(timer, now, call) => if timer in s.pending { FireHistory(s, timer, now, call); }
    case Executed(call, answer, now, timer) => if call in s.calls { AnswerHistory(s, call, answer, now, timer); }
    case Presented(call, answer, now, timer) => if call in s.calls { AnswerHistory(s, call, answer, now, timer); }
    case Close(_, _, _, _) => CloseEventHistory(s, e);
    case CloseAll(_, _, _) => CloseEventHistory(s, e);
    case Crash =>
    case AcquireThenCrash(id, now) => AcquireThenCrashHistory(s, id, now);
  }

  lemma HistoryKept(s: State, s': State, id: LoopId)
    requires HistoryOf(s, id)
    requires Quiet(s, s') || exists other :: Acquires(s, s', other)
    ensures HistoryOf(s', id)
  {
    if !Quiet(s, s') {
      var other :| Acquires(s, s', other);
      var n := Iteration(s'.rows, other);
      assert s'.acquired[..|s'.acquired| - 1] == s.acquired;
      if s'.executed != s.executed {
        assert s'.executed[..|s'.executed| - 1] == s.executed;
        var before := Numbers(s.executed, id);
        if other == id {
          forall i | 0 <= i < |before| ensures before[i] < n {
            assert before[i] in before;
          }
        }
      }
    }
  }

  // ---------------------------------------------------------------- whole runs

  /** Over a loop's whole life the acquired iterations are 1, 2, ..., up to the stored one, and those
      handed to the iteration callback strictly increase: no iteration is replayed. */
  lemma {:induction false} NoReplay(presents: bool, es: seq<Event>, id: LoopId)
    ensures HistoryOf(Run(Initial(presents), es), id)
    decreases |es|
  {
    if es != [] {
      var s := Run(Initial(presents), es[..|es| - 1]);
      NoReplay(presents, es[..|es| - 1], id);
      StepHistory(s, es[|es| - 1]);
      HistoryKept(s, Step(s, es[|es| - 1]), id);
    }
  }

  /** A stopped or ended loop keeps its row, iteration and reason included, and never executes again. */
  lemma {:induction false} ClosedForever(s: State, es: seq<Event>, id: LoopId)
    requires id in s.rows && !Live(s.rows[id])
    ensures var s' := Run(s, es);
            && id in s'.rows && s'.rows[id] == s.rows[id]
            && Numbers(s'.acquired, id) == Numbers(s.acquired, id)
            && Numbers(s'.executed, id) == Numbers(s.executed, id)
    decreases |es|
  {
    if es != [] {
      var s1 := Run(s, es[..|es| - 1]);
      var s' := Step(s1, es[|es| - 1]);
      ClosedForever(s, es[..|es| - 1], id);
      StepHistory(s1, es[|es| - 1]);
      if !Quiet(s1, s') {
        var other :| Acquires(s1, s', other);
        assert s'.acquired[..|s'.acquired| - 1] == s1.acquired;
        if s'.executed != s1.executed {
          assert s'.executed[..|s'.executed| - 1] == s1.executed;
        }
      }
    }
  }
}
