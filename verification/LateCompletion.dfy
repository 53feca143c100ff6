/**
 A provider turn cannot be recalled: its completion arrives whatever has happened to the task. Exactly
 when a completion moves the task's row, and, after the turn was cancelled, exactly in which stretch of
 every run it does: between the reopening of the task by a continuation and the end of that newer turn.
 */
module LateCompletion {
  import opened Common
  import opened TaskStore
  import opened Usage
  import opened Coordinator
  import opened CoordinatorSafety
  import opened HoldConservation
  import opened HoldAccounting
  import opened HoldTracing
  import opened CancellationRaces

  // ---------------------------------------------------------------- one completion

  /** The guard of the code: no result is stored, the row is live, and the outcome is legal from there. */
  predicate CompletionMoves(db: Tables, t: TaskId, outcome: Outcome) {
    && t in db.tasks && t !in db.results && db.tasks[t].status != Interrupted
    && outcome in LegalTransitions(db.tasks[t].status)
  }

  lemma SettledRows(w: World, c: CallId, provider: Provider, usage: TurnUsage)
    requires c in w.calls && w.calls[c].task in w.db.tasks && WellFormed(w.ledger)
    ensures Settled(w, c, provider, usage).db.tasks == w.db.tasks
  {
  }

  /** A completion moves its task's row if and only if no result is stored for the task, a restart has not
      interrupted it, and the outcome is legal from the row's status. */
  lemma CompletionMovesExactly(w: World, c: CallId, outcome: Outcome, provider: Provider, usage: TurnUsage, now: int)
    requires WellFormed(w.ledger) && Consistent(w.db) && Suspended(w, c, {AwaitCompletion})
    ensures var t := w.calls[c].task;
            var w' := Step(w, TurnCompleted(c, outcome, provider, usage, now));
            && (Lookup(w'.db.tasks, t) != Lookup(w.db.tasks, t) <==> CompletionMoves(w.db, t, outcome))
            && (CompletionMoves(w.db, t, outcome) ==> w'.db.tasks == w.db.tasks[t := Moved(w.db.tasks[t], outcome, now)])
            && (t in w.db.tasks && t in w.db.results ==> w'.db == w.db && w'.ledger == w.ledger)
  {
    var t := w.calls[c].task;
    assert TaskConsistent(w.db, t);
    if t in w.db.tasks && t !in w.db.results {
      var status := w.db.tasks[t].status;
      var moved := Transition(w.db, t, {status}, outcome, now);
      if Terminal(status) {
        SettledRows(w, c, provider, usage);
      } else if moved.Ok? {
        SettledRows(w.(db := moved.value), c, provider, usage);
      }
    }
  }

  // ---------------------------------------------------------------- when a turn of a task is open

  predicate Live(w: World, t: TaskId) { t in w.db.tasks && !Terminal(w.db.tasks[t].status) }

  /** The events that end a live task's turn, other than a stop of the process. */
  predicate EndsTurn(w: World, e: Event, t: TaskId)
    requires t in w.db.tasks
  {
    || (e.CancelTask? && e.task == t && e.c !in w.calls)
    || (e.TurnCompleted? && Suspended(w, e.c, {AwaitCompletion}) && w.calls[e.c].task == t
        && e.outcome in LegalTransitions(w.db.tasks[t].status))
    || (StartFails(w, e) && w.calls[e.c].task == t && Failed in LegalTransitions(w.db.tasks[t].status))
  }

  predicate Reopening(w: World, e: Event, t: TaskId) {
    ReopensTask(w, e, t) && ReopenForContinuation(w.db, t, e.now).Ok?
  }

  lemma EndTurnRow(w: World, c: CallId, outcome: Outcome, provider: Provider, usage: TurnUsage, now: int)
    requires c in w.calls && WellFormed(w.ledger) && Live(w, w.calls[c].task)
    ensures var t := w.calls[c].task;
            EndTurn(w, c, outcome, provider, usage, now).db.tasks ==
              if outcome in LegalTransitions(w.db.tasks[t].status)
              then w.db.tasks[t := Moved(w.db.tasks[t], outcome, now)] else w.db.tasks
  {
    var t := w.calls[c].task;
    var moved := Transition(w.db, t, {w.db.tasks[t].status}, outcome, now);
    if moved.Ok? {
      SettledRows(w.(db := moved.value), c, provider, usage);
    }
  }

  lemma AnswerEndsExactly(w: World, c: CallId, started: Option<Session>, now: int, t: TaskId)
    requires WellFormed(w.ledger) && Accounted(w) && Suspended(w, c, {AwaitProvider}) && Live(w, t) && w.calls[c].task == t
    ensures var e := ProviderReady(c, started, now); Live(Step(w, e), t) <==> !EndsTurn(w, e, t)
  {
    var e := ProviderReady(c, started, now);
    assert CallFits(w, c);
    var w1 := w.(startingTasks := w.startingTasks - {t});
    EndTurnRow(w1, c, Failed, w.calls[c].provider, TurnUsage(None, 0, true), now);
    if StartFails(w, e) {
      assert Step(w, e) == FailStarting(w1, c, now);
    } else {
      assert !EndsTurn(w, e, t);
      if w.calls[c].kind == StartCall {
        StartAnswerLive(w1, c, started.value, now);
      } else {
        NowRunningLive(w1, c, now);
      }
    }
  }

  lemma NowRunningLive(w: World, c: CallId, now: int)
    requires c in w.calls && Live(w, w.calls[c].task)
    ensures Live(NowRunning(w, c, now), w.calls[c].task)
  {
  }

  lemma StartAnswerLive(w: World, c: CallId, session: Session, now: int)
    requires c in w.calls && w.calls[c].kind == StartCall && WellFormed(w.ledger) && Live(w, w.calls[c].task)
    ensures Live(ProviderStarted(w, c, session, now), w.calls[c].task)
  {
    var attached := AttachProviderSession(w.db, w.calls[c].task, session);
    if attached.Ok? {
      NowRunningLive(w.(db := attached.value), c, now);
    }
  }

  lemma CompletionEndsExactly(w: World, e: Event, t: TaskId)
    requires WellFormed(w.ledger) && Consistent(w.db) && e.TurnCompleted?
    requires Suspended(w, e.c, {AwaitCompletion}) && Live(w, t) && w.calls[e.c].task == t
    ensures Live(Step(w, e), t) <==> !EndsTurn(w, e, t)
  {
    assert TaskConsistent(w.db, t);
    EndTurnRow(w, e.c, e.outcome, e.provider, e.usage, e.now);
  }

  lemma CancelEndsExactly(w: World, e: Event, t: TaskId)
    requires WellFormed(w.ledger) && Consistent(w.db) && e.CancelTask? && Live(w, t)
    ensures Live(Step(w, e), t) <==> !EndsTurn(w, e, t)
  {
    CancellingTouches(w, e.c, e.task, e.now);
    if e.task == t {
      CancelMoves(w.db, t, e.now);
    } else {
      assert Lookup(Step(w, e).db.tasks, t) == Lookup(w.db.tasks, t);
    }
  }

  lemma ResumeKeepsLive(w: World, c: CallId, now: int, t: TaskId)
    requires WellFormed(w.ledger) && Accounted(w) && c in w.calls && Live(w, t)
    ensures Live(Resumed(w, c, now), t)
  {
    ResumedTables(w, c, now);
    ReopenedTables(w, c, now);
  }

  lemma WorktreeKeepsLive(w: World, e: Event, t: TaskId)
    requires WellFormed(w.ledger) && e.WorktreeReady? && Live(w, t)
    ensures Live(Step(w, e), t)
  {
    if Suspended(w, e.c, {AwaitWorktree}) && e.created.Some? {
      WorktreeCreatedTables(w, e.c, e.created.value, e.projectActive, e.now);
    }
  }

  /** While the process runs, a live task ends exactly by those events. */
  lemma LiveEndsExactly(w: World, e: Event, t: TaskId)
    requires WellFormed(w.ledger) && Consistent(w.db) && Accounted(w) && Live(w, t) && !e.Restart? && !e.CrashedRestart?
    ensures Live(Step(w, e), t) <==> !EndsTurn(w, e, t)
  {
    if e.ProviderReady? || e.TurnCompleted? {
      if Resumes(w, e) && w.calls[e.c].task == t {
        if e.ProviderReady? && Suspended(w, e.c, {AwaitProvider}) { AnswerEndsExactly(w, e.c, e.started, e.now, t); }
        else if e.TurnCompleted? && Suspended(w, e.c, {AwaitCompletion}) { CompletionEndsExactly(w, e, t); }
        else { assert Step(w, e) == w; }
      } else if Resumes(w, e) {
        StepConfined(w, e);
        assert Lookup(Step(w, e).db.tasks, t) == Lookup(w.db.tasks, t);
      } else {
        assert Step(w, e) == w;
      }
    } else if e.CancelTask? {
      CancelEndsExactly(w, e, t);
    } else if e.Resume? {
      if e.c in w.calls { ResumeKeepsLive(w, e.c, e.now, t); }
    } else if e.WorktreeReady? {
      WorktreeKeepsLive(w, e, t);
    } else if LeavesTables(e) {
      TablesLeft(w, e);
    }
  }

  lemma ReopeningRevives(w: World, e: Event, t: TaskId)
    requires WellFormed(w.ledger) && t in w.db.tasks && !Live(w, t) && ReopensTask(w, e, t)
    ensures Live(Step(w, e), t) <==> Reopening(w, e, t)
  {
    ReopenedTables(w, e.c, e.now);
  }

  /** A finished task becomes live exactly when a continuation reopens it. */
  lemma FinishedReopensExactly(w: World, e: Event, t: TaskId)
    requires WellFormed(w.ledger) && Consistent(w.db) && t in w.db.tasks && !Live(w, t)
    ensures Live(Step(w, e), t) <==> Reopening(w, e, t)
  {
    if ReopensTask(w, e, t) {
      ReopeningRevives(w, e, t);
    } else {
      StepKeeps(w, e);
      assert TerminalKept(w.db, Step(w, e).db, t);
    }
  }

  /** The completion of a live task's turn, in terms of the row alone. */
  lemma CompletionOfLive(w: World, c: CallId, t: TaskId, outcome: Outcome, provider: Provider, usage: TurnUsage, now: int)
    requires WellFormed(w.ledger) && Consistent(w.db) && t in w.db.tasks
    requires Suspended(w, c, {AwaitCompletion}) && w.calls[c].task == t
    ensures var w' := Step(w, TurnCompleted(c, outcome, provider, usage, now));
            && (Lookup(w'.db.tasks, t) != Lookup(w.db.tasks, t) <==> Live(w, t) && outcome in LegalTransitions(w.db.tasks[t].status))
            && (Lookup(w'.db.tasks, t) != Lookup(w.db.tasks, t) ==> t in w'.db.tasks && w'.db.tasks[t].status == outcome)
  {
    assert TaskConsistent(w.db, t);
    CompletionMovesExactly(w, c, outcome, provider, usage, now);
  }

  // ---------------------------------------------------------------- over runs

  /** A continuation has reopened the task, and nothing has ended that turn since. */
  ghost predicate OpenTurn(w: World, es: seq<Event>, t: TaskId)
    requires Balanced(w.ledger)
  {
    exists i :: 0 <= i < |es| && OpenSince(w, es, t, i)
  }

  ghost predicate OpenSince(w: World, es: seq<Event>, t: TaskId, i: nat)
    requires Balanced(w.ledger) && i < |es|
  {
    ReopenedBy(w, es, t, i) && forall j :: i < j < |es| ==> LeftOpenBy(w, es, t, j)
  }

  ghost predicate ReopenedBy(w: World, es: seq<Event>, t: TaskId, i: nat)
    requires Balanced(w.ledger) && i < |es|
  {
    Reopening(Run(w, es[..i]), es[i], t)
  }

  ghost predicate LeftOpenBy(w: World, es: seq<Event>, t: TaskId, j: nat)
    requires Balanced(w.ledger) && j < |es|
  {
    t in Run(w, es[..j]).db.tasks && !EndsTurn(Run(w, es[..j]), es[j], t)
  }

  lemma PrefixSame(w: World, es: seq<Event>, n: nat, t: TaskId, j: nat)
    requires Balanced(w.ledger) && j < n <= |es|
    ensures ReopenedBy(w, es[..n], t, j) <==> ReopenedBy(w, es, t, j)
    ensures LeftOpenBy(w, es[..n], t, j) <==> LeftOpenBy(w, es, t, j)
  {
    assert es[..n][..j] == es[..j] && es[..n][j] == es[j];
  }

  lemma OpenSinceSnoc(w: World, es: seq<Event>, t: TaskId, i: nat)
    requires Balanced(w.ledger) && i + 1 < |es|
    ensures OpenSince(w, es, t, i) <==> OpenSince(w, es[..|es| - 1], t, i) && LeftOpenBy(w, es, t, |es| - 1)
  {
    var n := |es| - 1;
    forall j | 0 <= j < n
      ensures ReopenedBy(w, es[..n], t, j) <==> ReopenedBy(w, es, t, j)
      ensures LeftOpenBy(w, es[..n], t, j) <==> LeftOpenBy(w, es, t, j)
    {
      PrefixSame(w, es, n, t, j);
    }
  }

  lemma LiveStep(w: World, e: Event, t: TaskId)
    requires WellFormed(w.ledger) && Consistent(w.db) && Accounted(w) && t in w.db.tasks && !e.Restart? && !e.CrashedRestart?
    ensures t in Step(w, e).db.tasks && (Live(Step(w, e), t) <==> if Live(w, t) then !EndsTurn(w, e, t) else Reopening(w, e, t))
    ensures Live(w, t) ==> !Reopening(w, e, t)
  {
    StepKeeps(w, e);
    if Live(w, t) { LiveEndsExactly(w, e, t); } else { FinishedReopensExactly(w, e, t); }
  }

  /** From a world in which the task has ended, a run without a stop leaves it live exactly if a
      continuation has reopened it and nothing has ended that turn since. */
  lemma {:induction false} LiveExactly(w: World, es: seq<Event>, t: TaskId)
    requires Balanced(w.ledger) && Consistent(w.db) && Accounted(w) && t in w.db.tasks && !Live(w, t)
    requires forall e :: e in es ==> !e.Restart? && !e.CrashedRestart?
    ensures t in Run(w, es).db.tasks && (Live(Run(w, es), t) <==> OpenTurn(w, es, t))
    decreases |es|
  {
    if es != [] {
      var n := |es| - 1;
      var last := Run(w, es[..n]);
      assert es == es[..n] + [es[n]];
      RunSnoc(w, es[..n], es[n]);
      RunKeeps(w, es[..n]);
      RunAccounted(w, es[..n]);
      LiveExactly(w, es[..n], t);
      forall i | 0 <= i < n
        ensures OpenSince(w, es, t, i) <==> OpenSince(w, es[..n], t, i) && LeftOpenBy(w, es, t, n)
      {
        OpenSinceSnoc(w, es, t, i);
      }
      LiveStep(last, es[n], t);
      assert Reopening(last, es[n], t) ==> OpenSince(w, es, t, n);
    }
  }

  /** The turn's call stays at its await while anything else happens. */
  lemma {:induction false} TurnStillAwaits(w: World, es: seq<Event>, c: CallId)
    requires Balanced(w.ledger) && Accounted(w) && Suspended(w, c, {AwaitCompletion})
    requires forall e :: e in es ==> !e.Restart? && !e.CrashedRestart? && !(e.TurnCompleted? && e.c == c)
    ensures Lookup(Run(w, es).calls, c) == Some(w.calls[c])
    decreases |es|
  {
    if es != [] {
      var e := es[0];
      StepBalanced(w, e);
      StepAccounted(w, e);
      if e.Resume? && e.c == c { assert Step(w, e) == w; } else { OtherCallsStay(w, e, c); }
      TurnStillAwaits(Step(w, e), es[1..], c);
    }
  }

  ghost predicate NeverReopened(w: World, es: seq<Event>, t: TaskId)
    requires Balanced(w.ledger)
  {
    forall i :: 0 <= i < |es| ==> !Reopening(Run(w, es[..i]), es[i], t)
  }

  /** Until a continuation reopens the task its stored result stays. */
  lemma {:induction false} ResultStays(w: World, es: seq<Event>, t: TaskId)
    requires Balanced(w.ledger) && Consistent(w.db) && Accounted(w) && t in w.db.tasks && t in w.db.results
    requires NeverReopened(w, es, t)
    ensures t in Run(w, es).db.tasks && t in Run(w, es).db.results
    decreases |es|
  {
    if es != [] {
      var n := |es| - 1;
      assert es == es[..n] + [es[n]];
      forall i | 0 <= i < n ensures !Reopening(Run(w, es[..n][..i]), es[..n][i], t) {
        assert es[..n][..i] == es[..i];
      }
      RunSnoc(w, es[..n], es[n]);
      RunKeeps(w, es[..n]);
      RunAccounted(w, es[..n]);
      ResultStays(w, es[..n], t);
      ResultKept(Run(w, es[..n]), es[n], t);
    }
  }

  lemma ResultKept(w: World, e: Event, t: TaskId)
    requires WellFormed(w.ledger) && Consistent(w.db) && t in w.db.tasks && t in w.db.results
    requires !Reopening(w, e, t)
    ensures t in Step(w, e).db.tasks && t in Step(w, e).db.results
  {
    StepKeeps(w, e);
    assert TaskConsistent(w.db, t);
    if ReopensTask(w, e, t) {
      ReopenedTables(w, e.c, e.now);
    } else {
      assert TerminalKept(w.db, Step(w, e).db, t);
    }
  }

  /** The completion of a turn whose task has ended meanwhile, after any run without a stop. */
  lemma CompletionAfterRun(w1: World, c: CallId, t: TaskId, es: seq<Event>, outcome: Outcome, provider: Provider,
                           usage: TurnUsage, now: int)
    requires Balanced(w1.ledger) && Consistent(w1.db) && Accounted(w1)
    requires Suspended(w1, c, {AwaitCompletion}) && w1.calls[c].task == t
    requires t in w1.db.tasks && !Live(w1, t) && t in w1.db.results
    requires forall e :: e in es ==> !e.Restart? && !e.CrashedRestart? && !(e.TurnCompleted? && e.c == c)
    ensures var w2 := Run(w1, es);
            && Balanced(w2.ledger)
            && var w3 := Step(w2, TurnCompleted(c, outcome, provider, usage, now));
            && t in w2.db.tasks
            && (Lookup(w3.db.tasks, t) != Lookup(w2.db.tasks, t) <==>
                  OpenTurn(w1, es, t) && outcome in LegalTransitions(w2.db.tasks[t].status))
            && (Lookup(w3.db.tasks, t) != Lookup(w2.db.tasks, t) ==> t in w3.db.tasks && w3.db.tasks[t].status == outcome)
            && (NeverReopened(w1, es, t) ==> w3.db == w2.db && w3.ledger == w2.ledger)
  {
    LiveExactly(w1, es, t);
    TurnStillAwaits(w1, es, c);
    RunKeeps(w1, es);
    CompletionOfLive(Run(w1, es), c, t, outcome, provider, usage, now);
    if NeverReopened(w1, es, t) {
      ResultStays(w1, es, t);
      CompletionMovesExactly(Run(w1, es), c, outcome, provider, usage, now);
    }
  }

  lemma CancelledRow(w: World, k: CallId, t: TaskId, now: int)
    requires WellFormed(w.ledger) && Consistent(w.db) && Live(w, t) && k !in w.calls
    ensures var w1 := Step(w, CancelTask(k, t, now));
            t in w1.db.tasks && !Live(w1, t) && t in w1.db.results
  {
    CancelMoves(w.db, t, now);
    CancellingShape(w, k, t, now);
  }

  /** The exact theorem. A turn is cancelled while it awaits its completion; anything but that completion
      and a stop of the process happens; then the completion arrives. It moves the task's row if and only
      if a continuation has reopened the task and nothing has ended that newer turn since, and its outcome
      is legal from the row's status; it then ends the newer turn. Before any reopening it changes neither
      the tables nor the ledger. */
  lemma LateCompletionExactly(w: World, c: CallId, k: CallId, es: seq<Event>, outcome: Outcome, provider: Provider,
                              usage: TurnUsage, cancelledAt: int, now: int)
    requires Balanced(w.ledger) && Consistent(w.db) && Accounted(w)
    requires Suspended(w, c, {AwaitCompletion}) && Live(w, w.calls[c].task) && k !in w.calls
    requires forall e :: e in es ==> !e.Restart? && !e.CrashedRestart? && !(e.TurnCompleted? && e.c == c)
    ensures var t := w.calls[c].task;
            var w1 := Step(w, CancelTask(k, t, cancelledAt));
            && Balanced(w1.ledger)
            && var w2 := Run(w1, es);
            && Balanced(w2.ledger)
            && var w3 := Step(w2, TurnCompleted(c, outcome, provider, usage, now));
            && t in w2.db.tasks
            && (Lookup(w3.db.tasks, t) != Lookup(w2.db.tasks, t) <==>
                  OpenTurn(w1, es, t) && outcome in LegalTransitions(w2.db.tasks[t].status))
            && (Lookup(w3.db.tasks, t) != Lookup(w2.db.tasks, t) ==> t in w3.db.tasks && w3.db.tasks[t].status == outcome)
            && (NeverReopened(w1, es, t) ==> w3.db == w2.db && w3.ledger == w2.ledger)
  {
    var t := w.calls[c].task;
    var e := CancelTask(k, t, cancelledAt);
    StepBalanced(w, e);
    StepAccounted(w, e);
    StepKeeps(w, e);
    CancelledRow(w, k, t, cancelledAt);
    CancelLeavesCall(w, e, c);
    CompletionAfterRun(Step(w, e), c, t, es, outcome, provider, usage, now);
  }

  /** With two calls awaiting a completion for one live task, the older turn's completion stores its
      outcome for the newer turn, and the newer turn's own completion is then discarded with its hold
      unpaid. */
  lemma LateCompletionEndsNewTurn(w: World, older: CallId, newer: CallId, oldHold: HoldId, h: HoldId,
                                  outcome: Outcome, later: Outcome, usage: TurnUsage, now: int)
    returns (ended: World, discarded: World)
    requires WellFormed(w.ledger) && Consistent(w.db) && older != newer && oldHold != h
    requires Suspended(w, older, {AwaitCompletion}) && Suspended(w, newer, {AwaitCompletion})
    requires var t := w.calls[newer].task; w.calls[older].task == t && Live(w, t)
    requires w.calls[newer].hold == Some(h) && IsActive(w.ledger, h) && w.calls[older].hold == Some(oldHold)
    requires outcome in LegalTransitions(w.db.tasks[w.calls[newer].task].status)
    ensures var provider := w.db.tasks[w.calls[newer].task].provider;
            && ended == Step(w, TurnCompleted(older, outcome, provider, usage, now))
            && WellFormed(ended.ledger)
            && discarded == Step(ended, TurnCompleted(newer, later, provider, usage, now))
    ensures var t := w.calls[newer].task;
            && t in ended.db.tasks && ended.db.tasks[t].status == outcome && Lookup(ended.db.results, t) == Some(outcome)
            && newer in ended.calls && ended.calls[newer] == w.calls[newer]
            && discarded.db == ended.db && newer !in discarded.calls && IsActive(discarded.ledger, h)
  {
    var t := w.calls[newer].task;
    var status, provider := w.db.tasks[t].status, w.db.tasks[t].provider;
    assert TaskConsistent(w.db, t);
    ended := Step(w, TurnCompleted(older, outcome, provider, usage, now));
    var moved := Transition(w.db, t, {status}, outcome, now);
    assert moved.Ok? && SaveResult(moved.value, t, provider, outcome).Ok?;
    assert ended == Settled(w.(db := moved.value), older, provider, usage);
    assert ended.ledger == Complete(w.ledger, oldHold, usage.(failed := outcome == Failed));
    discarded := Step(ended, TurnCompleted(newer, later, provider, usage, now));
  }
}
