/**
 Holds that nobody settles any more: those a cancellation lost, and those a restart stranded with a task
 in `created`. Exactly when, over every later run, such a hold gives its capacity back.
 */
module LostHolds {
  import opened Common
  import opened TaskStore
  import opened Usage
  import opened Coordinator
  import opened CoordinatorSafety
  import opened HoldConservation
  import opened HoldAccounting
  import opened HoldTracing

  // ---------------------------------------------------------------- a hold nobody releases

  /** An active hold that no call will settle and no cancellation will find. */
  ghost predicate Unclaimed(w: World, t: TaskId, h: HoldId) {
    && IsActive(w.ledger, h) && AttachedTo(w, t, h) && Lookup(w.activeReservations, t) != Some(h)
    && forall d :: d in w.calls ==> w.calls[d].hold != Some(h)
  }

  lemma CancelKeepsUnclaimed(w: World, e: Event, t: TaskId, h: HoldId)
    requires WellFormed(w.ledger) && Accounted(w) && Unclaimed(w, t, h) && e.CancelTask?
    ensures IsActive(Step(w, e).ledger, h) && forall d :: d in Step(w, e).calls ==> Step(w, e).calls[d].hold != Some(h)
  {
    CancellingTouches(w, e.c, e.task, e.now);
    if e.task in w.activeReservations {
      assert Registered(w, e.task);
    }
    forall d | d in Step(w, e).calls ensures Step(w, e).calls[d].hold != Some(h) {
      CancellingCalls(w, e.c, e.task, e.now, d);
    }
  }

  lemma ResumesKeepsUnclaimed(w: World, e: Event, t: TaskId, h: HoldId)
    requires WellFormed(w.ledger) && Accounted(w) && Unclaimed(w, t, h) && Resumes(w, e)
    ensures IsActive(Step(w, e).ledger, h) && forall d :: d in Step(w, e).calls ==> Step(w, e).calls[d].hold != Some(h)
  {
    var w' := Step(w, e);
    StepConfined(w, e);
    if w.calls[e.c].task in w.activeReservations {
      assert Registered(w, w.calls[e.c].task);
    }
    assert !Reaches(w, w.calls[e.c], h);
    assert Lookup(w'.ledger.holds, h) == Lookup(w.ledger.holds, h);
    forall d | d in w'.calls ensures w'.calls[d].hold != Some(h) {
      assert d != e.c ==> Lookup(w'.calls, d) == Lookup(w.calls, d);
    }
  }

  lemma NewcomerKeepsUnclaimed(w: World, e: Event, t: TaskId, h: HoldId)
    requires WellFormed(w.ledger) && Unclaimed(w, t, h) && (e.StartTask? || e.ContinueTask?)
    ensures IsActive(Step(w, e).ledger, h) && forall d :: d in Step(w, e).calls ==> Step(w, e).calls[d].hold != Some(h)
  {
    if e.StartTask? && w.capacity.Some? {
      ReserveAdds(w.ledger, w.capacity.value, e.provider, e.taskClass, e.hold);
    }
  }

  lemma StepKeepsUnclaimed(w: World, e: Event, t: TaskId, h: HoldId)
    requires WellFormed(w.ledger) && Accounted(w) && Unclaimed(w, t, h) && !e.Restart? && !e.CrashedRestart?
    ensures Unclaimed(Step(w, e), t, h)
  {
    StepFrozen(w, e);
    StepRegisters(w, e, t);
    NotRegisteredTwice(w, e, t, h);
    if Resumes(w, e) {
      ResumesKeepsUnclaimed(w, e, t, h);
    } else if e.CancelTask? {
      CancelKeepsUnclaimed(w, e, t, h);
    } else if e.StartTask? || e.ContinueTask? {
      NewcomerKeepsUnclaimed(w, e, t, h);
    } else if e.DecisionOpened? || e.DecisionClosed? || e.WorktreeClosed? {
      TablesOnly(w, e);
    } else if !e.Shutdown? {
      assert Step(w, e) == w;
    }
  }

  /** A lost hold keeps its capacity for as long as the process runs: no completion, continuation or
      cancellation ends it. */
  lemma {:induction false} LostWhileRunning(w: World, es: seq<Event>, t: TaskId, h: HoldId)
    requires Balanced(w.ledger) && Accounted(w) && Unclaimed(w, t, h)
    requires forall e :: e in es ==> !e.Restart? && !e.CrashedRestart?
    ensures Unclaimed(Run(w, es), t, h)
    decreases |es|
  {
    if es != [] {
      StepBalanced(w, es[0]);
      StepAccounted(w, es[0]);
      StepKeepsUnclaimed(w, es[0], t, h);
      LostWhileRunning(Step(w, es[0]), es[1..], t, h);
    }
  }

  // ---------------------------------------------------------------- when a lost hold ends

  /** A restart whose release loop comes to the hold: a complete one, or one cut short after that. */
  predicate Visits(w: World, e: Event, h: HoldId) {
    e.Restart? || (e.CrashedRestart? && h in e.released && AllRecovered(RecoverTasks(w.db, e.tasks, e.now)))
  }

  predicate StillCreated(db: Tables, t: TaskId) { t in db.tasks && db.tasks[t].status == Created }

  lemma RestartEndsExactly(w: World, e: Event, t: TaskId, h: HoldId)
    requires WellFormed(w.ledger) && Unclaimed(w, t, h) && (e.Restart? || e.CrashedRestart?)
    ensures IsActive(Step(w, e).ledger, h) <==> !(Visits(w, e, h) && !StillCreated(w.db, t))
    ensures IsActive(Step(w, e).ledger, h) ==> Unclaimed(Step(w, e), t, h)
  {
    if e.CrashedRestart? && t in w.db.tasks {
      var db := RecoverTasks(w.db, e.tasks, e.now);
      assert AllRecovered(db) ==> !Recoverable(db.tasks[t].status);
    }
  }

  ghost predicate ReleasedBy(w: World, es: seq<Event>, t: TaskId, h: HoldId, j: nat)
    requires Balanced(w.ledger) && j < |es|
  {
    Visits(Run(w, es[..j]), es[j], h) && !StillCreated(Run(w, es[..j]).db, t)
  }

  lemma ReleasedPrefix(w: World, es: seq<Event>, t: TaskId, h: HoldId, n: nat, j: nat)
    requires Balanced(w.ledger) && j < n <= |es|
    ensures ReleasedBy(w, es[..n], t, h, j) <==> ReleasedBy(w, es, t, h, j)
  {
    assert es[..n][..j] == es[..j] && es[..n][j] == es[j];
  }

  /** The exact end of a lost hold, over every run: it is released if and only if some restart's release
      loop comes to it while its task is not in `created`. Nothing else ever ends it. */
  lemma {:induction false} LostEndsExactly(w: World, es: seq<Event>, t: TaskId, h: HoldId)
    requires Balanced(w.ledger) && Accounted(w) && Unclaimed(w, t, h)
    ensures !IsActive(Run(w, es).ledger, h) <==> exists j :: 0 <= j < |es| && ReleasedBy(w, es, t, h, j)
    ensures IsActive(Run(w, es).ledger, h) ==> Unclaimed(Run(w, es), t, h)
    decreases |es|
  {
    if es != [] {
      var n := |es| - 1;
      var last := Run(w, es[..n]);
      assert es == es[..n] + [es[n]];
      RunSnoc(w, es[..n], es[n]);
      RunAccounted(w, es[..n]);
      RunFrozen(w, es[..n]);
      StepFrozen(last, es[n]);
      LostEndsExactly(w, es[..n], t, h);
      forall j | 0 <= j < n ensures ReleasedBy(w, es[..n], t, h, j) <==> ReleasedBy(w, es, t, h, j) {
        ReleasedPrefix(w, es, t, h, n, j);
      }
      if IsActive(last.ledger, h) {
        LostStep(last, es[n], t, h);
        assert ReleasedBy(w, es, t, h, n) <==> Visits(last, es[n], h) && !StillCreated(last.db, t);
      }
    }
  }

  lemma LostStep(w: World, e: Event, t: TaskId, h: HoldId)
    requires WellFormed(w.ledger) && Accounted(w) && Unclaimed(w, t, h)
    ensures IsActive(Step(w, e).ledger, h) <==> !(Visits(w, e, h) && !StillCreated(w.db, t))
    ensures IsActive(Step(w, e).ledger, h) ==> Unclaimed(Step(w, e), t, h)
  {
    if e.Restart? || e.CrashedRestart? {
      RestartEndsExactly(w, e, t, h);
    } else {
      StepKeepsUnclaimed(w, e, t, h);
    }
  }

  // ---------------------------------------------------------------- a stranded hold

  /** The hold of a task that a restart left in `created`, with no call in a turn of it. */
  ghost predicate LeftBehind(w: World, t: TaskId, h: HoldId) {
    && StillCreated(w.db, t) && Unclaimed(w, t, h)
    && forall d :: d in w.calls ==> !OnDuty(w.calls[d], t)
  }

  /** How a hold is left behind: a restart, complete or cut short, while its call is starting the renderer. */
  lemma RestartLeavesBehind(w: World, c: CallId, h: HoldId, e: Event)
    requires WellFormed(w.ledger) && Accounted(w) && Suspended(w, c, {AwaitRenderer}) && w.calls[c].hold == Some(h)
    requires StillCreated(w.db, w.calls[c].task) && IsActive(w.ledger, h)
    requires e.Restart? || e.CrashedRestart?
    ensures LeftBehind(Step(w, e), w.calls[c].task, h) && Stranded(Step(w, e), h)
  {
    assert CallFits(w, c);
  }

  /** A cancellation that finds the task. */
  predicate Cancels(w: World, e: Event, t: TaskId) { e.CancelTask? && e.task == t && e.c !in w.calls }

  lemma ReopenFailsLeftBehind(w: World, e: Event, t: TaskId, h: HoldId)
    requires Accounted(w) && WellFormed(w.ledger) && LeftBehind(w, t, h) && ReopensTask(w, e, t)
    ensures StillCreated(Step(w, e).db, t) && forall d :: d in Step(w, e).calls ==> !OnDuty(Step(w, e).calls[d], t)
  {
    assert Step(w, e) == Catch(w, e.c);
  }

  lemma OtherKeepsLeftBehind(w: World, e: Event, t: TaskId, h: HoldId)
    requires Accounted(w) && WellFormed(w.ledger) && LeftBehind(w, t, h)
    requires !Cancels(w, e, t) && !e.Restart? && !e.CrashedRestart?
    ensures LeftBehind(Step(w, e), t, h)
  {
    StepKeepsUnclaimed(w, e, t, h);
    if e.CancelTask? && e.task == t {
      assert Step(w, e) == w;
    } else if ReopensTask(w, e, t) {
      ReopenFailsLeftBehind(w, e, t, h);
    } else {
      EventPassesBy(w, e, t, h);
      forall d | d in Step(w, e).calls ensures !OnDuty(Step(w, e).calls[d], t) {
        assert OnDuty(Step(w, e).calls[d], t) ==> Lookup(Step(w, e).calls, d) == Lookup(w.calls, d);
      }
    }
  }

  lemma CancelledLeavesCreated(w: World, e: Event, t: TaskId)
    requires WellFormed(w.ledger) && Consistent(w.db) && StillCreated(w.db, t) && Cancels(w, e, t)
    ensures t in Step(w, e).db.tasks && Step(w, e).db.tasks[t].status == Cancelled
  {
    assert TaskConsistent(w.db, t);
    var moved := Transition(w.db, t, {Created}, Cancelled, e.now);
    assert moved.Ok? && SaveResult(moved.value, t, w.db.tasks[t].provider, Cancelled).Ok?;
  }

  /** A task left in `created` leaves it exactly by a cancellation. */
  lemma StepLeavesCreatedExactly(w: World, e: Event, t: TaskId, h: HoldId)
    requires Accounted(w) && WellFormed(w.ledger) && Consistent(w.db) && LeftBehind(w, t, h)
    ensures StillCreated(Step(w, e).db, t) <==> !Cancels(w, e, t)
    ensures StillCreated(Step(w, e).db, t) ==> LeftBehind(Step(w, e), t, h)
  {
    if Cancels(w, e, t) {
      CancelledLeavesCreated(w, e, t);
    } else if e.Restart? || e.CrashedRestart? {
      RestartEndsExactly(w, e, t, h);
    } else {
      OtherKeepsLeftBehind(w, e, t, h);
    }
  }

  ghost predicate CancelledBy(w: World, es: seq<Event>, t: TaskId, i: nat)
    requires Balanced(w.ledger) && i < |es|
  {
    Cancels(Run(w, es[..i]), es[i], t)
  }

  lemma CancelledPrefix(w: World, es: seq<Event>, t: TaskId, n: nat, i: nat)
    requires Balanced(w.ledger) && i < n <= |es|
    ensures CancelledBy(w, es[..n], t, i) <==> CancelledBy(w, es, t, i)
  {
    assert es[..n][..i] == es[..i] && es[..n][i] == es[i];
  }

  lemma {:induction false} LeavesCreatedExactly(w: World, es: seq<Event>, t: TaskId, h: HoldId)
    requires Balanced(w.ledger) && Consistent(w.db) && Accounted(w) && LeftBehind(w, t, h)
    ensures !StillCreated(Run(w, es).db, t) <==> exists i :: 0 <= i < |es| && CancelledBy(w, es, t, i)
    ensures StillCreated(Run(w, es).db, t) ==> LeftBehind(Run(w, es), t, h)
    decreases |es|
  {
    if es != [] {
      var n := |es| - 1;
      var last := Run(w, es[..n]);
      assert es == es[..n] + [es[n]];
      RunSnoc(w, es[..n], es[n]);
      RunAccounted(w, es[..n]);
      RunKeeps(w, es[..n]);
      StepKeeps(last, es[n]);
      LeavesCreatedExactly(w, es[..n], t, h);
      forall i | 0 <= i < n ensures CancelledBy(w, es[..n], t, i) <==> CancelledBy(w, es, t, i) {
        CancelledPrefix(w, es, t, n, i);
      }
      if StillCreated(last.db, t) {
        StepLeavesCreatedExactly(last, es[n], t, h);
        assert CancelledBy(w, es, t, n) <==> Cancels(last, es[n], t);
      }
    }
  }

  /** The run cancels the task and, later, holds a restart whose release loop comes to the hold. */
  ghost predicate CancelledThenVisited(w: World, es: seq<Event>, t: TaskId, h: HoldId)
    requires Balanced(w.ledger)
  {
    exists i, j :: 0 <= i < j < |es| && CancelledBy(w, es, t, i) && Visits(Run(w, es[..j]), es[j], h)
  }

  /** The exact end of a stranded hold, over every run with any cancellations and restarts: it is released
      if and only if the task is cancelled and a later restart's release loop comes to the hold. The
      cancellation alone releases nothing. */
  lemma StrandedEndsExactly(w: World, es: seq<Event>, t: TaskId, h: HoldId)
    requires Balanced(w.ledger) && Consistent(w.db) && Accounted(w) && LeftBehind(w, t, h)
    ensures !IsActive(Run(w, es).ledger, h) <==> CancelledThenVisited(w, es, t, h)
  {
    LostEndsExactly(w, es, t, h);
    forall j | 0 <= j < |es|
      ensures ReleasedBy(w, es, t, h, j) <==>
              Visits(Run(w, es[..j]), es[j], h) && exists i :: 0 <= i < j && CancelledBy(w, es, t, i)
    {
      LeavesCreatedExactly(w, es[..j], t, h);
      forall i | 0 <= i < j ensures CancelledBy(w, es[..j], t, i) <==> CancelledBy(w, es, t, i) {
        CancelledPrefix(w, es, t, j, i);
      }
    }
  }
}
